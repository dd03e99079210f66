/**
 * The sketch's glue as a state machine over values: the state the library
 * singletons hold as far as the sketch can tell, an append-only trace of the
 * calls it makes on them, and one function per callback and per main-loop
 * tick. The class in device.dfy is proved to follow these functions; the
 * lemmas here state what the glue guarantees.
 */
module Glue {
  import opened Base
  import opened Config
  import opened Topics
  import opened Led

  /** What goes out on a publish: a plain string, or the LED's JSON status. */
  datatype Payload = Text(text: string) | Status(status: LedStatus)

  /** A gesture the button driver classified and dispatched. */
  datatype Press = Short | Long | VeryLong | UltraLong

  /** One call the sketch makes on a library singleton or on the platform. */
  datatype Action =
    | LedCall(op: LedAction)
    | Publish(topic: string, payload: Payload)
    | Persist(key: string, value: string)
    | WifiStaConnect | MqttStart
    | MqttStop | WifiStaDisconnect | ApCreate | ApDestroy | WebServerStart | WebServerStop
    | EspRestart
    | ButtonPoll | WifiPoll | PirPoll | MqttPoll | UpdatePoll | OtaHandle | WebServerPoll
    | WatchdogPoll | WatchdogInit | WatchdogFeed | WatchdogDeinit | LightSensorPoll

  /**
   * The device as the sketch knows it: what the LED reports, whether the
   * access point is up, whether the MQTT connection and the web server were
   * last started or stopped, whether the watchdog was last armed or disarmed,
   * whether a restart was requested, the persisted settings, and every call
   * made so far.
   */
  datatype Node = Node(
    led: LedView, apMode: bool, mqttRunning: bool, webServerRunning: bool,
    watchdogArmed: bool, restartRequested: bool, store: map<string, string>,
    trace: seq<Action>)

  /** What stays fixed after boot: the topic globals and how the LED driver reacts to a call. */
  datatype Env = Env(topics: Topics, respond: (LedView, LedAction) -> LedView)

  // ---------------------------------------------------------------------
  // The calls on library singletons, one step each.

  function Emit(n: Node, a: Action): Node {
    n.(trace := n.trace + [a])
  }

  function Do(env: Env, n: Node, op: LedAction): Node {
    n.(led := env.respond(n.led, op), trace := n.trace + [LedCall(op)])
  }

  function DoAll(env: Env, n: Node, ops: seq<LedAction>): Node
    decreases |ops|
  {
    if ops == [] then n else DoAll(env, Do(env, n, ops[0]), ops[1..])
  }

  function Send(n: Node, topic: string, payload: Payload): Node {
    Emit(n, Publish(topic, payload))
  }

  function Save(n: Node, key: string, value: string): Node {
    n.(store := n.store[key := value], trace := n.trace + [Persist(key, value)])
  }

  function StopMqtt(n: Node): Node {
    n.(mqttRunning := false, trace := n.trace + [MqttStop])
  }

  function CreateAp(n: Node): Node {
    n.(apMode := true, trace := n.trace + [ApCreate])
  }

  function DestroyAp(n: Node): Node {
    n.(apMode := false, trace := n.trace + [ApDestroy])
  }

  function StartWebServer(n: Node): Node {
    n.(webServerRunning := true, trace := n.trace + [WebServerStart])
  }

  function StopWebServer(n: Node): Node {
    n.(webServerRunning := false, trace := n.trace + [WebServerStop])
  }

  function Restart(n: Node): Node {
    n.(restartRequested := true, trace := n.trace + [EspRestart])
  }

  function ArmWatchdog(n: Node): Node {
    n.(watchdogArmed := true, trace := n.trace + [WatchdogInit])
  }

  function DisarmWatchdog(n: Node): Node {
    n.(watchdogArmed := false, trace := n.trace + [WatchdogDeinit])
  }

  // ---------------------------------------------------------------------
  // The sketch's callbacks.

  /** `publishStateRgbLED`: one publish of what the LED reports, to `topic`. */
  function PublishState(n: Node, topic: string): Node {
    Send(n, topic, Status(StatusOf(n.led)))
  }

  /** `MQTTcallback`: commands on the LED command topic drive the LED and are answered with its status; anything else is ignored. */
  function OnMessage(env: Env, n: Node, topic: string, cmd: Command): Node {
    if topic == env.topics.commandLed then
      PublishState(DoAll(env, n, CommandOps(cmd)), env.topics.statusLed)
    else n
  }

  function OnShortPress(env: Env, n: Node): Node {
    var n1 := Do(env, n, Commute);
    PublishState(PublishState(n1, env.topics.statusLed), env.topics.commandLed)
  }

  function OnLongPress(env: Env, n: Node): Node {
    Send(n, env.topics.buttonToggle, Text(Toggle))
  }

  function OnVeryLongPress(n: Node): Node {
    Restart(Emit(StopMqtt(n), WifiStaDisconnect))
  }

  function OnUltraLongPress(n: Node): Node {
    if n.apMode then Restart(DestroyAp(StopWebServer(n)))
    else StartWebServer(CreateAp(StopMqtt(n)))
  }

  function OnPress(env: Env, n: Node, p: Press): Node {
    match p
    case Short => OnShortPress(env, n)
    case Long => OnLongPress(env, n)
    case VeryLong => OnVeryLongPress(n)
    case UltraLong => OnUltraLongPress(n)
  }

  /** `motionDetected` and `motionNotDetected`. */
  function OnMotion(env: Env, n: Node, rising: bool): Node {
    Send(n, env.topics.statusMotion, Text(if rising then "ON" else "OFF"))
  }

  /** One `dataManager.set` of a submission: the setting `k` saved from the form field of its name. */
  function SaveSetting(n: Node, form: map<string, string>, k: Key): Node {
    Save(n, Name(k), FormField(form, Name(k)))
  }

  /** The settings listed in `keys` saved one after the other. */
  function SaveAll(n: Node, form: map<string, string>, keys: seq<Key>): Node
    decreases |keys|
  {
    if keys == [] then n else SaveSetting(SaveAll(n, form, keys[..|keys| - 1]), form, keys[|keys| - 1])
  }

  /** `webServerSubmitCallback`: the twenty settings saved in the listed order, then a restart. */
  function OnSubmit(n: Node, form: map<string, string>): Node {
    Restart(SaveAll(n, form, ConfigKeys))
  }

  /** The trace entries for saving the settings listed in `keys`. */
  function PersistCalls(form: map<string, string>, keys: seq<Key>): seq<Action>
    decreases |keys|
  {
    if keys == [] then []
    else
      var last := Name(keys[|keys| - 1]);
      PersistCalls(form, keys[..|keys| - 1]) + [Persist(last, FormField(form, last))]
  }

  /** The calls `webServerSubmitCallback` makes: every setting saved from the field of the same name, in the listed order, then a restart. */
  function SubmitTrace(form: map<string, string>): seq<Action> {
    PersistCalls(form, ConfigKeys) + [EspRestart]
  }

  // ---------------------------------------------------------------------
  // One pass of `loop`.

  /**
   * What the libraries report or dispatch during one pass: the gesture the
   * button classified, the PIR edge seen, whether the station link is up, the
   * message the MQTT client delivered, the form the web server received,
   * whether the watchdog's deadline passed, whether the MQTT client is connected.
   */
  datatype TickInputs = TickInputs(
    press: Option<Press>, motion: Option<bool>, wifiConnected: bool,
    message: Option<(string, Command)>, form: Option<map<string, string>>,
    watchdogExpired: bool, mqttConnected: bool)

  /** The button is polled and its gesture, if any, handled. */
  function ButtonStep(env: Env, n: Node, obs: TickInputs): Node {
    var polled := Emit(n, ButtonPoll);
    match obs.press
    case None => polled
    case Some(p) => OnPress(env, polled, p)
  }

  /** The WiFi and PIR drivers are polled and a motion edge, if any, published. */
  function SensorStep(env: Env, n: Node, obs: TickInputs): Node {
    var polled := Emit(Emit(n, WifiPoll), PirPoll);
    match obs.motion
    case None => polled
    case Some(rising) => OnMotion(env, polled, rising)
  }

  /** The message the MQTT client dispatched while it was polled, if any, handed to the callback. */
  function Deliver(env: Env, n: Node, message: Option<(string, Command)>): Node {
    match message
    case None => n
    case Some(m) => OnMessage(env, n, m.0, m.1)
  }

  /** With the station link up: MQTT (delivering its message), the update check and OTA are serviced. */
  function NetworkStep(env: Env, n: Node, obs: TickInputs): Node {
    if !obs.wifiConnected then n
    else
      var delivered := Deliver(env, Emit(n, MqttPoll), obs.message);
      Emit(Emit(delivered, UpdatePoll), OtaHandle)
  }

  /** In access-point mode the web server is serviced, and a submitted form handled. */
  function WebStep(n: Node, obs: TickInputs): Node {
    if !n.apMode then n
    else
      var polled := Emit(n, WebServerPoll);
      match obs.form
      case None => polled
      case Some(f) => OnSubmit(polled, f)
  }

  /** The watchdog rule: armed and fed while MQTT is connected, else disarmed with a white LED in access-point mode, else left alone. */
  function WatchdogStep(env: Env, n: Node, obs: TickInputs): Node {
    if obs.mqttConnected then Emit(ArmWatchdog(n), WatchdogFeed)
    else if n.apMode then Do(env, DisarmWatchdog(n), SetColor(White))
    else n
  }

  /** The end of a pass: the watchdog is polled (a deadline that passed while armed restarts), its rule applied, the LED and the light sensor serviced. */
  function Closing(env: Env, n: Node, obs: TickInputs): Node {
    var polled := Emit(n, WatchdogPoll);
    if obs.watchdogExpired && polled.watchdogArmed then Restart(polled)
    else Emit(Do(env, WatchdogStep(env, polled, obs), Refresh), LightSensorPoll)
  }

  /**
   * One pass of `loop`. A restart never returns, so once one is requested
   * the rest of the pass does not run.
   */
  function Tick(env: Env, n: Node, obs: TickInputs): Node
    requires !n.restartRequested
  {
    var n1 := ButtonStep(env, n, obs);
    if n1.restartRequested then n1
    else
      var n2 := WebStep(NetworkStep(env, SensorStep(env, n1, obs), obs), obs);
      if n2.restartRequested then n2
      else
        Closing(env, n2, obs)
  }
}
