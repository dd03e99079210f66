/**
 * What the glue guarantees: the calls each callback makes and in what order,
 * which services one pass of the main loop polls, the watchdog rule, and an
 * invariant tying the access point to the web server and the MQTT client.
 */
module Properties {
  import opened Base
  import opened Config
  import opened Topics
  import opened Led
  import opened Glue

  /** The trace entries for a sequence of LED calls. */
  function LedCalls(ops: seq<LedAction>): seq<Action>
    decreases |ops|
  {
    if ops == [] then [] else [LedCall(ops[0])] + LedCalls(ops[1..])
  }

  /** The calls a transition appended to the trace, when it only appended. */
  function Emitted(before: Node, after: Node): seq<Action>
    requires |before.trace| <= |after.trace|
  {
    after.trace[|before.trace|..]
  }

  /** `after` keeps every call `before` made, in order. */
  predicate TraceExtends(before: Node, after: Node) {
    |before.trace| <= |after.trace| && after.trace[..|before.trace|] == before.trace
  }

  /** A sequence of LED calls records each call, in order. */
  lemma {:induction false} DoAllTrace(env: Env, n: Node, ops: seq<LedAction>)
    ensures DoAll(env, n, ops).trace == n.trace + LedCalls(ops)
    decreases |ops|
  {
    if ops == [] {
      assert n.trace + LedCalls(ops) == n.trace;
    } else {
      var n1 := Do(env, n, ops[0]);
      DoAllTrace(env, n1, ops[1..]);
    }
  }

  /** A sequence of LED calls drives the LED through them in order, and changes nothing but the LED and the trace. */
  lemma {:induction false} DoAllLed(env: Env, n: Node, ops: seq<LedAction>)
    ensures var m := DoAll(env, n, ops);
      m.led == ApplyAll(env.respond, n.led, ops) && m.(led := n.led, trace := n.trace) == n
    decreases |ops|
  {
    if ops != [] {
      DoAllLed(env, Do(env, n, ops[0]), ops[1..]);
    }
  }

  /** A sequence of LED calls drives the LED through them in order and records each, nothing else. */
  lemma DoAllEffect(env: Env, n: Node, ops: seq<LedAction>)
    ensures DoAll(env, n, ops) == n.(led := ApplyAll(env.respond, n.led, ops), trace := n.trace + LedCalls(ops))
  {
    DoAllTrace(env, n, ops);
    DoAllLed(env, n, ops);
  }

  // ---------------------------------------------------------------------
  // MQTTcallback and publishStateRgbLED

  /** `publishStateRgbLED` makes exactly one publish, to the given topic, of what the LED reports, and changes nothing else. */
  lemma PublishStateEffect(n: Node, topic: string)
    ensures var m := PublishState(n, topic);
      && m.trace == n.trace + [Publish(topic, Status(StatusOf(n.led)))]
      && m.(trace := n.trace) == n
  {
  }

  /** A message on any topic but the LED command topic changes nothing and publishes nothing. */
  lemma UnknownTopicIgnored(env: Env, n: Node, topic: string, cmd: Command)
    requires topic != env.topics.commandLed
    ensures OnMessage(env, n, topic, cmd) == n
  {
  }

  /**
   * A message on the LED command topic makes the LED calls its payload asks
   * for, in order, then exactly one publish to the LED status topic of what
   * the LED reports after them; nothing but the LED and the trace changes.
   */
  lemma CommandAnswered(env: Env, n: Node, cmd: Command)
    ensures var m := OnMessage(env, n, env.topics.commandLed, cmd);
      && m.led == ApplyAll(env.respond, n.led, CommandOps(cmd))
      && m.trace == n.trace + LedCalls(CommandOps(cmd)) + [Publish(env.topics.statusLed, Status(StatusOf(m.led)))]
      && m.(led := n.led, trace := n.trace) == n
  {
    DoAllEffect(env, n, CommandOps(cmd));
  }

  /**
   * A message on the LED command topic in which the parser found none of the
   * keys (malformed JSON among them) makes no LED call but is still answered
   * with the LED's status.
   */
  lemma UnparsedCommandOnlyAnswers(env: Env, n: Node, text: string)
    requires text != Toggle
    ensures OnMessage(env, n, env.topics.commandLed, Command(text, None, None, None))
         == n.(trace := n.trace + [Publish(env.topics.statusLed, Status(StatusOf(n.led)))])
  {
    assert CommandOps(Command(text, None, None, None)) == [];
  }

  /**
   * With an LED that obeys its calls literally, the command
   * {"state":"ON","color":{"r":10,"g":20,"b":30}} turns the LED on in that
   * colour and the status published afterwards says exactly that.
   */
  lemma CommandScenario(env: Env, n: Node, text: string)
    requires env.respond == LiteralLed
    requires text != Toggle
    ensures var m := OnMessage(env, n, env.topics.commandLed, Command(text, Some("ON"), Some(Rgb(10, 20, 30)), None));
      && m.led == LedView(true, Rgb(10, 20, 30))
      && m.trace[|m.trace| - 1] == Publish(env.topics.statusLed, Status(StatusOn(Rgb(10, 20, 30))))
  {
    var cmd := Command(text, Some("ON"), Some(Rgb(10, 20, 30)), None);
    var ops := CommandOps(cmd);
    assert ops == [On, SetColor(Rgb(10, 20, 30))];
    CommandAnswered(env, n, cmd);
    assert ops[1..] == [SetColor(Rgb(10, 20, 30))];
    assert ApplyAll(LiteralLed, n.led, ops) == LedView(true, Rgb(10, 20, 30)) by {
      assert ApplyAll(LiteralLed, n.led, ops) == ApplyAll(LiteralLed, n.led.(on := true), ops[1..]);
      assert ApplyAll(LiteralLed, n.led.(on := true), ops[1..]) == ApplyAll(LiteralLed, LedView(true, Rgb(10, 20, 30)), []);
    }
  }

  // ---------------------------------------------------------------------
  // Button gestures

  /**
   * A short press commutes the LED, then publishes what the LED then reports
   * to the status topic and the same payload to the command topic, in that order.
   */
  lemma ShortPressEffect(env: Env, n: Node)
    ensures var m := OnShortPress(env, n);
      var s := Status(StatusOf(env.respond(n.led, Commute)));
      && m.led == env.respond(n.led, Commute)
      && m.trace == n.trace + [LedCall(Commute), Publish(env.topics.statusLed, s), Publish(env.topics.commandLed, s)]
      && m.(led := n.led, trace := n.trace) == n
  {
  }

  /**
   * With an LED that obeys its calls literally, the status a short press
   * publishes on the command topic, delivered back to the device, leaves the
   * reported status as it was and publishes it once more.
   */
  lemma ShortPressEchoIsHarmless(env: Env, n: Node)
    requires env.respond == LiteralLed
    ensures var m := OnShortPress(env, n);
      var echoed := OnMessage(env, m, env.topics.commandLed, EchoOf(StatusOf(m.led)));
      && StatusOf(echoed.led) == StatusOf(m.led)
      && echoed.trace[|echoed.trace| - 1] == Publish(env.topics.statusLed, Status(StatusOf(m.led)))
  {
    var m := OnShortPress(env, n);
    var cmd := EchoOf(StatusOf(m.led));
    CommandAnswered(env, m, cmd);
    EchoReproducesStatus(m.led, m.led);
  }

  /** A long press publishes "TOGGLE" to the button topic and does nothing else; in particular it makes no LED call. */
  lemma LongPressEffect(env: Env, n: Node)
    ensures OnLongPress(env, n) == n.(trace := n.trace + [Publish(env.topics.buttonToggle, Text(Toggle))])
  {
  }

  /** A very long press stops MQTT, disconnects the station and restarts, in that order. */
  lemma VeryLongPressEffect(n: Node)
    ensures var m := OnVeryLongPress(n);
      && m.trace == n.trace + [MqttStop, WifiStaDisconnect, EspRestart]
      && m == n.(mqttRunning := false, restartRequested := true, trace := m.trace)
  {
  }

  /**
   * An ultra-long press in access-point mode stops the web server, destroys
   * the access point and restarts; otherwise it stops MQTT, creates the access
   * point and starts the web server, and requests no restart.
   */
  lemma UltraLongPressEffect(n: Node)
    ensures var m := OnUltraLongPress(n);
      if n.apMode then
        && m.trace == n.trace + [WebServerStop, ApDestroy, EspRestart]
        && m == n.(webServerRunning := false, apMode := false, restartRequested := true, trace := m.trace)
      else
        && m.trace == n.trace + [MqttStop, ApCreate, WebServerStart]
        && m == n.(mqttRunning := false, apMode := true, webServerRunning := true, trace := m.trace)
  {
  }

  /**
   * Two ultra-long presses from normal operation: the first enters
   * configuration mode, the second leaves it and restarts.
   */
  lemma UltraLongPressTwice(n: Node)
    requires !n.apMode && !n.restartRequested
    ensures var a := OnUltraLongPress(n);
      var b := OnUltraLongPress(a);
      && a.apMode && a.webServerRunning && !a.mqttRunning && !a.restartRequested
      && !b.apMode && !b.webServerRunning && b.restartRequested
      && b.trace == n.trace + [MqttStop, ApCreate, WebServerStart, WebServerStop, ApDestroy, EspRestart]
  {
  }

  // ---------------------------------------------------------------------
  // webServerSubmitCallback

  /** Saving the settings listed in `keys` writes them to the store and records one call each, in order; nothing else changes. */
  lemma {:induction false} SaveAllEffect(n: Node, form: map<string, string>, keys: seq<Key>)
    ensures SaveAll(n, form, keys) == n.(store := WriteAll(n.store, form, keys), trace := n.trace + PersistCalls(form, keys))
    decreases |keys|
  {
    if keys != [] {
      var init := keys[..|keys| - 1];
      var last := Name(keys[|keys| - 1]);
      SaveAllEffect(n, form, init);
      assert n.trace + PersistCalls(form, init) + [Persist(last, FormField(form, last))]
          == n.trace + PersistCalls(form, keys);
    }
  }

  /** The entries for saving `keys` are, position by position, the save of that key from the form field of its name. */
  lemma {:induction false} PersistCallsAt(form: map<string, string>, keys: seq<Key>)
    ensures |PersistCalls(form, keys)| == |keys|
    ensures forall i :: 0 <= i < |keys| ==>
      PersistCalls(form, keys)[i] == Persist(Name(keys[i]), FormField(form, Name(keys[i])))
    decreases |keys|
  {
    if keys != [] {
      var init := keys[..|keys| - 1];
      PersistCallsAt(form, init);
      var r := PersistCalls(form, keys);
      forall i | 0 <= i < |keys|
        ensures r[i] == Persist(Name(keys[i]), FormField(form, Name(keys[i])))
      {
        if i < |init| {
          assert r[i] == PersistCalls(form, init)[i] && keys[i] == init[i];
        }
      }
    }
  }

  /** A submission writes the store a submission computes, requests a restart, and records its calls; nothing else changes. */
  lemma OnSubmitEffect(n: Node, form: map<string, string>)
    ensures OnSubmit(n, form) == n.(store := Stored(n.store, form), restartRequested := true, trace := n.trace + SubmitTrace(form))
  {
    SaveAllEffect(n, form, ConfigKeys);
    assert n.trace + PersistCalls(form, ConfigKeys) + [EspRestart] == n.trace + SubmitTrace(form);
  }

  /**
   * A submission requests a restart and records, in the listed order, one
   * save per setting from the form field of its name, then the restart; it
   * never saves under the firmware version or the hardware tag.
   */
  lemma SubmitEffect(n: Node, form: map<string, string>)
    ensures var m := OnSubmit(n, form);
      && TraceExtends(n, m) && m.restartRequested
      && |Emitted(n, m)| == |ConfigKeys| + 1 && Emitted(n, m)[|ConfigKeys|] == EspRestart
      && (forall i :: 0 <= i < |ConfigKeys| ==>
            Emitted(n, m)[i] == Persist(Name(ConfigKeys[i]), FormField(form, Name(ConfigKeys[i]))))
      && (forall a :: a in Emitted(n, m) && a.Persist? ==> a.key != FirmwareVersionKey && a.key != HardwareKey)
  {
    var m := OnSubmit(n, form);
    OnSubmitEffect(n, form);
    EmittedIs(n, m, SubmitTrace(form));
    PersistCallsAt(form, ConfigKeys);
    assert forall i :: 0 <= i < |ConfigKeys| ==> SubmitTrace(form)[i] == PersistCalls(form, ConfigKeys)[i];
    forall a | a in Emitted(n, m) && a.Persist?
      ensures a.key != FirmwareVersionKey && a.key != HardwareKey
    {
      var i :| 0 <= i < |Emitted(n, m)| && Emitted(n, m)[i] == a;
      NamesDistinct();
    }
  }

  /** After a submission every setting reads back as the form field of its name. */
  lemma SubmitStoresForm(n: Node, form: map<string, string>)
    ensures forall k :: Get(OnSubmit(n, form).store, Name(k)) == FormField(form, Name(k))
  {
    OnSubmitEffect(n, form);
    forall k ensures Get(OnSubmit(n, form).store, Name(k)) == FormField(form, Name(k)) {
      StoredSetting(n.store, form, k);
    }
  }

  /** Submitting the rendered form unchanged persists settings that load back to the current ones. */
  lemma SubmitRenderedFormRoundTrip(n: Node, s: Settings)
    ensures Load(OnSubmit(n, FormOf(WebServerData(s))).store) == s
  {
    OnSubmitEffect(n, FormOf(WebServerData(s)));
    ReprovisionRoundTrip(n.store, s);
  }

  // ---------------------------------------------------------------------
  // The main loop

  /** The calls a handler may make never include polling a service. */
  predicate IsServicePoll(a: Action) {
    a.ButtonPoll? || a.WifiPoll? || a.PirPoll? || a.MqttPoll? || a.UpdatePoll? || a.OtaHandle?
    || a.WebServerPoll? || a.WatchdogPoll? || a.LightSensorPoll?
  }

  /** The web server runs exactly in access-point mode, and MQTT is stopped there. */
  predicate Coherent(n: Node) {
    n.webServerRunning == n.apMode && (n.apMode ==> !n.mqttRunning)
  }

  /** Every gesture keeps the invariant. */
  lemma PressKeepsCoherent(env: Env, n: Node, p: Press)
    requires Coherent(n)
    ensures Coherent(OnPress(env, n, p))
  {
  }

  /** The access point, the web server and the MQTT client are as they were. */
  predicate SameModes(n: Node, m: Node) {
    m.apMode == n.apMode && m.webServerRunning == n.webServerRunning && m.mqttRunning == n.mqttRunning
  }

  /** What two appending transitions appended, one after the other. */
  lemma EmittedChain(a: Node, b: Node, c: Node)
    requires TraceExtends(a, b) && TraceExtends(b, c)
    ensures TraceExtends(a, c) && Emitted(a, c) == Emitted(a, b) + Emitted(b, c)
  {
    assert c.trace[..|a.trace|] == c.trace[..|b.trace|][..|a.trace|];
    assert c.trace[|a.trace|..] == c.trace[|a.trace|..|b.trace|] + c.trace[|b.trace|..];
  }

  /** What a transition appended, when its trace is the old one plus `e`. */
  lemma EmittedIs(n: Node, m: Node, e: seq<Action>)
    requires m.trace == n.trace + e
    ensures TraceExtends(n, m) && Emitted(n, m) == e
  {
  }

  /** LED calls are LED calls only. */
  lemma {:induction false} LedCallsQuiet(ops: seq<LedAction>)
    ensures forall a :: a in LedCalls(ops) ==> a.LedCall?
    decreases |ops|
  {
    if ops != [] {
      LedCallsQuiet(ops[1..]);
    }
  }

  /** The calls each gesture makes, as the four press handlers read. */
  function PressCalls(env: Env, n: Node, p: Press): seq<Action> {
    match p
    case Short =>
      var s := Status(StatusOf(env.respond(n.led, Commute)));
      [LedCall(Commute), Publish(env.topics.statusLed, s), Publish(env.topics.commandLed, s)]
    case Long => [Publish(env.topics.buttonToggle, Text(Toggle))]
    case VeryLong => [MqttStop, WifiStaDisconnect, EspRestart]
    case UltraLong =>
      if n.apMode then [WebServerStop, ApDestroy, EspRestart] else [MqttStop, ApCreate, WebServerStart]
  }

  /** A gesture makes exactly its calls and leaves the watchdog as it was. */
  lemma PressTrace(env: Env, n: Node, p: Press)
    ensures var m := OnPress(env, n, p);
      m.trace == n.trace + PressCalls(env, n, p) && m.watchdogArmed == n.watchdogArmed
  {
    match p {
      case Short => ShortPressEffect(env, n);
      case Long => LongPressEffect(env, n);
      case VeryLong => VeryLongPressEffect(n);
      case UltraLong => UltraLongPressEffect(n);
    }
  }

  /** No gesture polls a service. */
  lemma PressCallsQuiet(env: Env, n: Node, p: Press)
    ensures forall a :: a in PressCalls(env, n, p) ==> !IsServicePoll(a)
  {
    var c := PressCalls(env, n, p);
    forall a | a in c
      ensures !IsServicePoll(a)
    {
      var i :| 0 <= i < |c| && c[i] == a;
    }
  }

  /** A gesture handler polls no service and leaves the watchdog as it was. */
  lemma PressQuiet(env: Env, n: Node, p: Press)
    ensures var m := OnPress(env, n, p);
      && TraceExtends(n, m) && m.watchdogArmed == n.watchdogArmed
      && forall a :: a in Emitted(n, m) ==> !IsServicePoll(a)
  {
    PressTrace(env, n, p);
    EmittedIs(n, OnPress(env, n, p), PressCalls(env, n, p));
    PressCallsQuiet(env, n, p);
  }

  /** A message handler leaves the watchdog, the modes and any restart request as they were. */
  lemma MessageFrame(env: Env, n: Node, topic: string, cmd: Command)
    ensures var m := OnMessage(env, n, topic, cmd);
      && TraceExtends(n, m) && m.watchdogArmed == n.watchdogArmed && SameModes(n, m)
      && m.restartRequested == n.restartRequested
  {
    if topic == env.topics.commandLed {
      CommandAnswered(env, n, cmd);
    }
  }

  /** A message handler only drives the LED and publishes. */
  lemma MessageQuiet(env: Env, n: Node, topic: string, cmd: Command)
    ensures var m := OnMessage(env, n, topic, cmd);
      && TraceExtends(n, m) && forall a :: a in Emitted(n, m) ==> a.LedCall? || a.Publish?
  {
    var m := OnMessage(env, n, topic, cmd);
    if topic == env.topics.commandLed {
      var ops := CommandOps(cmd);
      var d := DoAll(env, n, ops);
      DoAllEffect(env, n, ops);
      EmittedIs(n, m, LedCalls(ops) + [Publish(env.topics.statusLed, Status(StatusOf(d.led)))]);
      LedCallsQuiet(ops);
    } else {
      EmittedIs(n, m, []);
    }
  }

  /** Handing over a dispatched message, if any, polls no service. */
  lemma DeliverQuiet(env: Env, n: Node, message: Option<(string, Command)>)
    ensures var d := Deliver(env, n, message);
      TraceExtends(n, d) && forall a :: a in Emitted(n, d) ==> a.LedCall? || a.Publish?
  {
    if message.Some? {
      MessageQuiet(env, n, message.value.0, message.value.1);
    } else {
      EmittedIs(n, n, []);
    }
  }

  /** None of the network services is polled in `e`. */
  predicate NoNetworkPolls(e: seq<Action>) {
    MqttPoll !in e && UpdatePoll !in e && OtaHandle !in e
  }

  /** The button step polls the button first, then runs at most a gesture handler, which leaves the watchdog alone. */
  lemma ButtonStepFrame(env: Env, n: Node, obs: TickInputs)
    ensures var b := ButtonStep(env, n, obs);
      && TraceExtends(n, b) && |Emitted(n, b)| > 0 && Emitted(n, b)[0] == ButtonPoll
      && b.watchdogArmed == n.watchdogArmed
      && (obs.press.None? ==> b == n.(trace := b.trace))
  {
    var polled := Emit(n, ButtonPoll);
    var b := ButtonStep(env, n, obs);
    EmittedIs(n, polled, [ButtonPoll]);
    if obs.press.Some? {
      PressQuiet(env, polled, obs.press.value);
    } else {
      EmittedIs(polled, b, []);
    }
    EmittedChain(n, polled, b);
  }

  /** The button step polls neither the network services nor the web server. */
  lemma ButtonStepPolls(env: Env, n: Node, obs: TickInputs)
    ensures var b := ButtonStep(env, n, obs);
      TraceExtends(n, b) && NoNetworkPolls(Emitted(n, b)) && WebServerPoll !in Emitted(n, b)
  {
    var polled := Emit(n, ButtonPoll);
    var b := ButtonStep(env, n, obs);
    EmittedIs(n, polled, [ButtonPoll]);
    if obs.press.Some? {
      PressQuiet(env, polled, obs.press.value);
    } else {
      EmittedIs(polled, b, []);
    }
    EmittedChain(n, polled, b);
  }

  /** The WiFi and PIR step changes nothing but the trace, and polls neither the network services nor the web server. */
  lemma SensorStepFacts(env: Env, n: Node, obs: TickInputs)
    ensures var s := SensorStep(env, n, obs);
      && TraceExtends(n, s) && s == n.(trace := s.trace)
      && NoNetworkPolls(Emitted(n, s)) && WebServerPoll !in Emitted(n, s)
  {
    var s := SensorStep(env, n, obs);
    match obs.motion {
      case None => EmittedIs(n, s, [WifiPoll, PirPoll]);
      case Some(rising) => EmittedIs(n, s, [WifiPoll, PirPoll, Publish(env.topics.statusMotion, Text(if rising then "ON" else "OFF"))]);
    }
  }

  /** The network step leaves the watchdog, the modes and any restart request as they were. */
  lemma NetworkStepFrame(env: Env, n: Node, obs: TickInputs)
    ensures var w := NetworkStep(env, n, obs);
      && TraceExtends(n, w) && w.watchdogArmed == n.watchdogArmed && SameModes(n, w)
      && w.restartRequested == n.restartRequested
  {
    var w := NetworkStep(env, n, obs);
    if obs.wifiConnected {
      var polled := Emit(n, MqttPoll);
      var delivered := Deliver(env, polled, obs.message);
      EmittedIs(n, polled, [MqttPoll]);
      if obs.message.Some? {
        MessageFrame(env, polled, obs.message.value.0, obs.message.value.1);
      } else {
        EmittedIs(polled, delivered, []);
      }
      EmittedIs(delivered, w, [UpdatePoll, OtaHandle]);
      EmittedChain(n, polled, delivered);
      EmittedChain(n, delivered, w);
    } else {
      EmittedIs(n, w, []);
    }
  }

  /** Calls that only drive the LED and publish, between the MQTT poll and the update and OTA polls. */
  lemma ServicedAround(e: seq<Action>)
    requires forall a :: a in e ==> a.LedCall? || a.Publish?
    ensures var x := [MqttPoll] + e + [UpdatePoll, OtaHandle];
      MqttPoll in x && UpdatePoll in x && OtaHandle in x && WebServerPoll !in x
  {
    var x := [MqttPoll] + e + [UpdatePoll, OtaHandle];
    assert x[0] == MqttPoll && x[|x| - 2] == UpdatePoll && x[|x| - 1] == OtaHandle;
  }

  /** The network step services MQTT, the update check and OTA exactly when the station link is up, and never the web server. */
  lemma NetworkStepPolls(env: Env, n: Node, obs: TickInputs)
    ensures var w := NetworkStep(env, n, obs);
      && TraceExtends(n, w)
      && (MqttPoll in Emitted(n, w) <==> obs.wifiConnected)
      && (UpdatePoll in Emitted(n, w) <==> obs.wifiConnected)
      && (OtaHandle in Emitted(n, w) <==> obs.wifiConnected)
      && WebServerPoll !in Emitted(n, w)
  {
    var w := NetworkStep(env, n, obs);
    if obs.wifiConnected {
      var polled := Emit(n, MqttPoll);
      var delivered := Deliver(env, polled, obs.message);
      EmittedIs(n, polled, [MqttPoll]);
      DeliverQuiet(env, polled, obs.message);
      EmittedIs(delivered, w, [UpdatePoll, OtaHandle]);
      EmittedChain(n, polled, delivered);
      EmittedChain(n, delivered, w);
      var e := Emitted(polled, delivered);
      assert Emitted(n, w) == [MqttPoll] + e + [UpdatePoll, OtaHandle];
      ServicedAround(e);
    } else {
      EmittedIs(n, w, []);
    }
  }

  /** The calls a submission makes poll no service. */
  lemma SubmitTraceQuiet(form: map<string, string>)
    ensures forall a :: a in SubmitTrace(form) ==> a.Persist? || a == EspRestart
  {
    var r := SubmitTrace(form);
    PersistCallsAt(form, ConfigKeys);
    forall a | a in r
      ensures a.Persist? || a == EspRestart
    {
      var i :| 0 <= i < |r| && r[i] == a;
      if i < |ConfigKeys| {
        assert r[i] == PersistCalls(form, ConfigKeys)[i];
      }
    }
  }

  /** A submission polls no service. */
  lemma SubmitQuiet(n: Node, form: map<string, string>)
    ensures var m := OnSubmit(n, form);
      TraceExtends(n, m) && NoNetworkPolls(Emitted(n, m)) && WebServerPoll !in Emitted(n, m)
  {
    OnSubmitEffect(n, form);
    EmittedIs(n, OnSubmit(n, form), SubmitTrace(form));
    SubmitTraceQuiet(form);
  }

  /** The web step leaves the watchdog and the modes as they were. */
  lemma WebStepFrame(n: Node, obs: TickInputs)
    ensures var v := WebStep(n, obs);
      TraceExtends(n, v) && v.watchdogArmed == n.watchdogArmed && SameModes(n, v)
  {
    var v := WebStep(n, obs);
    if n.apMode {
      var polled := Emit(n, WebServerPoll);
      EmittedIs(n, polled, [WebServerPoll]);
      match obs.form {
        case None => EmittedIs(polled, v, []);
        case Some(f) =>
          OnSubmitEffect(polled, f);
          EmittedIs(polled, v, SubmitTrace(f));
      }
      EmittedChain(n, polled, v);
    } else {
      EmittedIs(n, v, []);
    }
  }

  /** The web step services the web server exactly in access-point mode, and never the network services. */
  lemma WebStepPolls(n: Node, obs: TickInputs)
    ensures var v := WebStep(n, obs);
      && TraceExtends(n, v)
      && (WebServerPoll in Emitted(n, v) <==> n.apMode)
      && NoNetworkPolls(Emitted(n, v))
  {
    var v := WebStep(n, obs);
    if n.apMode {
      var polled := Emit(n, WebServerPoll);
      EmittedIs(n, polled, [WebServerPoll]);
      match obs.form {
        case None => EmittedIs(polled, v, []);
        case Some(f) => SubmitQuiet(polled, f);
      }
      EmittedChain(n, polled, v);
      var e := Emitted(polled, v);
      assert NoNetworkPolls(e);
      assert Emitted(n, v) == [WebServerPoll] + e;
    } else {
      EmittedIs(n, v, []);
    }
  }

  /**
   * The calls at the end of a pass, as the loop's closing lines read: the
   * watchdog poll; then a restart when an armed watchdog's deadline passed;
   * otherwise arming and feeding while MQTT is connected, else disarming and
   * a white LED in access-point mode, else nothing; then the LED and the light
   * sensor are serviced.
   */
  function ClosingCalls(n: Node, obs: TickInputs): seq<Action> {
    if obs.watchdogExpired && n.watchdogArmed then [WatchdogPoll, EspRestart]
    else if obs.mqttConnected then [WatchdogPoll, WatchdogInit, WatchdogFeed, LedCall(Refresh), LightSensorPoll]
    else if n.apMode then [WatchdogPoll, WatchdogDeinit, LedCall(SetColor(White)), LedCall(Refresh), LightSensorPoll]
    else [WatchdogPoll, LedCall(Refresh), LightSensorPoll]
  }

  /** The end of a pass makes exactly the closing calls. */
  lemma ClosingTrace(env: Env, n: Node, obs: TickInputs)
    ensures Closing(env, n, obs).trace == n.trace + ClosingCalls(n, obs)
  {
  }

  /**
   * The end of a pass restarts exactly when an armed watchdog's deadline
   * passed; otherwise the watchdog ends armed while MQTT is connected,
   * disarmed in access-point mode without MQTT, and as it was else. The
   * access point, the web server and the MQTT client are left alone.
   */
  lemma ClosingState(env: Env, n: Node, obs: TickInputs)
    ensures var t := Closing(env, n, obs);
      && SameModes(n, t)
      && t.restartRequested == (n.restartRequested || (obs.watchdogExpired && n.watchdogArmed))
      && (!(obs.watchdogExpired && n.watchdogArmed) ==>
            && (obs.mqttConnected ==> t.watchdogArmed)
            && (!obs.mqttConnected && n.apMode ==> !t.watchdogArmed)
            && (!obs.mqttConnected && !n.apMode ==> t.watchdogArmed == n.watchdogArmed))
  {
  }

  /** The closing calls poll neither the network services nor the web server. */
  lemma ClosingCallsPolls(n: Node, obs: TickInputs)
    ensures NoNetworkPolls(ClosingCalls(n, obs)) && WebServerPoll !in ClosingCalls(n, obs)
  {
    var c := ClosingCalls(n, obs);
    if !(obs.watchdogExpired && n.watchdogArmed) {
      forall a | a in c
        ensures a != MqttPoll && a != UpdatePoll && a != OtaHandle && a != WebServerPoll
      {
        var i :| 0 <= i < |c| && c[i] == a;
      }
    }
  }

  /** The end of a pass keeps the modes and polls neither the network services nor the web server. */
  lemma ClosingFacts(env: Env, n: Node, obs: TickInputs)
    ensures var t := Closing(env, n, obs);
      && TraceExtends(n, t) && SameModes(n, t)
      && NoNetworkPolls(Emitted(n, t)) && WebServerPoll !in Emitted(n, t)
  {
    ClosingTrace(env, n, obs);
    ClosingState(env, n, obs);
    EmittedIs(n, Closing(env, n, obs), ClosingCalls(n, obs));
    ClosingCallsPolls(n, obs);
  }

  /** One pass of the loop keeps the invariant. */
  lemma TickKeepsCoherent(env: Env, n: Node, obs: TickInputs)
    requires Coherent(n) && !n.restartRequested
    ensures Coherent(Tick(env, n, obs))
  {
    var b := ButtonStep(env, n, obs);
    ButtonStepFrame(env, n, obs);
    if obs.press.Some? {
      PressKeepsCoherent(env, Emit(n, ButtonPoll), obs.press.value);
    }
    if !b.restartRequested {
      var s := SensorStep(env, b, obs);
      var w := NetworkStep(env, s, obs);
      var v := WebStep(w, obs);
      SensorStepFacts(env, b, obs);
      NetworkStepFrame(env, s, obs);
      WebStepFrame(w, obs);
      if !v.restartRequested {
        ClosingFacts(env, v, obs);
      }
    }
  }

  /**
   * One pass of the loop polls the button first, and services MQTT, the
   * update check and OTA exactly while the station link is up, unless the
   * gesture of this pass restarted the device.
   */
  lemma TickNetworkServices(env: Env, n: Node, obs: TickInputs)
    requires !n.restartRequested
    ensures var t := Tick(env, n, obs);
      var b := ButtonStep(env, n, obs);
      && TraceExtends(n, t) && |Emitted(n, t)| > 0 && Emitted(n, t)[0] == ButtonPoll
      && (MqttPoll in Emitted(n, t) <==> obs.wifiConnected && !b.restartRequested)
      && (UpdatePoll in Emitted(n, t) <==> obs.wifiConnected && !b.restartRequested)
      && (OtaHandle in Emitted(n, t) <==> obs.wifiConnected && !b.restartRequested)
  {
    var t := Tick(env, n, obs);
    var b := ButtonStep(env, n, obs);
    ButtonStepFrame(env, n, obs);
    ButtonStepPolls(env, n, obs);
    if !b.restartRequested {
      var s := SensorStep(env, b, obs);
      var w := NetworkStep(env, s, obs);
      var v := WebStep(w, obs);
      SensorStepFacts(env, b, obs);
      NetworkStepPolls(env, s, obs);
      WebStepPolls(w, obs);
      EmittedChain(n, b, s);
      EmittedChain(n, s, w);
      EmittedChain(n, w, v);
      if !v.restartRequested {
        ClosingFacts(env, v, obs);
        EmittedChain(n, v, t);
      }
    }
  }

  /**
   * One pass of the loop services the web server exactly in access-point
   * mode, as it stands once the gesture of this pass has been handled, unless
   * that gesture restarted the device; the pass then ends in access-point mode.
   */
  lemma TickWebServices(env: Env, n: Node, obs: TickInputs)
    requires !n.restartRequested
    ensures var t := Tick(env, n, obs);
      var b := ButtonStep(env, n, obs);
      && TraceExtends(n, t)
      && (WebServerPoll in Emitted(n, t) <==> b.apMode && !b.restartRequested)
      && (WebServerPoll in Emitted(n, t) ==> t.apMode)
  {
    var t := Tick(env, n, obs);
    var b := ButtonStep(env, n, obs);
    ButtonStepPolls(env, n, obs);
    if !b.restartRequested {
      var s := SensorStep(env, b, obs);
      var w := NetworkStep(env, s, obs);
      var v := WebStep(w, obs);
      SensorStepFacts(env, b, obs);
      NetworkStepPolls(env, s, obs);
      NetworkStepFrame(env, s, obs);
      WebStepPolls(w, obs);
      WebStepFrame(w, obs);
      EmittedChain(n, b, s);
      EmittedChain(n, s, w);
      EmittedChain(n, w, v);
      if !v.restartRequested {
        ClosingFacts(env, v, obs);
        EmittedChain(n, v, t);
      }
    }
  }

  /**
   * The watchdog rule of one pass that does not restart: with MQTT connected
   * the watchdog ends armed, otherwise in access-point mode disarmed,
   * otherwise as it was.
   */
  lemma TickWatchdog(env: Env, n: Node, obs: TickInputs)
    requires !n.restartRequested
    ensures var t := Tick(env, n, obs);
      !t.restartRequested ==>
        && (obs.mqttConnected ==> t.watchdogArmed)
        && (!obs.mqttConnected && t.apMode ==> !t.watchdogArmed)
        && (!obs.mqttConnected && !t.apMode ==> t.watchdogArmed == n.watchdogArmed)
  {
    var b := ButtonStep(env, n, obs);
    ButtonStepFrame(env, n, obs);
    if !b.restartRequested {
      var s := SensorStep(env, b, obs);
      var w := NetworkStep(env, s, obs);
      var v := WebStep(w, obs);
      SensorStepFacts(env, b, obs);
      NetworkStepFrame(env, s, obs);
      WebStepFrame(w, obs);
      if !v.restartRequested {
        ClosingState(env, v, obs);
      }
    }
  }

  /** A watchdog that is armed and expires ends the pass with a restart request, whatever else happens in it. */
  lemma ExpiredWatchdogRestarts(env: Env, n: Node, obs: TickInputs)
    requires !n.restartRequested && n.watchdogArmed && obs.watchdogExpired
    ensures Tick(env, n, obs).restartRequested
  {
    var b := ButtonStep(env, n, obs);
    ButtonStepFrame(env, n, obs);
    if !b.restartRequested {
      var s := SensorStep(env, b, obs);
      var w := NetworkStep(env, s, obs);
      var v := WebStep(w, obs);
      SensorStepFacts(env, b, obs);
      NetworkStepFrame(env, s, obs);
      WebStepFrame(w, obs);
      if !v.restartRequested {
        ClosingState(env, v, obs);
      }
    }
  }
}
