/**
 * The sketch itself, as an object whose fields the callbacks update in place:
 * the configuration globals read at boot, what the LED reports, the state of
 * the access point, the MQTT client, the web server and the watchdog, the
 * persisted store, and the calls made so far. Every callback and one pass of
 * `loop` are proved to leave the object in the state the corresponding
 * function of `Glue` computes, so the lemmas of `Properties` hold of it.
 */
module Sketch {
  import opened Base
  import opened Config
  import opened Topics
  import opened Led
  import opened Glue
  import opened Properties

  class Device {
    /** The topic globals and the LED driver's reaction to a call. */
    const env: Env
    /** The configuration globals, read from the store at boot. */
    const settings: Settings
    /** What the configuration web server was given to render. */
    const webData: seq<(string, string)>
    /** The Home-Assistant discovery components registered at boot. */
    const discovery: seq<Discovery>

    var led: LedView
    var apMode: bool
    var mqttRunning: bool
    var webServerRunning: bool
    var watchdogArmed: bool
    var restartRequested: bool
    var store: map<string, string>
    var trace: seq<Action>

    /** The device's state as a value. */
    function State(): Node
      reads this
    {
      Node(led, apMode, mqttRunning, webServerRunning, watchdogArmed, restartRequested, store, trace)
    }

    /** From boot on, the web server runs exactly in access-point mode, and MQTT is stopped there. */
    ghost predicate Valid()
      reads this
    {
      Coherent(State())
    }

    /**
     * `setup`: the globals are read from the store, the topics derived from
     * them, the web server given the rendered settings, the discovery
     * components built; the station link is brought up, then MQTT started.
     */
    constructor Setup(store0: map<string, string>, respond: (LedView, LedAction) -> LedView, led0: LedView)
      ensures settings == Load(store0)
      ensures env == Env(Derive(settings), respond)
      ensures webData == WebServerData(settings)
      ensures discovery == DiscoveryComponents(settings)
      ensures State() == Node(led0, false, true, false, false, false, store0, [WifiStaConnect, MqttStart])
      ensures Valid()
    {
      var s := Load(store0);
      settings := s;
      env := Env(Derive(s), respond);
      webData := WebServerData(s);
      discovery := DiscoveryComponents(s);
      led := led0;
      apMode := false;
      mqttRunning := true;
      webServerRunning := false;
      watchdogArmed := false;
      restartRequested := false;
      store := store0;
      trace := [WifiStaConnect, MqttStart];
    }

    // -------------------------------------------------------------------
    // Calls on the library singletons and the platform.

    method Record(a: Action)
      modifies this
      ensures State() == Emit(old(State()), a)
    {
      trace := trace + [a];
    }

    method LedDo(op: LedAction)
      modifies this
      ensures State() == Do(env, old(State()), op)
    {
      led := env.respond(led, op);
      trace := trace + [LedCall(op)];
    }

    method PublishMqtt(topic: string, payload: Payload)
      modifies this
      ensures State() == Send(old(State()), topic, payload)
    {
      trace := trace + [Action.Publish(topic, payload)];
    }

    method DataSet(key: string, value: string)
      modifies this
      ensures State() == Save(old(State()), key, value)
    {
      store := store[key := value];
      trace := trace + [Action.Persist(key, value)];
    }

    method StopConnection()
      modifies this
      ensures State() == StopMqtt(old(State()))
    {
      mqttRunning := false;
      trace := trace + [MqttStop];
    }

    method CreateApWifi()
      modifies this
      ensures State() == CreateAp(old(State()))
    {
      apMode := true;
      trace := trace + [ApCreate];
    }

    method DestroyApWifi()
      modifies this
      ensures State() == DestroyAp(old(State()))
    {
      apMode := false;
      trace := trace + [ApDestroy];
    }

    method StartWebServerCall()
      modifies this
      ensures State() == StartWebServer(old(State()))
    {
      webServerRunning := true;
      trace := trace + [WebServerStart];
    }

    method StopWebServerCall()
      modifies this
      ensures State() == StopWebServer(old(State()))
    {
      webServerRunning := false;
      trace := trace + [WebServerStop];
    }

    method EspRestartCall()
      modifies this
      ensures State() == Restart(old(State()))
    {
      restartRequested := true;
      trace := trace + [EspRestart];
    }

    method WatchdogInitCall()
      modifies this
      ensures State() == ArmWatchdog(old(State()))
    {
      watchdogArmed := true;
      trace := trace + [WatchdogInit];
    }

    method WatchdogDeinitCall()
      modifies this
      ensures State() == DisarmWatchdog(old(State()))
    {
      watchdogArmed := false;
      trace := trace + [WatchdogDeinit];
    }

    // -------------------------------------------------------------------
    // The sketch's callbacks.

    /** `publishStateRgbLED`: publish the state, and the colour when on, of the LED. */
    method PublishStateRgbLed(topic: string)
      modifies this
      ensures State() == PublishState(old(State()), topic)
    {
      var status := if led.on then StatusOn(led.color) else StatusOff;
      PublishMqtt(topic, Status(status));
    }

    /** `MQTTcallback`. */
    method MqttCallback(topic: string, cmd: Command)
      modifies this
      ensures State() == OnMessage(env, old(State()), topic, cmd)
    {
      if topic == env.topics.commandLed {
        ghost var n := State();
        if cmd.text == Toggle {
          LedDo(Commute);
          assert State() == DoAll(env, n, [Commute]);
        } else {
          var stateOps: seq<LedAction> := [];
          if cmd.state.Some? {
            if cmd.state.value == "ON" {
              LedDo(On);
              stateOps := [On];
            } else {
              LedDo(Off);
              stateOps := [Off];
            }
          }
          assert State() == DoAll(env, n, stateOps);
          ghost var m := State();
          if cmd.color.Some? {
            var rgb := cmd.color.value;
            if cmd.transition.Some? {
              LedDo(SetColorOver(rgb, cmd.transition.value));
              DoAllOne(env, m, SetColorOver(rgb, cmd.transition.value));
              DoAllAppend(env, n, stateOps, [SetColorOver(rgb, cmd.transition.value)]);
            } else {
              LedDo(SetColor(rgb));
              DoAllOne(env, m, SetColor(rgb));
              DoAllAppend(env, n, stateOps, [SetColor(rgb)]);
            }
          } else {
            assert stateOps + [] == stateOps;
          }
        }
        PublishStateRgbLed(env.topics.statusLed);
      }
    }

    method ShortPress()
      modifies this
      ensures State() == OnShortPress(env, old(State()))
    {
      LedDo(Commute);
      PublishStateRgbLed(env.topics.statusLed);
      PublishStateRgbLed(env.topics.commandLed);
    }

    method LongPress()
      modifies this
      ensures State() == OnLongPress(env, old(State()))
    {
      PublishMqtt(env.topics.buttonToggle, Text(Toggle));
    }

    method VeryLongPress()
      modifies this
      ensures State() == OnVeryLongPress(old(State()))
    {
      StopConnection();
      Record(WifiStaDisconnect);
      EspRestartCall();
    }

    method UltraLongPress()
      modifies this
      ensures State() == OnUltraLongPress(old(State()))
    {
      if apMode {
        StopWebServerCall();
        DestroyApWifi();
        EspRestartCall();
      } else {
        StopConnection();
        CreateApWifi();
        StartWebServerCall();
      }
    }

    method MotionDetected()
      modifies this
      ensures State() == OnMotion(env, old(State()), true)
    {
      PublishMqtt(env.topics.statusMotion, Text("ON"));
    }

    method MotionNotDetected()
      modifies this
      ensures State() == OnMotion(env, old(State()), false)
    {
      PublishMqtt(env.topics.statusMotion, Text("OFF"));
    }

    /** `connectionWatchdogCallback`. */
    method ConnectionWatchdogCallback()
      modifies this
      ensures State() == Restart(old(State()))
    {
      EspRestartCall();
    }

    /** `webServerSubmitCallback`: the twenty settings saved in the listed order, then a restart. */
    method WebServerSubmit(form: map<string, string>)
      modifies this
      ensures State() == OnSubmit(old(State()), form)
    {
      ghost var n := State();
      for i := 0 to |ConfigKeys|
        invariant State() == SaveAll(n, form, ConfigKeys[..i])
      {
        var key := Name(ConfigKeys[i]);
        DataSet(key, FormField(form, key));
        assert ConfigKeys[..i + 1][..i] == ConfigKeys[..i];
      }
      assert ConfigKeys[..|ConfigKeys|] == ConfigKeys;
      EspRestartCall();
    }

    /** One pass of `loop`: the button, the sensors, the network services, the web server, then the watchdog and the LED. */
    method Loop(obs: TickInputs)
      requires Valid() && !restartRequested
      modifies this
      ensures State() == Tick(env, old(State()), obs)
      ensures Valid()
    {
      TickKeepsCoherent(env, State(), obs);
      ServiceButton(obs);
      if restartRequested {
        return;
      }
      ServiceSensors(obs);
      ServiceNetwork(obs);
      ServiceWebServer(obs);
      if restartRequested {
        return;
      }
      ServiceWatchdogAndLed(obs);
    }

    /** The button is polled and the gesture it reports is handled. */
    method ServiceButton(obs: TickInputs)
      modifies this
      ensures State() == ButtonStep(env, old(State()), obs)
    {
      Record(ButtonPoll);
      match obs.press {
        case None =>
        case Some(Short) => ShortPress();
        case Some(Long) => LongPress();
        case Some(VeryLong) => VeryLongPress();
        case Some(UltraLong) => UltraLongPress();
      }
    }

    /** The Wi-Fi manager and the motion sensor are polled; a change of motion is published. */
    method ServiceSensors(obs: TickInputs)
      modifies this
      ensures State() == SensorStep(env, old(State()), obs)
    {
      Record(WifiPoll);
      Record(PirPoll);
      match obs.motion {
        case None =>
        case Some(true) => MotionDetected();
        case Some(false) => MotionNotDetected();
      }
    }

    /** Only with the station link up: MQTT is polled, delivering at most one message, then the updater and OTA. */
    method ServiceNetwork(obs: TickInputs)
      modifies this
      ensures State() == NetworkStep(env, old(State()), obs)
    {
      if obs.wifiConnected {
        Record(MqttPoll);
        if obs.message.Some? {
          MqttCallback(obs.message.value.0, obs.message.value.1);
        }
        Record(UpdatePoll);
        Record(OtaHandle);
      }
    }

    /** Only in access-point mode: the web server is polled, handling at most one submitted form. */
    method ServiceWebServer(obs: TickInputs)
      modifies this
      ensures State() == WebStep(old(State()), obs)
    {
      if apMode {
        Record(WebServerPoll);
        if obs.form.Some? {
          WebServerSubmit(obs.form.value);
        }
      }
    }

    /** The watchdog is polled and restarts the device when it expired armed; otherwise it is armed and fed or disarmed, and the LED refreshed. */
    method ServiceWatchdogAndLed(obs: TickInputs)
      modifies this
      ensures State() == Closing(env, old(State()), obs)
    {
      Record(WatchdogPoll);
      if obs.watchdogExpired && watchdogArmed {
        ConnectionWatchdogCallback();
        return;
      }
      if obs.mqttConnected {
        WatchdogInitCall();
        Record(WatchdogFeed);
      } else if apMode {
        WatchdogDeinitCall();
        LedDo(SetColor(White));
      }
      LedDo(Refresh);
      Record(LightSensorPoll);
    }
  }

  /** Driving the LED through one call is `Do`. */
  lemma DoAllOne(env: Env, n: Node, op: LedAction)
    ensures DoAll(env, n, [op]) == Do(env, n, op)
  {
    assert [op][1..] == [];
  }

  /** Driving the LED through two runs of calls is driving it through the first, then the second. */
  lemma {:induction false} DoAllAppend(env: Env, n: Node, a: seq<LedAction>, b: seq<LedAction>)
    ensures DoAll(env, n, a + b) == DoAll(env, DoAll(env, n, a), b)
    decreases |a|
  {
    if a != [] {
      assert (a + b)[0] == a[0] && (a + b)[1..] == a[1..] + b;
      DoAllAppend(env, Do(env, n, a[0]), a[1..], b);
    } else {
      assert a + b == b;
    }
  }
}
