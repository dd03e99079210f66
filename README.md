# pipersense sketch glue, in Dafny

pipersense is ESP8266 firmware for a multisensor. It combines a PIR motion sensor, a DHT22, a TEMT6000 light sensor, an RGB LED and a push button, and it talks to Home Assistant over MQTT. Its sketch, `src/main.cpp`, wires library singletons together. This project models the decision logic the sketch itself contains, around the calls it makes on those libraries.

- **Configuration** (`config.dfy`):
  - the twenty settings read from the persistent store into globals at boot;
  - the ordered list `getWebServerData` gives the configuration web server: twenty settings, then the firmware version and the hardware tag;
  - what `webServerSubmitCallback` writes back.
- **Topics** (`topics.dfy`):
  - the topic globals derived from the settings;
  - the five Home-Assistant discovery components `setup` registers.
- **LED** (`led.dfy`):
  - the status payload `publishStateRgbLED` builds, and its compact JSON text;
  - the LED calls `MQTTcallback` makes for a parsed command.
- **Glue** (`glue.dfy`): the sketch as a state machine over a value `Node`. A `Node` holds:
  - what the LED reports;
  - whether the access point is up;
  - whether the MQTT client and the web server are running;
  - whether the watchdog is armed;
  - whether a restart was requested;
  - the persisted store;
  - an append-only trace of every call made on a library or the platform.

  There is one function per callback and one, `Tick`, per pass of `loop`.
- **Device** (`device.dfy`): the sketch as a class `Sketch.Device`. Its fields are the state above. Its methods are the callbacks, in the source's order of calls, and each is proved to leave the object in the state the matching `Glue` function computes.
- **Properties** (`properties.dfy`): what the glue guarantees. This covers:
  - the exact calls of each handler, and their order;
  - "nothing else changes";
  - which services a pass polls and under which condition;
  - the watchdog rule;
  - the invariant that the web server runs exactly in access-point mode, with MQTT stopped there;
  - the configuration round trip through the web form.

The libraries' own behaviour is not modelled:
- A library call is recorded as an `Action` in the trace.
- How the LED driver reacts to a call is a parameter, `Env.respond`. Proofs that need a concrete driver take the reference `Led.LiteralLed` in their `requires`.
- What the libraries report during a pass are inputs (`Glue.TickInputs`):
  - the gesture the button driver classified;
  - the PIR edge;
  - whether the station link and the MQTT client are up;
  - the message MQTT delivered;
  - the form the web server received;
  - whether the watchdog's deadline passed.
- `ESP.restart()` never returns, so once a handler requests a restart, the rest of that pass is not modelled as running.

## Model

The `Glue` functions carry no contracts of their own: each `Sketch.Device` row below names the `Glue` function that specifies it, and the `Properties` rows state what those functions guarantee.

| member | source | states |
|---|---|---|
| Config.Load | src/main.cpp:62-90 | every configuration global holds the store's value under that setting's name, or the empty string when the key is missing |
| Config.NamesDistinct | src/main.cpp:62-90 | the twenty settings are stored under pairwise distinct names, none of them `firmware_version` or `hardware` |
| Config.WebServerData | src/main.cpp:93-188 | the exported list has exactly 22 pairs: the twenty settings, each under its own name with its global's value, in the fixed order, then `("firmware_version", "0.0.2")` and `("hardware", "nodemcuv2")` |
| Config.ExportedSettingNamesDiffer | src/main.cpp:93-176 | two settings at different positions of the exported list carry different names |
| Config.ExportedSettingNotReadOnly | src/main.cpp:93-188 | no setting entry of the exported list is named like one of the two read-only entries |
| Config.ExportNamesDistinct | src/main.cpp:93-188 | no two of the 22 exported pairs share a name |
| Config.WriteAllLookup | src/main.cpp:195-216 | after saving a list of settings from a form, a key is present exactly when it was before or names a saved setting; a saved name holds its form field (empty when the form lacks it), any other key keeps its old value |
| Config.StoredSetting | src/main.cpp:195-216 | after a submission every setting is present and holds the form field of its own name |
| Config.StoredOther | src/main.cpp:195-216 | a submission leaves every key that names no setting present or absent as before, with its old value |
| Config.ReprovisionRoundTrip | src/main.cpp:93-216 | submitting the exported list unchanged as the form stores values that load back into exactly the same settings |
| Config.SubmitKeepsIdentity | src/main.cpp:179-216 | a submission never writes `firmware_version` or `hardware` |
| Topics.Derive | src/main.cpp:81-90 | the four sensor topics are the sensors prefix followed by `/motion`, `/humidity`, `/temperature`, `/illuminance`; the LED command topic is the LED status topic followed by `/set`; the toggle topic is the setting itself |
| Topics.SensorTopicsDistinct | src/main.cpp:81-85 | the four sensor topics are pairwise distinct, whatever the prefix |
| Topics.CommandTopicIsNotStatusTopic | src/main.cpp:88-89 | the LED command topic differs from, and is strictly longer than, the LED status topic |
| Topics.DiscoveryMatchesTopics | src/main.cpp:418-455 | the five discovery components use the configured prefix and QoS 1; each advertises as its state topic the topic the sketch publishes that capability on; the light also advertises the command topic the sketch listens to |
| Led.StatusOf | src/main.cpp:229-241 | the status payload says ON exactly when the LED reports on, and then carries the LED's current colour; otherwise it is OFF with no colour |
| Led.StatusJson | src/main.cpp:226-243 | the published text opens with `{` and closes with `}`; what it says is tied to the payload by `Led.StatusJsonInjective` and `Led.StatusJsonExample` |
| Led.StatusJsonExample | src/main.cpp:229-243 | for an LED that is on with colour (10,20,30) the text is `{"state":"ON","color":{"r":10,"g":20,"b":30}}` |
| Led.DecimalValue | src/main.cpp:234-243 | a colour component is written as decimal digits that denote exactly that number |
| Led.DigitsSplit | src/main.cpp:233-243 | a run of digits followed by a separator splits off uniquely, so the number a component field holds can be read back from the text |
| Led.StatusJsonInjective | src/main.cpp:226-243 | different payloads are published as different texts: the text determines whether the LED is on and, when it is, each colour component |
| Led.CommandOps | src/main.cpp:258-300 | `TOGGLE` gives only a commute; otherwise `state` comes first (`ON` gives on, any other value off), then `color` sets the colour, with the transition seconds when `transition` is present; an absent key gives no call |
| Led.CommuteOnlyOnToggle | src/main.cpp:258-262 | a command commutes the LED exactly when its text is `TOGGLE`, and then makes no other call |
| Led.FadeIffTransition | src/main.cpp:284-296 | a fading colour change happens if and only if a JSON command carries both `color` and `transition` |
| Led.EchoCommandOps | src/main.cpp:221-300 | a status payload received back as a command switches the LED to that state, and to that colour when on, and makes no other call |
| Led.EchoReproducesStatus | src/main.cpp:221-300 | with a literal LED, a published status received back as a command reproduces that status from any LED state |
| Properties.PublishStateEffect | src/main.cpp:221-245 | `publishStateRgbLED` makes exactly one publish, to the given topic, of what the LED reports, and changes nothing else |
| Properties.UnknownTopicIgnored | src/main.cpp:258-307 | a message on any topic but the LED command topic changes nothing, makes no LED call and publishes nothing |
| Properties.CommandAnswered | src/main.cpp:258-303 | on the command topic, the LED calls the payload asks for are made in order, then exactly one status publish to the LED status topic of what the LED reports after them; nothing but the LED and the trace changes |
| Properties.UnparsedCommandOnlyAnswers | src/main.cpp:264-303 | a command in which the parser found no key makes no LED call and is still answered with the LED's status |
| Properties.CommandScenario | src/main.cpp:264-303 | with a literal LED, an ON command with colour (10,20,30) leaves the LED on in that colour, and the last publish reports exactly that |
| Properties.ShortPressEffect | src/main.cpp:310-316 | a short press commutes, then publishes the resulting status to the status topic and then to the command topic; only the LED and the trace change |
| Properties.ShortPressEchoIsHarmless | src/main.cpp:310-316 | with a literal LED, the status a short press publishes on the command topic, delivered back, leaves the reported status unchanged and publishes it again |
| Properties.LongPressEffect | src/main.cpp:318-322 | a long press publishes `TOGGLE` to the button topic and does nothing else, no LED call in particular |
| Properties.VeryLongPressEffect | src/main.cpp:324-330 | a very long press stops MQTT, disconnects the station and restarts, in that order, and changes nothing else |
| Properties.UltraLongPressEffect | src/main.cpp:332-349 | in access-point mode: stop the web server, destroy the access point, restart; otherwise: stop MQTT, create the access point, start the web server, with no restart; nothing else changes |
| Properties.UltraLongPressTwice | src/main.cpp:332-349 | two ultra-long presses from station mode enter configuration mode, then leave it with a restart, making those six calls |
| Properties.PressKeepsCoherent | src/main.cpp:310-349 | every gesture keeps "the web server runs exactly in access-point mode, and MQTT is stopped there" |
| Properties.PressTrace | src/main.cpp:310-349 | each gesture makes exactly its listed calls and leaves the watchdog as it was |
| Properties.PressQuiet | src/main.cpp:310-349 | no gesture handler polls a service |
| Properties.SaveAllEffect | src/main.cpp:195-216 | saving a list of settings writes each to the store and records one save per setting, in order; nothing else changes |
| Properties.PersistCallsAt | src/main.cpp:195-216 | the i-th recorded save is the i-th setting, saved under its name from the form field of the same name |
| Properties.OnSubmitEffect | src/main.cpp:190-219 | a submission changes exactly the store, the restart request and the trace |
| Properties.SubmitEffect | src/main.cpp:190-219 | a submission makes 21 calls: the twenty saves in the listed order, each from the field of the same name, then the restart; none saves `firmware_version` or `hardware` |
| Properties.SubmitStoresForm | src/main.cpp:195-216 | after a submission every setting reads back as the form field of its name, or as empty when the form lacks it |
| Properties.SubmitRenderedFormRoundTrip | src/main.cpp:93-219 | submitting the rendered list unchanged persists settings that load back into exactly the current ones |
| Properties.SubmitTraceQuiet | src/main.cpp:190-219 | a submission only saves and restarts |
| Properties.SubmitQuiet | src/main.cpp:190-219 | a submission polls no service |
| Properties.MessageFrame | src/main.cpp:253-308 | a message leaves the watchdog, the modes and any restart request as they were |
| Properties.MessageQuiet | src/main.cpp:253-308 | a message only drives the LED and publishes |
| Properties.DeliverQuiet | src/main.cpp:486 | handing over the message MQTT delivered only drives the LED and publishes |
| Properties.ButtonStepFrame | src/main.cpp:462-463 | a pass polls the button first; without a gesture nothing but the trace changes, and the watchdog is never touched |
| Properties.ButtonStepPolls | src/main.cpp:462-463 | the button step polls neither MQTT, the update check, OTA nor the web server |
| Properties.SensorStepFacts | src/main.cpp:465-469 | the WiFi and PIR polls, with a motion publish, change only the trace and poll no network service and not the web server |
| Properties.NetworkStepFrame | src/main.cpp:483-489 | the network step leaves the watchdog, the modes and any restart request as they were |
| Properties.NetworkStepPolls | src/main.cpp:483-489 | MQTT, the update check and OTA are each serviced exactly when the station link is up; the web server is not |
| Properties.WebStepFrame | src/main.cpp:491-495 | the web server step leaves the watchdog and the modes as they were |
| Properties.WebStepPolls | src/main.cpp:491-495 | the web server is serviced exactly in access-point mode, and no network service is |
| Properties.ClosingTrace | src/main.cpp:497-516 | the end of a pass makes exactly the closing calls: watchdog poll, then restart on an armed expiry, or else init and feed with MQTT up, deinit and white LED in access-point mode, or nothing; then LED refresh and light-sensor poll |
| Properties.ClosingState | src/main.cpp:497-516 | the end of a pass restarts exactly on an armed expiry; otherwise the watchdog ends armed with MQTT up, disarmed in access-point mode without MQTT, and as it was otherwise; the modes are unchanged |
| Properties.ClosingCallsPolls | src/main.cpp:497-516 | the closing calls poll no network service and not the web server |
| Properties.ClosingFacts | src/main.cpp:497-516 | the end of a pass keeps the modes and polls no network service and not the web server |
| Properties.TickKeepsCoherent | src/main.cpp:460-517 | one pass of `loop` keeps the access-point, web-server and MQTT invariant |
| Properties.TickNetworkServices | src/main.cpp:460-489 | a pass polls the button first and services MQTT, the update check and OTA exactly when the station link is up, unless that pass's gesture restarted the device |
| Properties.TickWebServices | src/main.cpp:460-495 | a pass services the web server exactly in access-point mode, as left by that pass's gesture, unless the gesture restarted; such a pass ends in access-point mode |
| Properties.TickWatchdog | src/main.cpp:497-510 | a pass that does not restart ends with the watchdog armed while MQTT is connected, disarmed in access-point mode without MQTT, and unchanged otherwise |
| Properties.ExpiredWatchdogRestarts | src/main.cpp:363-366 | an armed watchdog whose deadline passed ends the pass with a restart request |
| Sketch.Device.Setup | src/main.cpp:368-458 | boot reads the settings from the store, derives the topics, gives the web server the exported list, builds the discovery components, and connects the station and then starts MQTT; the device starts with the web server running exactly in access-point mode and MQTT stopped there (`Valid`) |
| Sketch.Device.PublishStateRgbLed | src/main.cpp:221-245 | the device follows `Glue.PublishState` |
| Sketch.Device.MqttCallback | src/main.cpp:253-308 | the device, with its nested branches, follows `Glue.OnMessage`: the command's LED calls, then the status publish |
| Sketch.Device.ShortPress | src/main.cpp:310-316 | the device follows `Glue.OnShortPress` |
| Sketch.Device.LongPress | src/main.cpp:318-322 | the device follows `Glue.OnLongPress` |
| Sketch.Device.VeryLongPress | src/main.cpp:324-330 | the device follows `Glue.OnVeryLongPress` |
| Sketch.Device.UltraLongPress | src/main.cpp:332-349 | the device follows `Glue.OnUltraLongPress` |
| Sketch.Device.MotionDetected | src/main.cpp:351-355 | publishes `ON` to the motion topic, as `Glue.OnMotion` |
| Sketch.Device.MotionNotDetected | src/main.cpp:357-361 | publishes `OFF` to the motion topic, as `Glue.OnMotion` |
| Sketch.Device.ConnectionWatchdogCallback | src/main.cpp:363-366 | the watchdog's callback requests a restart and records it |
| Sketch.Device.WebServerSubmit | src/main.cpp:190-219 | the twenty saves, then the restart, leave the device in the state `Glue.OnSubmit` computes |
| Sketch.Device.ServiceButton | src/main.cpp:462-463 | button poll and gesture dispatch follow `Glue.ButtonStep` |
| Sketch.Device.ServiceSensors | src/main.cpp:465-469 | WiFi and PIR polls and the motion publish follow `Glue.SensorStep` |
| Sketch.Device.ServiceNetwork | src/main.cpp:483-489 | the gated MQTT, update and OTA servicing follows `Glue.NetworkStep` |
| Sketch.Device.ServiceWebServer | src/main.cpp:491-495 | the gated web server servicing follows `Glue.WebStep` |
| Sketch.Device.ServiceWatchdogAndLed | src/main.cpp:497-516 | the watchdog poll and rule, LED refresh and light-sensor poll follow `Glue.Closing` |
| Sketch.Device.Loop | src/main.cpp:460-517 | one pass of `loop` leaves the device in the state `Glue.Tick` computes, so every `Tick` lemma above holds of it; the pass keeps `Valid` |

## Left out

- DHT humidity and temperature reads and publishes (`src/main.cpp:471-481`): these are floating-point sensor reads on a timer.
- TEMT6000 lux publishes and `onLuxChangeCallback` (`src/main.cpp:247-251`): also floating point. The light sensor's `loop()` is recorded as a poll only.
- ArduinoJson is not modelled. An inbound payload arrives as an already-parsed `Led.Command`:
  - its raw text;
  - the `state`, `color` and `transition` fields the parser found, already narrowed to `uint8_t`/`uint16_t`.

  Parsing, malformed-JSON handling inside the parser and numeric coercion belong to the library. The outbound payload is a `Led.LedStatus`. Its JSON text is given by `Led.StatusJson`, assuming compact serialisation in insertion order.
- Library behaviour: button debouncing and press thresholds, WiFi connection states, MQTT reconnection, subscription and discovery publishing, watchdog deadline arithmetic, update-server version checks, and the web server's HTTP handling. Each call the sketch makes on them is only an `Action` in the trace, and what they report is a `TickInputs` field.
- The LED driver's reaction to its calls is the parameter `Env.respond`. No claim is made that `commute()` flips the state.
- `Serial` logging, OTA internals, GPIO and pin setup, timer periods, and the compile-time hardware selection.
- `DataManager` is taken to be a string-to-string map. `get` on a missing key is taken to return the empty string, because its source is not part of this model.
- `TimeWatchdog` is taken to fire only while armed (`Glue.Closing` restarts on a passed deadline only when the watchdog is armed), and `connectionWatchdog.setup` (`src/main.cpp:408`) is taken to leave it unarmed (`Sketch.Device.Setup`), because its source is not part of this model.
- The order of calls inside `setup` before `startConnection` (button, LED, sensor, OTA, updater and watchdog setup) is not traced. Only its data (settings, topics, web-server list, discovery components) and the station connect followed by the MQTT start are modelled.
- Sketch.Device.WebServerSubmit: the source writes its twenty `dataManager.set` calls out one by one. The method makes the same calls in the same order, as a loop over the listed settings.
- Malformed JSON: what the parser makes of malformed text belongs to the library. The sketch answers a command from which no key is read with a status publish and no LED call (`Properties.UnparsedCommandOnlyAnswers`, `src/main.cpp:264-302`).
