/**
 * The MQTT topics the sketch derives from its settings at boot, and the
 * Home-Assistant discovery components it registers in `setup`.
 */
module Topics {
  import opened Base
  import opened Config

  const MotionSuffix: string := "/motion"
  const HumiditySuffix: string := "/humidity"
  const TemperatureSuffix: string := "/temperature"
  const IlluminanceSuffix: string := "/illuminance"
  const CommandSuffix: string := "/set"

  /** The topic globals: four sensor status topics, the LED's status and command topics, the button's toggle topic. */
  datatype Topics = Topics(
    statusMotion: string, statusHumidity: string, statusTemperature: string,
    statusIlluminance: string, statusLed: string, commandLed: string,
    buttonToggle: string)

  /** `s` starts with `prefix` and goes on with `suffix`. */
  predicate Extends(s: string, prefix: string, suffix: string) {
    |s| == |prefix| + |suffix| && s[..|prefix|] == prefix && s[|prefix|..] == suffix
  }

  /**
   * The topic globals: each sensor topic extends the sensors prefix by its own
   * suffix, the LED command topic extends the LED status topic by "/set", and
   * the toggle topic is the setting itself.
   */
  function Derive(s: Settings): (t: Topics)
    ensures Extends(t.statusMotion, s.mqttStatusSensors, MotionSuffix)
    ensures Extends(t.statusHumidity, s.mqttStatusSensors, HumiditySuffix)
    ensures Extends(t.statusTemperature, s.mqttStatusSensors, TemperatureSuffix)
    ensures Extends(t.statusIlluminance, s.mqttStatusSensors, IlluminanceSuffix)
    ensures t.statusLed == s.mqttStatusLed
    ensures Extends(t.commandLed, s.mqttStatusLed, CommandSuffix)
    ensures t.buttonToggle == s.mqttButtonToggle
  {
    var sensors := s.mqttStatusSensors;
    Topics(
      sensors + MotionSuffix, sensors + HumiditySuffix,
      sensors + TemperatureSuffix, sensors + IlluminanceSuffix,
      s.mqttStatusLed, s.mqttStatusLed + CommandSuffix,
      s.mqttButtonToggle)
  }

  /** Two extensions of one prefix are equal only if their suffixes are. */
  lemma {:induction false} ExtendsInjective(a: string, b: string, prefix: string, sa: string, sb: string)
    requires Extends(a, prefix, sa) && Extends(b, prefix, sb)
    requires sa != sb
    ensures a != b
  {
  }

  /** The four sensor topics are pairwise distinct, whatever the sensors prefix. */
  lemma SensorTopicsDistinct(s: Settings)
    ensures var t := Derive(s);
      && t.statusMotion != t.statusHumidity && t.statusMotion != t.statusTemperature
      && t.statusMotion != t.statusIlluminance && t.statusHumidity != t.statusTemperature
      && t.statusHumidity != t.statusIlluminance && t.statusTemperature != t.statusIlluminance
  {
    var t, p := Derive(s), s.mqttStatusSensors;
    ExtendsInjective(t.statusMotion, t.statusHumidity, p, MotionSuffix, HumiditySuffix);
    ExtendsInjective(t.statusMotion, t.statusTemperature, p, MotionSuffix, TemperatureSuffix);
    ExtendsInjective(t.statusMotion, t.statusIlluminance, p, MotionSuffix, IlluminanceSuffix);
    ExtendsInjective(t.statusHumidity, t.statusTemperature, p, HumiditySuffix, TemperatureSuffix);
    ExtendsInjective(t.statusHumidity, t.statusIlluminance, p, HumiditySuffix, IlluminanceSuffix);
    ExtendsInjective(t.statusTemperature, t.statusIlluminance, p, TemperatureSuffix, IlluminanceSuffix);
  }

  /**
   * The LED command topic is never the LED status topic, so the device's own
   * status publishes on the status topic are never taken for commands.
   */
  lemma CommandTopicIsNotStatusTopic(s: Settings)
    ensures Derive(s).commandLed != Derive(s).statusLed
    ensures |Derive(s).statusLed| < |Derive(s).commandLed|
  {
  }

  /** One Home-Assistant discovery component: its kind, its friendly name, its prefix and its configuration entries, in order. */
  datatype Discovery = Discovery(component: string, name: string, prefix: string, config: seq<(string, string)>)

  /** The five discovery components `setup` registers, in registration order. */
  function DiscoveryComponents(s: Settings): seq<Discovery> {
    var t := Derive(s);
    [ Discovery("binary_sensor", s.motionName, s.discoveryPrefix,
        [("device_class", "motion"), ("state_topic", t.statusMotion), ("qos", "1")]),
      Discovery("sensor", s.humidityName, s.discoveryPrefix,
        [("state_topic", t.statusHumidity), ("qos", "1"), ("unit_of_measurement", "%")]),
      Discovery("sensor", s.temperatureName, s.discoveryPrefix,
        [("state_topic", t.statusTemperature), ("qos", "1"), ("unit_of_measurement", "ºC")]),
      Discovery("sensor", s.illuminanceName, s.discoveryPrefix,
        [("state_topic", t.statusIlluminance), ("qos", "1"), ("unit_of_measurement", "lx")]),
      Discovery("light", s.ledName, s.discoveryPrefix,
        [("platform", "mqtt_json"), ("command_topic", t.commandLed), ("state_topic", t.statusLed),
         ("rgb", "true"), ("qos", "1"), ("retain", "true")]) ]
  }

  /**
   * Every discovery component is announced under the configured discovery
   * prefix with quality of service 1, and advertises as its state topic the
   * topic the sketch publishes that capability on; the light also advertises
   * the LED command topic the sketch listens to.
   */
  lemma DiscoveryMatchesTopics(s: Settings)
    ensures var d, t := DiscoveryComponents(s), Derive(s);
      && |d| == 5
      && (forall i :: 0 <= i < |d| ==> d[i].prefix == s.discoveryPrefix && ("qos", "1") in d[i].config)
      && ("state_topic", t.statusMotion) in d[0].config
      && ("state_topic", t.statusHumidity) in d[1].config
      && ("state_topic", t.statusTemperature) in d[2].config
      && ("state_topic", t.statusIlluminance) in d[3].config
      && ("state_topic", t.statusLed) in d[4].config
      && ("command_topic", t.commandLed) in d[4].config
  {
  }
}
