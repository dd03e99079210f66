/**
 * The device configuration: the twenty settings the sketch reads from the
 * persistent key/value store at boot, the ordered list it hands to the
 * configuration web server, and what a form submission writes back.
 */
module Config {

  const FirmwareVersion: string := "0.0.2"
  /** The hardware tag of the NodeMCU v2 build, the only board the sketch defines. */
  const Hardware: string := "nodemcuv2"

  /** The twenty persisted settings. */
  datatype Key =
    | WifiSsid
    | WifiPassword
    | Ip
    | Mask
    | Gateway
    | OtaServer
    | MqttServer
    | MqttPort
    | MqttUsername
    | MqttPassword
    | DeviceName
    | DiscoveryPrefix
    | MotionName
    | HumidityName
    | TemperatureName
    | IlluminanceName
    | MqttStatusSensors
    | LedName
    | MqttStatusLed
    | MqttButtonToggle

  /** The name a setting is stored and submitted under. */
  function Name(k: Key): string {
    match k
    case WifiSsid => "wifi_ssid"
    case WifiPassword => "wifi_password"
    case Ip => "ip"
    case Mask => "mask"
    case Gateway => "gateway"
    case OtaServer => "ota_server"
    case MqttServer => "mqtt_server"
    case MqttPort => "mqtt_port"
    case MqttUsername => "mqtt_username"
    case MqttPassword => "mqtt_password"
    case DeviceName => "device_name"
    case DiscoveryPrefix => "discovery_prefix"
    case MotionName => "motion_name"
    case HumidityName => "humidity_name"
    case TemperatureName => "temperature_name"
    case IlluminanceName => "illuminance_name"
    case MqttStatusSensors => "mqtt_status_sensors"
    case LedName => "led_name"
    case MqttStatusLed => "mqtt_status_led"
    case MqttButtonToggle => "mqtt_button_toggle"
  }

  /** The settings in the order the sketch lists them, both when exporting and when saving. */
  const ConfigKeys: seq<Key> := [
    WifiSsid, WifiPassword, Ip, Mask, Gateway, OtaServer,
    MqttServer, MqttPort, MqttUsername, MqttPassword,
    DeviceName, DiscoveryPrefix, MotionName, HumidityName,
    TemperatureName, IlluminanceName, MqttStatusSensors,
    LedName, MqttStatusLed, MqttButtonToggle]

  /** Where setting `k` stands in `ConfigKeys`. */
  function Index(k: Key): (i: nat)
    ensures i < |ConfigKeys| && ConfigKeys[i] == k
  {
    match k
    case WifiSsid => 0
    case WifiPassword => 1
    case Ip => 2
    case Mask => 3
    case Gateway => 4
    case OtaServer => 5
    case MqttServer => 6
    case MqttPort => 7
    case MqttUsername => 8
    case MqttPassword => 9
    case DeviceName => 10
    case DiscoveryPrefix => 11
    case MotionName => 12
    case HumidityName => 13
    case TemperatureName => 14
    case IlluminanceName => 15
    case MqttStatusSensors => 16
    case LedName => 17
    case MqttStatusLed => 18
    case MqttButtonToggle => 19
  }

  /** `Index` inverts the listing. */
  lemma IndexOfPosition(i: nat)
    requires i < |ConfigKeys|
    ensures Index(ConfigKeys[i]) == i
  {
  }

  /** The names of the settings listed in `keys`. */
  function NamesOf(keys: seq<Key>): set<string> {
    set k | k in keys :: Name(k)
  }

  /** The names of all twenty settings. */
  const SettingNames: set<string> := NamesOf(ConfigKeys)

  /** The two read-only entries that close the exported list. */
  const FirmwareVersionKey: string := "firmware_version"
  const HardwareKey: string := "hardware"

  /** The values of the configuration globals, one field per persisted key. */
  datatype Settings = Settings(
    wifiSsid: string, wifiPassword: string, ip: string, mask: string,
    gateway: string, otaServer: string,
    mqttServer: string, mqttPort: string, mqttUsername: string, mqttPassword: string,
    deviceName: string, discoveryPrefix: string, motionName: string,
    humidityName: string, temperatureName: string, illuminanceName: string,
    mqttStatusSensors: string, ledName: string, mqttStatusLed: string,
    mqttButtonToggle: string)

  /** The global that holds setting `k`. */
  function Setting(s: Settings, k: Key): string {
    match k
    case WifiSsid => s.wifiSsid
    case WifiPassword => s.wifiPassword
    case Ip => s.ip
    case Mask => s.mask
    case Gateway => s.gateway
    case OtaServer => s.otaServer
    case MqttServer => s.mqttServer
    case MqttPort => s.mqttPort
    case MqttUsername => s.mqttUsername
    case MqttPassword => s.mqttPassword
    case DeviceName => s.deviceName
    case DiscoveryPrefix => s.discoveryPrefix
    case MotionName => s.motionName
    case HumidityName => s.humidityName
    case TemperatureName => s.temperatureName
    case IlluminanceName => s.illuminanceName
    case MqttStatusSensors => s.mqttStatusSensors
    case LedName => s.ledName
    case MqttStatusLed => s.mqttStatusLed
    case MqttButtonToggle => s.mqttButtonToggle
  }

  /** Two settings records that agree on every key are equal. */
  lemma SettingsEqual(a: Settings, b: Settings)
    requires forall k :: Setting(a, k) == Setting(b, k)
    ensures a == b
  {
    assert Setting(a, WifiSsid) == Setting(b, WifiSsid);
    assert Setting(a, WifiPassword) == Setting(b, WifiPassword);
    assert Setting(a, Ip) == Setting(b, Ip);
    assert Setting(a, Mask) == Setting(b, Mask);
    assert Setting(a, Gateway) == Setting(b, Gateway);
    assert Setting(a, OtaServer) == Setting(b, OtaServer);
    assert Setting(a, MqttServer) == Setting(b, MqttServer);
    assert Setting(a, MqttPort) == Setting(b, MqttPort);
    assert Setting(a, MqttUsername) == Setting(b, MqttUsername);
    assert Setting(a, MqttPassword) == Setting(b, MqttPassword);
    assert Setting(a, DeviceName) == Setting(b, DeviceName);
    assert Setting(a, DiscoveryPrefix) == Setting(b, DiscoveryPrefix);
    assert Setting(a, MotionName) == Setting(b, MotionName);
    assert Setting(a, HumidityName) == Setting(b, HumidityName);
    assert Setting(a, TemperatureName) == Setting(b, TemperatureName);
    assert Setting(a, IlluminanceName) == Setting(b, IlluminanceName);
    assert Setting(a, MqttStatusSensors) == Setting(b, MqttStatusSensors);
    assert Setting(a, LedName) == Setting(b, LedName);
    assert Setting(a, MqttStatusLed) == Setting(b, MqttStatusLed);
    assert Setting(a, MqttButtonToggle) == Setting(b, MqttButtonToggle);
  }

  /** Distinct settings are stored under distinct names, none of them a read-only entry's. */
  lemma NamesDistinct()
    ensures forall k, k' :: k != k' ==> Name(k) != Name(k')
    ensures forall k :: Name(k) != FirmwareVersionKey && Name(k) != HardwareKey
  {
    forall k, k' | k != k' ensures Name(k) != Name(k') {
      assert |Name(k)| != |Name(k')| || Name(k)[0] != Name(k')[0] || Name(k) != Name(k');
    }
  }

  /** The persistent store's lookup; a key never written reads as the empty string. */
  function Get(store: map<string, string>, key: string): string {
    if key in store then store[key] else ""
  }

  /** The settings record holding `f(k)` under every key `k`. */
  function Build(f: Key -> string): (s: Settings)
    ensures forall k :: Setting(s, k) == f(k)
  {
    Settings(
      f(WifiSsid), f(WifiPassword), f(Ip), f(Mask), f(Gateway), f(OtaServer),
      f(MqttServer), f(MqttPort), f(MqttUsername), f(MqttPassword),
      f(DeviceName), f(DiscoveryPrefix), f(MotionName), f(HumidityName),
      f(TemperatureName), f(IlluminanceName), f(MqttStatusSensors), f(LedName),
      f(MqttStatusLed), f(MqttButtonToggle))
  }

  /** The configuration globals as initialised from the store at boot: each one read under its key, empty when the key is missing. */
  function Load(store: map<string, string>): (s: Settings)
    ensures forall k :: Setting(s, k) == Get(store, Name(k))
  {
    Build(k => Get(store, Name(k)))
  }

  /**
   * The list the configuration web server renders: every setting under its
   * own name, in the order of `ConfigKeys`, then the firmware version and the
   * hardware tag.
   */
  function WebServerData(s: Settings): (r: seq<(string, string)>)
    ensures |r| == |ConfigKeys| + 2
    ensures forall i :: 0 <= i < |ConfigKeys| ==> r[i] == (Name(ConfigKeys[i]), Setting(s, ConfigKeys[i]))
    ensures r[|ConfigKeys|] == (FirmwareVersionKey, FirmwareVersion)
    ensures r[|ConfigKeys| + 1] == (HardwareKey, Hardware)
  {
    [(Name(WifiSsid), s.wifiSsid),
     (Name(WifiPassword), s.wifiPassword),
     (Name(Ip), s.ip),
     (Name(Mask), s.mask),
     (Name(Gateway), s.gateway),
     (Name(OtaServer), s.otaServer),
     (Name(MqttServer), s.mqttServer),
     (Name(MqttPort), s.mqttPort),
     (Name(MqttUsername), s.mqttUsername),
     (Name(MqttPassword), s.mqttPassword),
     (Name(DeviceName), s.deviceName),
     (Name(DiscoveryPrefix), s.discoveryPrefix),
     (Name(MotionName), s.motionName),
     (Name(HumidityName), s.humidityName),
     (Name(TemperatureName), s.temperatureName),
     (Name(IlluminanceName), s.illuminanceName),
     (Name(MqttStatusSensors), s.mqttStatusSensors),
     (Name(LedName), s.ledName),
     (Name(MqttStatusLed), s.mqttStatusLed),
     (Name(MqttButtonToggle), s.mqttButtonToggle),
     (FirmwareVersionKey, FirmwareVersion), (HardwareKey, Hardware)]
  }

  /**
   * A field of the submitted form, read with the map's subscript operator:
   * a field the form lacks reads as the empty string.
   */
  function FormField(form: map<string, string>, key: string): string {
    if key in form then form[key] else ""
  }

  /** The store after the settings listed in `keys` were written, one after the other, each from the form field of its name. */
  function WriteAll(store: map<string, string>, form: map<string, string>, keys: seq<Key>): map<string, string>
    decreases |keys|
  {
    if keys == [] then store
    else
      var last := Name(keys[|keys| - 1]);
      WriteAll(store, form, keys[..|keys| - 1])[last := FormField(form, last)]
  }

  /**
   * After the writes, a key is present exactly when it was before or one of
   * the written settings has that name; a written name holds its form field,
   * any other key its old value.
   */
  lemma {:induction false} WriteAllLookup(store: map<string, string>, form: map<string, string>, keys: seq<Key>, key: string)
    ensures var r := WriteAll(store, form, keys);
      && (key in r <==> key in store || key in NamesOf(keys))
      && (key in r ==> r[key] == if key in NamesOf(keys) then FormField(form, key) else store[key])
    decreases |keys|
  {
    if keys != [] {
      var init := keys[..|keys| - 1];
      WriteAllLookup(store, form, init, key);
      assert NamesOf(keys) == NamesOf(init) + {Name(keys[|keys| - 1])} by {
        assert keys == init + [keys[|keys| - 1]];
      }
    }
  }

  /** The store after a submission has written its twenty settings, in the listed order. */
  function Stored(store: map<string, string>, form: map<string, string>): map<string, string> {
    WriteAll(store, form, ConfigKeys)
  }

  /** A submission leaves every setting holding the form field of its name. */
  lemma StoredSetting(store: map<string, string>, form: map<string, string>, k: Key)
    ensures Name(k) in Stored(store, form) && Stored(store, form)[Name(k)] == FormField(form, Name(k))
  {
    WriteAllLookup(store, form, ConfigKeys, Name(k));
    assert ConfigKeys[Index(k)] == k;
  }

  /** A submission leaves every key that names no setting as it was: present or absent, and with its old value. */
  lemma StoredOther(store: map<string, string>, form: map<string, string>, key: string)
    requires key !in SettingNames
    ensures key in Stored(store, form) <==> key in store
    ensures key in store ==> Stored(store, form)[key] == store[key]
  {
    WriteAllLookup(store, form, ConfigKeys, key);
  }

  /** The form a browser sends back when every rendered field is submitted unchanged. */
  function FormOf(pairs: seq<(string, string)>): map<string, string> {
    if pairs == [] then map[]
    else FormOf(pairs[..|pairs| - 1])[pairs[|pairs| - 1].0 := pairs[|pairs| - 1].1]
  }

  /** A pair's value is what the form holds under its key, when no later pair has that key. */
  lemma {:induction false} FormOfLookup(pairs: seq<(string, string)>, i: nat)
    requires i < |pairs|
    requires forall j :: i < j < |pairs| ==> pairs[j].0 != pairs[i].0
    ensures pairs[i].0 in FormOf(pairs) && FormOf(pairs)[pairs[i].0] == pairs[i].1
  {
    if i < |pairs| - 1 {
      FormOfLookup(pairs[..|pairs| - 1], i);
    }
  }

  /** Two settings of the exported list have different names. */
  lemma ExportedSettingNamesDiffer(s: Settings, i: nat, j: nat)
    requires i < j < |ConfigKeys|
    ensures WebServerData(s)[i].0 != WebServerData(s)[j].0
  {
    IndexOfPosition(i);
    IndexOfPosition(j);
    NamesDistinct();
  }

  /** No setting of the exported list carries a read-only entry's name. */
  lemma ExportedSettingNotReadOnly(s: Settings, i: nat)
    requires i < |ConfigKeys|
    ensures WebServerData(s)[i].0 != FirmwareVersionKey && WebServerData(s)[i].0 != HardwareKey
  {
    NamesDistinct();
  }

  /** No two entries of the exported list share a name. */
  lemma ExportNamesDistinct(s: Settings)
    ensures forall i, j :: 0 <= i < j < |WebServerData(s)| ==> WebServerData(s)[i].0 != WebServerData(s)[j].0
  {
    var r := WebServerData(s);
    var n := |ConfigKeys|;
    forall i, j | 0 <= i < j < |r| ensures r[i].0 != r[j].0 {
      if j < n {
        ExportedSettingNamesDiffer(s, i, j);
      } else if i < n {
        ExportedSettingNotReadOnly(s, i);
      }
    }
  }

  /**
   * Re-provisioning with the form exactly as the web server rendered it
   * brings back the same settings after the restart.
   */
  lemma ReprovisionRoundTrip(store: map<string, string>, s: Settings)
    ensures Load(Stored(store, FormOf(WebServerData(s)))) == s
  {
    var data := WebServerData(s);
    var form := FormOf(data);
    ExportNamesDistinct(s);
    var loaded := Load(Stored(store, form));
    forall k ensures Setting(loaded, k) == Setting(s, k) {
      FormOfLookup(data, Index(k));
      StoredSetting(store, form, k);
    }
    SettingsEqual(loaded, s);
  }

  /** A submission never touches the firmware version or the hardware tag. */
  lemma SubmitKeepsIdentity(store: map<string, string>, form: map<string, string>)
    ensures FirmwareVersionKey in Stored(store, form) <==> FirmwareVersionKey in store
    ensures HardwareKey in Stored(store, form) <==> HardwareKey in store
    ensures FirmwareVersionKey in store ==> Stored(store, form)[FirmwareVersionKey] == store[FirmwareVersionKey]
    ensures HardwareKey in store ==> Stored(store, form)[HardwareKey] == store[HardwareKey]
  {
    NamesDistinct();
    assert FirmwareVersionKey !in SettingNames && HardwareKey !in SettingNames;
    StoredOther(store, form, FirmwareVersionKey);
    StoredOther(store, form, HardwareKey);
  }
}
