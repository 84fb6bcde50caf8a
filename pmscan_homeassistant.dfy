/**
 * The MQTT bridge `pmscan_homeassistant.py`: its frame decoder, the Home
 * Assistant discovery messages, the configuration merge, the choice of
 * device and the clock write. MQTT publishing is modelled as the
 * (topic, payload, retain) value that would be sent.
 */
module HomeAssistant {
  import opened Wrappers
  import opened Bytes
  import opened Text
  import opened Frame

  /** One row of the sensor table of `publish_discovery`. */
  datatype SensorInfo = SensorInfo(id: string, name: string, unit: string, icon: string)

  /** The sensor table, in its insertion order. */
  const SENSORS: seq<SensorInfo> := [
    SensorInfo("pm1_0", "PM1.0", "µg/m³", "mdi:air-filter"),
    SensorInfo("pm2_5", "PM2.5", "µg/m³", "mdi:air-filter"),
    SensorInfo("pm10_0", "PM10.0", "µg/m³", "mdi:air-filter"),
    SensorInfo("temperature", "Temperature", "°C", "mdi:thermometer"),
    SensorInfo("humidity", "Humidity", "%", "mdi:water-percent")
  ]

  /** The sensor ids are pairwise distinct. */
  lemma SensorIdsDistinct()
    ensures forall i, j :: 0 <= i < j < |SENSORS| ==> SENSORS[i].id != SENSORS[j].id
  {
  }

  /** Python's `struct.error` raised by `struct.unpack` on a buffer that is not 20 bytes. */
  datatype StructError = UnpackRequires20Bytes

  /**
   * `parse_data`: `struct.unpack("<IBBHHHHHHh", data)`, which demands exactly
   * 20 bytes, then the dictionary of the five published values, each raw/10,
   * keyed in the order of the sensor table. There is no warm-up guard and no
   * humidity clamp.
   */
  function ParseData(data: seq<byte>): (r: Result<seq<(string, real)>, StructError>)
    ensures r.Ok? <==> |data| == FRAME_LENGTH
    ensures r.Ok? ==> |r.value| == |SENSORS|
    ensures r.Ok? ==> forall i :: 0 <= i < |SENSORS| ==> r.value[i].0 == SENSORS[i].id
    ensures r.Ok? ==> forall i :: 0 <= i < |SENSORS| ==> 0.0 <= r.value[i].1 <= 6553.5
  {
    if |data| != FRAME_LENGTH then Err(UnpackRequires20Bytes)
    else
      Ok([("pm1_0", Tenths(U16At(data, 8))),
          ("pm2_5", Tenths(U16At(data, 10))),
          ("pm10_0", Tenths(U16At(data, 12))),
          ("temperature", Tenths(U16At(data, 14))),
          ("humidity", Tenths(U16At(data, 16)))])
  }

  /** An encoded frame decodes to its five physical values, warm-up sentinels and humidity above 100 included. */
  lemma ParseEncodedData(f: RawFrame, reserved: seq<byte>)
    requires |reserved| == 2
    ensures ParseData(Encode(f, reserved))
         == Ok([("pm1_0", Tenths(f.pm1)), ("pm2_5", Tenths(f.pm25)), ("pm10_0", Tenths(f.pm10)),
                ("temperature", Tenths(f.temperature)), ("humidity", Tenths(f.humidity))])
  {
  }

  /** The payload key `key` is bound to `v`: the first pair with that key carries `v`. */
  function Lookup(values: seq<(string, real)>, key: string): (v: Option<real>) {
    if values == [] then None
    else if values[0].0 == key then Some(values[0].1)
    else Lookup(values[1..], key)
  }

  /** The device section every discovery configuration carries. */
  datatype DeviceInfo = DeviceInfo(identifiers: seq<string>, name: string, model: string, manufacturer: string)

  /** One discovery configuration, before `json.dumps`. */
  datatype DiscoveryConfig = DiscoveryConfig(
    name: string, uniqueId: string, stateTopic: string, valueTemplate: string,
    unitOfMeasurement: string, icon: string, device: DeviceInfo)

  datatype Payload = ConfigPayload(config: DiscoveryConfig) | StatePayload(values: seq<(string, real)>)

  /** One `mqtt_client.publish(topic, payload, retain=…)` call. */
  datatype Publication = Publication(topic: string, payload: Payload, retain: bool)

  function ConfigTopic(prefix: string, id: string): (topic: string) {
    prefix + "/" + id + "/config"
  }

  function StateTopic(prefix: string): (topic: string) {
    prefix + "/state"
  }

  /** An f-string renders a missing address (`None`) as the text `None`. */
  function AddressText(address: Option<string>): (text: string) {
    if address.None? then "None" else address.value
  }

  function UniqueId(address: Option<string>, id: string): (uid: string) {
    "pmscan_" + AddressText(address) + "_" + id
  }

  /** The Jinja template `{{ value_json.<id> }}`. */
  function ValueTemplate(id: string): (t: string) {
    "{{ value_json." + id + " }}"
  }

  /** The payload key a `{{ value_json.<key> }}` template reads, if it has that shape. */
  function TemplateKey(t: string): (key: Option<string>) {
    if 17 <= |t| && t[..14] == "{{ value_json." && t[|t| - 3..] == " }}" then Some(t[14..|t| - 3]) else None
  }

  /** Reading a template back gives the id it was built from. */
  lemma TemplateRoundTrip(id: string)
    ensures TemplateKey(ValueTemplate(id)) == Some(id)
  {
    var t := ValueTemplate(id);
    assert t[..14] == "{{ value_json.";
    assert t[|t| - 3..] == " }}";
    assert t[14..|t| - 3] == id;
  }

  /** Distinct sensor ids give distinct configuration topics, whatever the prefix. */
  lemma ConfigTopicInjective(prefix: string, a: string, b: string)
    ensures ConfigTopic(prefix, a) == ConfigTopic(prefix, b) <==> a == b
  {
    AffixCancel(prefix + "/", a, b, "/config");
  }

  /** For one address, distinct sensor ids give distinct unique ids. */
  lemma UniqueIdInjective(address: Option<string>, a: string, b: string)
    ensures UniqueId(address, a) == UniqueId(address, b) <==> a == b
  {
    var p := "pmscan_" + AddressText(address) + "_";
    AffixCancel(p, a, b, "");
    assert p + a + "" == UniqueId(address, a);
    assert p + b + "" == UniqueId(address, b);
  }

  /** The fixed parts of the device section. */
  datatype DeviceSettings = DeviceSettings(name: string, model: string, manufacturer: string)

  function DeviceSection(settings: DeviceSettings, address: Option<string>): (info: DeviceInfo) {
    DeviceInfo(["pmscan_" + AddressText(address)], settings.name, settings.model, settings.manufacturer)
  }

  /** The retained discovery message for sensor `s`. */
  function DiscoveryMessage(prefix: string, settings: DeviceSettings, address: Option<string>, s: SensorInfo): (m: Publication)
    ensures m.retain && m.payload.ConfigPayload?
    ensures m.payload.config.stateTopic == StateTopic(prefix)
    ensures TemplateKey(m.payload.config.valueTemplate) == Some(s.id)
  {
    TemplateRoundTrip(s.id);
    Publication(
      ConfigTopic(prefix, s.id),
      ConfigPayload(DiscoveryConfig(
        settings.name + " " + s.name, UniqueId(address, s.id), StateTopic(prefix), ValueTemplate(s.id),
        s.unit, s.icon, DeviceSection(settings, address))),
      true)
  }

  /** The state message `publish_data` sends for decoded values: not retained, carrying the values as given. */
  function StateMessage(prefix: string, values: seq<(string, real)>): (m: Publication)
    ensures !m.retain && m.payload.StatePayload? && m.payload.values == values
  {
    Publication(StateTopic(prefix), StatePayload(values), false)
  }

  /**
   * The discovery messages address distinct topics and distinct entities,
   * and each one points Home Assistant at the state topic.
   */
  lemma DiscoveryMessagesDistinct(prefix: string, settings: DeviceSettings, address: Option<string>)
    ensures forall i, j :: 0 <= i < j < |SENSORS| ==>
      var mi := DiscoveryMessage(prefix, settings, address, SENSORS[i]);
      var mj := DiscoveryMessage(prefix, settings, address, SENSORS[j]);
      mi.topic != mj.topic && mi.payload.config.uniqueId != mj.payload.config.uniqueId
    ensures forall i :: 0 <= i < |SENSORS| ==>
      DiscoveryMessage(prefix, settings, address, SENSORS[i]).payload.config.stateTopic == StateTopic(prefix)
  {
    SensorIdsDistinct();
    forall i, j | 0 <= i < j < |SENSORS|
      ensures ConfigTopic(prefix, SENSORS[i].id) != ConfigTopic(prefix, SENSORS[j].id)
      ensures UniqueId(address, SENSORS[i].id) != UniqueId(address, SENSORS[j].id)
    {
      ConfigTopicInjective(prefix, SENSORS[i].id, SENSORS[j].id);
      UniqueIdInjective(address, SENSORS[i].id, SENSORS[j].id);
    }
  }

  /**
   * Every discovery template names a key of every state payload: a
   * published reading fills each of the five entities.
   */
  lemma TemplatesResolve(prefix: string, settings: DeviceSettings, address: Option<string>, data: seq<byte>, i: nat)
    requires |data| == FRAME_LENGTH && i < |SENSORS|
    ensures
      var t := DiscoveryMessage(prefix, settings, address, SENSORS[i]).payload.config.valueTemplate;
      TemplateKey(t).Some? && Lookup(ParseData(data).value, TemplateKey(t).value) == Some(ParseData(data).value[i].1)
  {
    TemplateRoundTrip(SENSORS[i].id);
    SensorIdsDistinct();
    var values := ParseData(data).value;
    LookupFirst(values, i);
  }

  /** Every state message goes to the topic each discovery message names as the entity's state topic. */
  lemma StateTopicMatchesDiscovery(prefix: string, settings: DeviceSettings, address: Option<string>,
                                   values: seq<(string, real)>, s: SensorInfo)
    ensures StateMessage(prefix, values).topic == DiscoveryMessage(prefix, settings, address, s).payload.config.stateTopic
  {
  }

  /** With distinct keys, looking up the key of entry `i` yields entry `i`'s value. */
  lemma {:induction false} LookupFirst(values: seq<(string, real)>, i: nat)
    requires i < |values|
    requires forall j :: 0 <= j < i ==> values[j].0 != values[i].0
    ensures Lookup(values, values[i].0) == Some(values[i].1)
  {
    if i > 0 {
      assert values[1..][i - 1] == values[i];
      LookupFirst(values[1..], i - 1);
    }
  }

  // ----- configuration ---------------------------------------------------------

  /** A value `yaml.safe_load` can produce (floats are not modelled). */
  datatype ConfigValue =
    | Null
    | Bool(b: bool)
    | Int(i: int)
    | Str(s: string)
    | List(items: seq<ConfigValue>)
    | Dict(entries: map<string, ConfigValue>)

  /** `DEFAULT_CONFIG`. */
  const DEFAULT_CONFIG: map<string, ConfigValue> := map[
    "mqtt" := Dict(map[
      "broker" := Str("localhost"),
      "port" := Int(1883),
      "username" := Str(""),
      "password" := Str(""),
      "topic_prefix" := Str("homeassistant/sensor/pmscan")]),
    "device" := Dict(map[
      "address" := Null,
      "name" := Str("PMScan"),
      "model" := Str("PMScan Air Quality Monitor"),
      "manufacturer" := Str("PMScan")]),
    "update_interval" := Int(60)]

  /** The configuration path: absent, or present with the document `yaml.safe_load` returns (`Null` for an empty file). */
  datatype ConfigFile = Missing | Present(document: ConfigValue)

  /** `{**DEFAULT_CONFIG, **config}` raises `TypeError` when the document is not a mapping. */
  datatype ConfigError = NotAMapping

  /**
   * `load_config`: the defaults when the file is missing; otherwise a shallow
   * merge in which every top-level key of the document replaces the default
   * entry wholesale. An empty file or a non-mapping document raises.
   */
  function LoadConfig(file: ConfigFile): (r: Result<map<string, ConfigValue>, ConfigError>)
    ensures file.Missing? ==> r == Ok(DEFAULT_CONFIG)
    ensures file.Present? ==> (r.Ok? <==> file.document.Dict?)
    ensures r.Ok? && file.Present? ==>
      && r.value.Keys == DEFAULT_CONFIG.Keys + file.document.entries.Keys
      && (forall k :: k in file.document.entries ==> r.value[k] == file.document.entries[k])
      && (forall k :: k in DEFAULT_CONFIG && k !in file.document.entries ==> r.value[k] == DEFAULT_CONFIG[k])
  {
    match file
    case Missing => Ok(DEFAULT_CONFIG)
    case Present(doc) =>
      if doc.Dict? then Ok(DEFAULT_CONFIG + doc.entries) else Err(NotAMapping)
  }

  /**
   * The merge is shallow: a document that sets only `mqtt.broker` loses the
   * default port, credentials and topic prefix.
   */
  lemma ShallowMergeDropsNestedDefaults(broker: string)
    ensures
      var r := LoadConfig(Present(Dict(map["mqtt" := Dict(map["broker" := Str(broker)])])));
      && r.Ok?
      && r.value["mqtt"] == Dict(map["broker" := Str(broker)])
      && "port" !in r.value["mqtt"].entries
      && r.value["device"] == DEFAULT_CONFIG["device"]
  {
  }

  /** An empty configuration file makes `load_config` raise rather than fall back to the defaults. */
  lemma EmptyFileRaises()
    ensures LoadConfig(Present(Null)) == Err(NotAMapping)
  {
  }

  // ----- device selection ------------------------------------------------------

  /** A device seen by the scan: its advertised name, if any, and its address. */
  datatype BleDevice = BleDevice(name: Option<string>, address: string)

  /** `device.name and "PMScan" in device.name`. */
  predicate IsPMScan(d: BleDevice) {
    d.name.Some? && Contains(d.name.value, "PMScan")
  }

  /** The index of the first device whose name contains "PMScan". */
  function FirstPMScan(devices: seq<BleDevice>): (r: Option<nat>)
    ensures r.Some? ==> r.value < |devices| && IsPMScan(devices[r.value])
    ensures r.Some? ==> forall j :: 0 <= j < r.value ==> !IsPMScan(devices[j])
    ensures r.None? ==> forall j :: 0 <= j < |devices| ==> !IsPMScan(devices[j])
  {
    if devices == [] then None
    else if IsPMScan(devices[0]) then Some(0)
    else match FirstPMScan(devices[1..])
      case None => None
      case Some(i) => Some(i + 1)
  }

  /** Python's `not address`: both `None` and `""` count as unset. */
  predicate Unset(address: Option<string>) {
    address.None? || address.value == ""
  }

  /** The address after the selection step: a set address is kept, otherwise the first PMScan's address, if any. */
  function SelectedAddress(configured: Option<string>, devices: seq<BleDevice>): (a: Option<string>)
    ensures !Unset(configured) ==> a == configured
    ensures a == configured || exists i :: 0 <= i < |devices| && IsPMScan(devices[i]) && a == Some(devices[i].address)
  {
    if !Unset(configured) then configured
    else match FirstPMScan(devices)
      case None => configured
      case Some(i) => Some(devices[i].address)
  }

  /** A configured address is never overwritten, and a scanned one is that of the first PMScan-named device. */
  lemma SelectionRule(configured: Option<string>, devices: seq<BleDevice>)
    ensures !Unset(configured) ==> SelectedAddress(configured, devices) == configured
    ensures Unset(configured) && SelectedAddress(configured, devices) != configured ==>
      exists i :: 0 <= i < |devices| && IsPMScan(devices[i])
        && SelectedAddress(configured, devices) == Some(devices[i].address)
        && forall j :: 0 <= j < i ==> !IsPMScan(devices[j])
    ensures Unset(configured) && (forall j :: 0 <= j < |devices| ==> !IsPMScan(devices[j])) ==>
      SelectedAddress(configured, devices) == configured
  {
    if Unset(configured) && FirstPMScan(devices).Some? {
      var i := FirstPMScan(devices).value;
      assert SelectedAddress(configured, devices) == Some(devices[i].address);
    }
  }

  /** The exception `Exception("PMScan non trouvé")`. */
  datatype ScanError = PMScanNotFound

  /** What a successful connection sends: the discovery messages, then the clock write (which may raise). */
  datatype Connection = Connection(discovery: seq<Publication>, clockWrite: Result<seq<byte>, PackError>)

  /** The bridge object, with the configuration entries its methods use. */
  class PMScanHA {
    const topicPrefix: string
    const settings: DeviceSettings
    /** `config['device']['address']`, the one entry the bridge updates. */
    var address: Option<string>

    constructor (topicPrefix: string, settings: DeviceSettings, address: Option<string>)
      ensures this.topicPrefix == topicPrefix && this.settings == settings && this.address == address
    {
      this.topicPrefix := topicPrefix;
      this.settings := settings;
      this.address := address;
    }

    /** `publish_discovery`: one retained configuration per sensor, in the table's order. */
    method PublishDiscovery() returns (msgs: seq<Publication>)
      ensures |msgs| == |SENSORS|
      ensures forall i :: 0 <= i < |SENSORS| ==> msgs[i] == DiscoveryMessage(topicPrefix, settings, address, SENSORS[i])
    {
      msgs := [];
      var i := 0;
      while i < |SENSORS|
        invariant 0 <= i <= |SENSORS|
        invariant |msgs| == i
        invariant forall j :: 0 <= j < i ==> msgs[j] == DiscoveryMessage(topicPrefix, settings, address, SENSORS[j])
      {
        msgs := msgs + [DiscoveryMessage(topicPrefix, settings, address, SENSORS[i])];
        i := i + 1;
      }
    }

    /** `notification_handler`: the state message for a 20-byte payload; a parse error is caught and nothing is sent. */
    method NotificationHandler(data: seq<byte>) returns (sent: Option<Publication>)
      ensures sent.Some? <==> |data| == FRAME_LENGTH
      ensures sent.Some? ==> sent.value == StateMessage(topicPrefix, ParseData(data).value)
    {
      var parsed := ParseData(data);
      if parsed.Err? {
        return None;
      }
      sent := Some(StateMessage(topicPrefix, parsed.value));
    }

    /** The search loop of `scan_and_connect`, run only when no address is set. */
    method SelectDevice(devices: seq<BleDevice>) returns (r: Result<string, ScanError>)
      modifies this
      ensures address == SelectedAddress(old(address), devices)
      ensures r.Ok? <==> !Unset(address)
      ensures r.Ok? ==> r.value == address.value
    {
      if Unset(address) {
        var i := 0;
        while i < |devices|
          invariant 0 <= i <= |devices|
          invariant address == old(address)
          invariant forall j :: 0 <= j < i ==> !IsPMScan(devices[j])
        {
          if IsPMScan(devices[i]) {
            assert FirstPMScan(devices) == Some(i) by { FirstPMScanIsLeast(devices, i); }
            address := Some(devices[i].address);
            break;
          }
          i := i + 1;
        }
        if Unset(address) {
          return Err(PMScanNotFound);
        }
      }
      r := Ok(address.value);
    }

    /**
     * `scan_and_connect` past the transport: select the device, then send the
     * discovery messages and the clock `struct.pack("<I", now)`.
     */
    method ScanAndConnect(devices: seq<BleDevice>, now: int) returns (r: Result<Connection, ScanError>)
      modifies this
      ensures address == SelectedAddress(old(address), devices)
      ensures r.Err? <==> Unset(address)
      ensures r.Ok? ==> r.value.clockWrite == PackU32LE(now)
      ensures r.Ok? ==> |r.value.discovery| == |SENSORS|
      ensures r.Ok? ==> forall i :: 0 <= i < |SENSORS| ==>
        r.value.discovery[i] == DiscoveryMessage(topicPrefix, settings, address, SENSORS[i])
    {
      var selected := SelectDevice(devices);
      if selected.Err? {
        return Err(PMScanNotFound);
      }
      var msgs := PublishDiscovery();
      r := Ok(Connection(msgs, PackU32LE(now)));
    }
  }

  /** A device that matches, with none before it, is the one `FirstPMScan` finds. */
  lemma FirstPMScanIsLeast(devices: seq<BleDevice>, i: nat)
    requires i < |devices| && IsPMScan(devices[i])
    requires forall j :: 0 <= j < i ==> !IsPMScan(devices[j])
    ensures FirstPMScan(devices) == Some(i)
  {
  }

  /** The clock write reads back, through the frame's `<I` field, as the time sent. */
  lemma ClockReadsBack(now: int, rest: seq<byte>)
    requires 0 <= now < TWO_32 && |rest| == 16
    ensures Fields(PackU32LE(now).value + rest).timestamp == now
  {
    var w := PackU32LE(now).value;
    assert (w + rest)[..4] == w;
  }
}
