# PMScan telemetry handling, modelled in Dafny

PMScan is a portable particulate-matter sensor. It sends a 20-byte real-time
frame over Bluetooth Low Energy:

`u32 timestamp | u8 state | u8 command | u16 particles | u16 pm1.0 | u16 pm2.5 | u16 pm10 | u16 temperature | u16 humidity | 2 bytes ignored`

All fields are little-endian, and physical values are in tenths. The
repository handles this telemetry in several near-duplicate copies:

- a terminal reader (`pmscan_reader.py`);
- three web pages (`script.js`, `docs/script.js`, `html/script.js`);
- an MQTT bridge for Home Assistant (`pmscan_homeassistant.py`);
- a Home Assistant integration that reads Bluetooth advertisements
  (`custom_components/pmscan/sensor.py`).

The model gives each copy its own module and proves what each one does.
Module `CrossCopies` compares the copies' decoders, charging tables,
air-quality presentations and clock writes. The advertisement layout of
`sensor.py` has no counterpart in the other copies and is not compared.

Modules:

- `Wrappers`, `Bytes`, `Text`: Option/Result, little-endian byte access
  (`struct.unpack`, `DataView.getUint16`/`getUint32`), the two clock writes
  (`struct.pack("<I")` and `DataView.setUint32`), and the string operations
  the code relies on (`*` repetition, `str(int)`, `in`).
- `Frame`: the frame layout, an encoder for it, and the conversion to
  physical values. These values are exact reals, raw / 10.
- `AirQuality`: the PM10 ladder, with exclusive upper bounds 10/30/50/80.
- `Charging`: the documented charging codes 0-3.
- `Reader`: `pmscan_reader.py`:
  - the real-time frame decoder;
  - the table walk of `get_air_quality_info`;
  - the charging label and battery gauge;
  - the state the battery and charging handlers store on the notification
    handler, as class `NotificationHandler`.
- `WebCommon`: the code the three pages share verbatim:
  - the quality indicator;
  - the `datasets` chart history, as class `Datasets` with its four parallel
    arrays, updated by push-then-shift at 50 entries.
- `DocsScript`, `WebScript`, `HtmlScript`: each page's own decoder, battery
  and charging display, `updateUI` and notification listener.
- `HomeAssistant`: the MQTT bridge:
  - `parse_data`;
  - the discovery and state messages;
  - the shallow configuration merge of `load_config`;
  - device selection, with its mutation of the configured address in class
    `PMScanHA`;
  - the clock write.
- `HaSensor`: the integration's five entities, as class `PMScanSensor`:
  - the per-entity advertisement readers;
  - the first-entry rule of `update_from_bluetooth`;
  - the address matching of `async_setup_entry` and of the update callback.
- `CrossCopies`: comparisons between the copies:
  - the five decoders against each other;
  - the three charging tables;
  - the two air-quality presentations;
  - the two clock writes.

Where the copies differ, the model follows each file's own code. The
copies differ in these ways:

- Only the terminal reader and `docs/script.js` clamp humidity to 100.
  `script.js`, `html/script.js` and the MQTT bridge pass it through.
- `html/script.js` has neither the length check nor the warm-up guard.
  It accepts any view of 18 bytes or more, 18- and 19-byte views
  included, and a view shorter than 18 bytes throws.
- The MQTT bridge accepts exactly 20 bytes and publishes warm-up values.
- `docs/script.js` shows a bare `Inconnu` for an undocumented charging
  code, where the terminal reader shows `Inconnu (<code>)`.
- `script.js` reads charging codes 1-3 differently from the other copies.

## Model

| member | source | states |
|---|---|---|
| Bytes.PackU32LE | pmscan_reader.py:250-251 | `struct.pack("<I", t)` gives four bytes exactly when 0 <= t < 2^32, and those bytes read back as t; otherwise it raises |
| Bytes.SetUint32LE | docs/script.js:249-253 | `setUint32(0, t, true)` stores t modulo 2^32 and never raises |
| Text.DecimalRoundTrip | pmscan_reader.py:147 | the decimal rendering of the code in `Inconnu (code)` reads back as the code |
| Text.ContainsAt | pmscan_homeassistant.py:125 | `sub in s` holds exactly when sub is the slice of s at some offset |
| Text.AffixCancel | pmscan_homeassistant.py:82-85 | strings built around fixed affixes are equal exactly when their varying parts are |
| Frame.Encode | pmscan_reader.py:50-60 | encoding a frame gives 20 bytes and the requested trailing bytes, and the fields at offsets 0/4/5/6/8/10/12/14/16 read back as the frame's fields |
| Frame.EncodeFields | pmscan_reader.py:74 | every 20-byte payload is the encoding of the fields read at the `<IBBHHHHHHxx` offsets plus its last two bytes |
| AirQuality.Classify | pmscan_reader.py:38-44 | the level chosen lies in that level's half-open PM10 band |
| AirQuality.BandsPartition | pmscan_reader.py:38-44 | a value lies in a band exactly when that band is the classified level |
| AirQuality.ClassifyMonotone | pmscan_reader.py:114-117 | more PM10 never gives a better level |
| AirQuality.BoundaryBelongsAbove | pmscan_reader.py:39-42 | the boundaries 10, 30, 50 and 80 fall in the worse band |
| Charging.ChargeStateOf | pmscan_reader.py:30-35 | decoding keeps the byte, and a code is unknown exactly when it exceeds 3 |
| Charging.ChargeStateRoundTrip | pmscan_reader.py:30-35 | decoding a state's own code gives the state back |
| Reader.ParseRealTimeData | pmscan_reader.py:66-102 | a payload that is not 20 bytes gives None; a result has humidity at most 100 and temperature at least 0 |
| Reader.ParseEncodedFrame | pmscan_reader.py:74-102 | an encoded frame gives None during warm-up; otherwise it gives its physical values with humidity min(raw/10, 100) |
| Reader.NeverFromStartupFrame | pmscan_reader.py:77-79 | a returned record never comes from a raw pm1, pm2.5 or pm10 equal to 0xFFFF |
| Reader.ParsedFieldOffsets | pmscan_reader.py:74-100 | each returned field is read at its fixed little-endian offset, PM and temperature as raw/10 |
| Reader.HumidityClamp | pmscan_reader.py:82-85 | humidity is raw/10 when raw <= 1000 and exactly 100 above that |
| Reader.ReservedBytesIgnored | pmscan_reader.py:74 | bytes 18-19 never change the result |
| Reader.ClampExamples | pmscan_reader.py:82-90 | raw humidity 1050 gives 100, raw 423 gives 42.3, and a temperature of 90.0 °C is still returned |
| Reader.GetAirQualityInfo | pmscan_reader.py:104-117 | the row the table walk returns is the row of the value's band on the ladder |
| Reader.ChargingLabelMatchesTable | pmscan_reader.py:30-147 | codes 0-3 show the `BATTERY_STATES` text; a code outside the table always, and only then, shows `Inconnu (…)` |
| Reader.ChargingLabel | pmscan_reader.py:139-147 | a code in `BATTERY_STATES` shows that table's text; any other code shows a text of the form `Inconnu (…)` |
| Reader.BatteryBar | pmscan_reader.py:133-137 | the gauge is made only of filled and empty cells, and is 10 cells long for every level up to 109 |
| Reader.ChargingLabelInjective | pmscan_reader.py:139-147 | two codes show the same label exactly when they are equal |
| Reader.BatteryBarCells | pmscan_reader.py:133-137 | the gauge has level div 10 filled cells followed by empty cells, 10 cells in all up to level 109; above that no empty cells remain |
| Reader.NotificationHandler.constructor | pmscan_reader.py:133-139 | neither battery nor charging attribute is set initially |
| Reader.NotificationHandler.BatteryNotification | pmscan_reader.py:163-169 | stores data[0] as the battery level and leaves the charging state alone; empty data changes nothing |
| Reader.NotificationHandler.ChargingNotification | pmscan_reader.py:171-177 | stores data[0] as the charging state and leaves the battery level alone; empty data changes nothing |
| Reader.NotificationHandler.Handle | pmscan_reader.py:119-161 | displays something exactly when the frame decodes: the stored level and its gauge, the stored charging label, the values and the quality row of their PM10 |
| WebCommon.QualityIndicator | docs/script.js:122-145 | the if/else ladder labels exactly the value's level on the PM10 ladder |
| WebCommon.Window | docs/script.js:101-113 | one push/shift ends the history with the new sample and keeps a history below 50 entries within 50 |
| WebCommon.WindowBounded | docs/script.js:101-113 | after one push/shift the history stays within 50 entries and ends with the new sample; the oldest entry is dropped exactly when the history was full |
| WebCommon.ReplayKeepsNewest | script.js:101-113 | after any sequence of samples the chart holds exactly the newest min(n, 50), in arrival order |
| WebCommon.Datasets.constructor | docs/script.js:26-32 | the four arrays start empty and aligned |
| WebCommon.Datasets.Push | html/script.js:90-102 | keeps the four arrays aligned and within 50 entries; the samples become the push/shift window of the old ones |
| DocsScript.ParseRealTimeData | docs/script.js:148-197 | a view that is not 20 bytes gives null; a result has humidity at most 100 and temperature at least 0 |
| DocsScript.ParseEncodedFrame | docs/script.js:155-195 | an encoded frame gives null during warm-up; otherwise it gives its physical values with humidity capped at 100 |
| DocsScript.UpdateBatteryIcon | docs/script.js:271-282 | the icon shows the level in whole quarters, at most three (levels >= 75 full, >= 50 half, >= 25 low, else empty) |
| DocsScript.BatteryIconMonotone | docs/script.js:271-282 | a higher level never shows an emptier icon |
| DocsScript.UpdateChargingStatus | docs/script.js:284-312 | the text is "Inconnu" exactly when the code has no documented state; the four documented states show Non branché, Pré-charge, En charge and Chargé |
| DocsScript.UpdateUI | docs/script.js:87-119 | null changes nothing; a record is appended to the chart history and sets the indicator from its PM10 |
| DocsScript.OnRealTimeData | docs/script.js:216-219 | each notification updates the chart and indicator exactly when the view decodes |
| WebScript.ParseRealTimeData | script.js:210-250 | a view that is not 20 bytes gives null; a result's humidity is raw/10, up to 6553.5 |
| WebScript.ParseEncodedFrame | script.js:218-244 | an encoded frame gives null during warm-up; otherwise it gives exactly its physical values, with no clamp |
| WebScript.HumidityNotClamped | script.js:240-244 | raw humidity 1050 is returned as 105 |
| WebScript.UpdateChargingStatus | script.js:148-181 | 0 shows Non branché, 1 En charge, 2 Charge terminée, every code from 3 up État inconnu; so the charged state 3 is shown as unknown |
| WebScript.UpdateBatteryLevel | script.js:184-207 | the colour is danger exactly at levels <= 20, warning exactly at 21-50 and success above 50; the low-battery alert is written exactly at levels <= 10, and always with the danger colour |
| WebScript.BatteryColourMonotone | script.js:193-206 | a lower level never shows a milder colour |
| WebScript.UpdateUI | script.js:87-119 | null changes nothing; a record is appended to the chart history and sets the indicator |
| WebScript.OnRealTimeData | script.js:300-303 | the chart and indicator change exactly when the view decodes |
| HtmlScript.ParseRealTimeData | html/script.js:140-154 | parsing succeeds exactly when the view has at least 18 bytes; shorter views throw a RangeError |
| HtmlScript.ParsedFields | html/script.js:140-149 | on every view of at least 18 bytes, the reading is the frame's timestamp and its PM1, PM2.5, PM10, temperature and humidity fields in tenths |
| HtmlScript.StartupFrameAccepted | html/script.js:144-146 | a warm-up frame is not rejected, and its PM10 decodes to 6553.5 |
| HtmlScript.OnlyPrefixRead | html/script.js:142-149 | only the first 18 bytes are read |
| HtmlScript.UpdateUI | html/script.js:80-111 | appends the reading to the chart history and sets the indicator from its PM10 |
| HtmlScript.OnRealTimeData | html/script.js:187-194 | a view shorter than 18 bytes is caught and changes nothing; any other view updates chart and indicator |
| HomeAssistant.SensorIdsDistinct | pmscan_homeassistant.py:65-71 | the five sensor ids are pairwise distinct |
| HomeAssistant.ParseData | pmscan_homeassistant.py:94-103 | succeeds exactly on 20 bytes; the result holds the five sensor keys in table order, each a raw/10 value within 0..6553.5 |
| HomeAssistant.ParseEncodedData | pmscan_homeassistant.py:96-103 | an encoded frame gives its five physical values, warm-up sentinels and humidity over 100 included |
| HomeAssistant.TemplateRoundTrip | pmscan_homeassistant.py:87 | the template `{{ value_json.<id> }}` names exactly the key id |
| HomeAssistant.ConfigTopicInjective | pmscan_homeassistant.py:82 | two config topics with the same prefix are equal exactly when the sensor ids are |
| HomeAssistant.UniqueIdInjective | pmscan_homeassistant.py:85 | for one address, two unique ids are equal exactly when the sensor ids are |
| HomeAssistant.DiscoveryMessage | pmscan_homeassistant.py:81-92 | each discovery message is retained, points to `prefix/state`, and its template names the sensor's own id |
| HomeAssistant.DiscoveryMessagesDistinct | pmscan_homeassistant.py:81-92 | the five discovery messages have distinct topics and distinct unique ids, and all point to `prefix/state` |
| HomeAssistant.StateMessage | pmscan_homeassistant.py:105-108 | a state message is not retained and carries the decoded values unchanged |
| HomeAssistant.StateTopicMatchesDiscovery | pmscan_homeassistant.py:86-108 | every state message goes to the state topic that every discovery message announces |
| HomeAssistant.TemplatesResolve | pmscan_homeassistant.py:86-108 | each discovery template names a key of every published state payload, bound to that sensor's value |
| HomeAssistant.LoadConfig | pmscan_homeassistant.py:41-47 | a missing file gives the defaults; a present file merges only when it is a mapping; user top-level keys replace defaults wholesale and the other defaults remain |
| HomeAssistant.ShallowMergeDropsNestedDefaults | pmscan_homeassistant.py:46 | a file setting only `mqtt.broker` loses the default port and keeps the default device section |
| HomeAssistant.EmptyFileRaises | pmscan_homeassistant.py:45-46 | an empty file (document None) makes the merge raise |
| HomeAssistant.FirstPMScan | pmscan_homeassistant.py:124-127 | finds the least index whose device name contains "PMScan", or reports that none does |
| HomeAssistant.SelectedAddress | pmscan_homeassistant.py:122-129 | a configured address is kept; otherwise the result is the unset address or the address of a device whose name contains "PMScan" |
| HomeAssistant.SelectionRule | pmscan_homeassistant.py:122-129 | a configured address is never overwritten; a scanned address is that of the first PMScan-named device; with none, the address stays unset |
| HomeAssistant.FirstPMScanIsLeast | pmscan_homeassistant.py:124-127 | a matching device with no match before it is the one selected, which follows from the contract of FirstPMScan |
| HomeAssistant.ClockReadsBack | pmscan_homeassistant.py:143-147 | the clock bytes read back through the frame's `<I` timestamp field as the time sent |
| HomeAssistant.PMScanHA.constructor | pmscan_homeassistant.py:34-36 | the bridge starts with the given prefix, device settings and address |
| HomeAssistant.PMScanHA.PublishDiscovery | pmscan_homeassistant.py:63-92 | sends one retained discovery message per sensor, in table order |
| HomeAssistant.PMScanHA.NotificationHandler | pmscan_homeassistant.py:105-116 | publishes the parsed values on `prefix/state` exactly when the payload is 20 bytes; otherwise the error is caught and nothing is sent |
| HomeAssistant.PMScanHA.SelectDevice | pmscan_homeassistant.py:122-129 | the address becomes the selected one, and the step fails ("PMScan non trouvé") exactly when it is still unset |
| HomeAssistant.PMScanHA.ScanAndConnect | pmscan_homeassistant.py:118-147 | on success, sends the discovery messages and then the clock `struct.pack("<I", now)` |
| HaSensor.ParseManufacturerData | custom_components/pmscan/sensor.py:132-249 | the base class gives None; each entity gives a value exactly when the data covers its two bytes, and that value is the tenths of the u16 in its slot, within 0..6553.5 |
| HaSensor.ManufacturerDataOffsets | custom_components/pmscan/sensor.py:132-249 | on all data long enough for its slot, each entity answers the tenths of the little-endian u16 at twice its slot index |
| HaSensor.EncodeAdvertisement | custom_components/pmscan/sensor.py:157-249 | five u16 values are laid out little-endian at offsets 0/2/4/6/8 |
| HaSensor.AdvertisementRoundTrip | custom_components/pmscan/sensor.py:157-249 | each entity reads back, in tenths, the value in its own slot (PM1 0-1, PM2.5 2-3, PM10 4-5, temperature 6-7, humidity 8-9) |
| HaSensor.ExtraBytesIgnored | custom_components/pmscan/sensor.py:159-160 | trailing bytes never change a successful reading |
| HaSensor.UpdatedValue | custom_components/pmscan/sensor.py:113-128 | empty manufacturer data keeps the value; the base entity is cleared to None by any other advertisement; a changed value is None or within 0..6553.5; otherwise a real entity gets the tenths of the u16 in its slot of the first entry exactly when that entry covers the slot |
| HaSensor.FirstEntryValue | custom_components/pmscan/sensor.py:120-128 | a non-empty advertisement gives a real entity the tenths of the u16 in its slot of the first manufacturer-data entry, or None when that entry is too short |
| HaSensor.UpdateIdempotent | custom_components/pmscan/sensor.py:113-128 | receiving the same advertisement twice changes nothing beyond receiving it once |
| HaSensor.LaterEntriesIgnored | custom_components/pmscan/sensor.py:120-128 | entries after the first manufacturer-data entry never matter |
| HaSensor.PMScanSensor.constructor | custom_components/pmscan/sensor.py:90-96 | a new entity has no value |
| HaSensor.PMScanSensor.UpdateFromBluetooth | custom_components/pmscan/sensor.py:113-130 | empty manufacturer data leaves the value unchanged; otherwise the value is parsed from the first entry |
| HaSensor.FirstMatching | custom_components/pmscan/sensor.py:43-44 | finds the least index of a discovery record with the configured address, or reports that none has it |
| HaSensor.FirstMatchingIsLeast | custom_components/pmscan/sensor.py:43-53 | a matching record with no match before it is the one used |
| HaSensor.AsyncSetupEntry | custom_components/pmscan/sensor.py:35-59 | builds five fresh, distinct entities (PM1, PM2.5, PM10, temperature, humidity) from the first matching record, or none at all |
| HaSensor.OnAdvertisement | custom_components/pmscan/sensor.py:61-76 | an advertisement from another address changes nothing; otherwise every entity updates from it |
| CrossCopies.DocsDecoderIsReaderDecoder | docs/script.js:148-197 | the `docs/script.js` decoder equals the `pmscan_reader.py` decoder on every input |
| CrossCopies.ScriptDiffersOnlyInHumidity | script.js:210-250 | `script.js` accepts exactly the frames the reader accepts; the results differ only in humidity, which the reader caps at 100 |
| CrossCopies.HumidityDisagreement | script.js:240-244 | raw humidity 1050 reads as 100 in the reader and as 105 in `script.js` |
| CrossCopies.HtmlAgreesWithScript | html/script.js:140-149 | where `script.js` accepts a view, `html/script.js` reads the same six values |
| CrossCopies.HtmlAcceptsShortViews | html/script.js:140-154 | 18- and 19-byte views decode in `html/script.js` and are rejected by every other decoder |
| CrossCopies.StartupFrameHandling | pmscan_homeassistant.py:94-103 | a warm-up frame is dropped by the reader and the two guarded pages, but accepted by `html/script.js` and the MQTT bridge |
| CrossCopies.BridgeAgreesWithScript | pmscan_homeassistant.py:96-103 | on frames `script.js` accepts, the bridge publishes that page's five values |
| CrossCopies.DocsChargingMatchesReader | docs/script.js:284-312 | `docs/script.js` shows the reader's text for codes 0-3 and "Inconnu" where the reader shows `Inconnu (code)` |
| CrossCopies.ChargingUnknownIffUndocumented | docs/script.js:288-310 | both tables call a code unknown exactly when it is not one of the documented codes 0-3 |
| CrossCopies.ScriptChargingDisagrees | script.js:154-180 | `script.js` shows code 1 as charging, 2 as complete and 3 as unknown, and agrees with the reader on code 0 only |
| CrossCopies.PresentationsShareBands | docs/script.js:126-141 | the reader's table walk and the pages' ladder group PM10 values into the same bands |
| CrossCopies.ClockWritesAgree | script.js:331-335 | the browser and Python clock writes send the same bytes for 0 <= t < 2^32; outside that range the browser wraps modulo 2^32 and Python raises |

## Left out

- Bluetooth transport is not modelled. This covers bleak `BleakClient`/`BleakScanner`, Web Bluetooth `requestDevice`/`startNotifications`/`readValue`, GATT writes, and the asyncio sleep loops. Notification payloads and scan results are method parameters instead.
- `run` in `pmscan_homeassistant.py` is not modelled. It retries `scan_and_connect` after a fixed 5 s sleep, which is an I/O loop.
- MQTT client setup and `publish` are not modelled. A publication is the (topic, payload, retain) value that would be sent, and `json.dumps` is not modelled.
- YAML parsing and file access are not modelled. The file is either missing or given as the document `yaml.safe_load` returns. Floats in YAML documents are not represented, and mappings are keyed by strings only: the int- or bool-keyed mappings `yaml.safe_load` can also return, which the merge accepts, are not represented.
- HomeAssistant.PMScanHA.constructor takes the topic prefix and device settings as strings. It does not extract them from the merged configuration, so the effect of non-string YAML values at `device.*` or `mqtt.topic_prefix` is not captured. `setup_mqtt`, `update_interval`, and the aliasing between `DEFAULT_CONFIG` and the merged dictionary (which Python shares, so setting the address mutates the defaults) are not modelled either.
- DOM writes, Chart.js redraws, CSS classes and terminal ANSI codes are modelled only as the label, band or icon they select. This covers the text-success/text-warning tint of `docs/script.js` and the `batteryInfo` texts of `script.js` other than the very-low alert. Console output is not modelled.
- The battery and charging listeners of the web pages are not modelled. They apply `getUint8(0)` before the modelled display functions.
- IEEE-754 rounding of `/ 10.0` and `toFixed(1)` is not modelled. Values are exact reals, raw / 10.
- `time.time()`, `Date.now()` and `toLocaleTimeString()` are inputs.
- The interactive device choice in `pmscan_reader.py` is not modelled. This is `scan_devices`, which uses `input()`.
- Home Assistant framework glue is not modelled. This covers `custom_components/pmscan/__init__.py`, `custom_components/pmscan/config_flow.py`, entity registration, `async_write_ha_state`, `async_register_callback`, and the entity attributes (names, unique ids, units, device classes, `device_info`).
- HaSensor.OnAdvertisement requires the entity list to hold distinct objects. `AsyncSetupEntry` guarantees this for the list the callback captures.
- Manufacturer-data dictionaries are sequences of (company id, bytes) in insertion order. The uniqueness of their keys is not modelled.
- Reader.NotificationHandler.BatteryNotification and Reader.NotificationHandler.ChargingNotification: on empty data `data[0]` raises IndexError; the model keeps the resulting state (nothing stored) but not the exception itself, which the Bluetooth callback machinery receives.
