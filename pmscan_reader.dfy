/**
 * The terminal reader `pmscan_reader.py`: frame decoding, the air-quality
 * table walk, the charging label and battery bar shown by its notification
 * handler, and the battery/charging values that handler remembers.
 */
module Reader {
  import opened Wrappers
  import opened Bytes
  import opened Text
  import opened Frame
  import AirQuality

  /**
   * `parse_real_time_data`: `None` for a payload that is not 20 bytes long or
   * whose PM fields carry the warm-up sentinel; otherwise every field divided
   * by 10, humidity limited to 100 and temperature passed through unchanged
   * (an out-of-range temperature is only reported on the console).
   */
  function ParseRealTimeData(data: seq<byte>): (r: Option<Measurement>)
    ensures |data| != FRAME_LENGTH ==> r == None
    ensures r.Some? ==> r.value.humidity <= 100.0 && 0.0 <= r.value.temperature
  {
    if |data| != FRAME_LENGTH then None
    else
      var f := Fields(data);
      if f.pm1 == STARTUP_SENTINEL || f.pm25 == STARTUP_SENTINEL || f.pm10 == STARTUP_SENTINEL then None
      else
        var humidity := Tenths(f.humidity);
        var humidity := if humidity > 100.0 then Min(humidity, 100.0) else humidity;
        var temperature := Tenths(f.temperature);
        Some(Measurement(f.timestamp, f.state, f.command, f.particles, Tenths(f.pm1),
                         Tenths(f.pm25), Tenths(f.pm10), temperature, humidity))
  }

  /**
   * Decoding an encoded frame: nothing during warm-up, otherwise the frame's
   * physical values with humidity limited to 100.
   */
  lemma ParseEncodedFrame(f: RawFrame, reserved: seq<byte>)
    requires |reserved| == 2
    ensures ParseRealTimeData(Encode(f, reserved))
         == if StartupPhase(f) then None
            else Some(Physical(f).(humidity := Min(Tenths(f.humidity), 100.0)))
  {
  }

  /** A returned record never comes from a frame whose raw pm1/pm2.5/pm10 is 0xFFFF. */
  lemma NeverFromStartupFrame(data: seq<byte>)
    requires ParseRealTimeData(data).Some?
    ensures U16At(data, 8) != 0xFFFF && U16At(data, 10) != 0xFFFF && U16At(data, 12) != 0xFFFF
  {
  }

  /** Each field comes from its fixed little-endian offset, divided by 10 where the format says so. */
  lemma ParsedFieldOffsets(data: seq<byte>)
    requires ParseRealTimeData(data).Some?
    ensures var m := ParseRealTimeData(data).value;
      && m.timestamp == U32At(data, 0) && m.state == data[4] && m.command == data[5]
      && m.particles == U16At(data, 6) && m.pm1 == Tenths(U16At(data, 8))
      && m.pm25 == Tenths(U16At(data, 10)) && m.pm10 == Tenths(U16At(data, 12))
      && m.temperature == Tenths(U16At(data, 14))
  {
  }

  /** Humidity is limited to 100 and untouched when the raw value is at most 1000. */
  lemma HumidityClamp(data: seq<byte>)
    requires ParseRealTimeData(data).Some?
    ensures var h := ParseRealTimeData(data).value.humidity;
      && (U16At(data, 16) <= 1000 ==> h == Tenths(U16At(data, 16)))
      && (U16At(data, 16) > 1000 ==> h == 100.0)
  {
  }

  /** The two reserved bytes never influence the result. */
  lemma ReservedBytesIgnored(data: seq<byte>, a: byte, b: byte)
    requires |data| == FRAME_LENGTH
    ensures ParseRealTimeData(data[..18] + [a, b]) == ParseRealTimeData(data)
  {
    var data' := data[..18] + [a, b];
    assert Fields(data') == Fields(data) by {
      assert data'[..18] == data[..18];
    }
  }

  /** Worked examples: humidity 1050 is reported as 100, 423 as 42.3; a PCB at 90.0 °C is still reported. */
  lemma ClampExamples(f: RawFrame, reserved: seq<byte>)
    requires |reserved| == 2 && !StartupPhase(f)
    ensures f.humidity == 1050 ==> ParseRealTimeData(Encode(f, reserved)).value.humidity == 100.0
    ensures f.humidity == 423 ==> ParseRealTimeData(Encode(f, reserved)).value.humidity == 42.3
    ensures f.temperature == 900 ==> ParseRealTimeData(Encode(f, reserved)).value.temperature == 90.0
  {
    ParseEncodedFrame(f, reserved);
  }

  /** `float('inf')` or a finite key of `AIR_QUALITY_THRESHOLDS`. */
  datatype Bound = Below(limit: real) | Infinity

  predicate Exceeds(b: Bound, v: real) {
    b.Infinity? || v < b.limit
  }

  /** `AIR_QUALITY_THRESHOLDS` in insertion order: bound, quality label, LED colour (terminal escape codes omitted). */
  const AIR_QUALITY_THRESHOLDS: seq<(Bound, string, string)> := [
    (Below(10.0), "EXCELLENTE", "Verte"),
    (Below(30.0), "BONNE", "Jaune"),
    (Below(50.0), "MOYENNE", "Orange"),
    (Below(80.0), "MAUVAISE", "Rouge"),
    (Infinity, "TRÈS MAUVAISE", "Violette")
  ]

  /**
   * `get_air_quality_info`: walks the threshold table in insertion order and
   * returns the labels of the first row whose bound exceeds `pm10Value`; that
   * row is the one of the value's band on the ladder. The last row's bound is
   * infinite, so the walk always stops on a row (the source's fallback after
   * the loop is that same row).
   */
  method GetAirQualityInfo(pm10Value: real) returns (quality: string, ledColour: string)
    ensures var row := AIR_QUALITY_THRESHOLDS[AirQuality.Rank(AirQuality.Classify(pm10Value))];
      quality == row.1 && ledColour == row.2
  {
    var i := 0;
    while i < |AIR_QUALITY_THRESHOLDS| - 1 && !Exceeds(AIR_QUALITY_THRESHOLDS[i].0, pm10Value)
      invariant 0 <= i < |AIR_QUALITY_THRESHOLDS|
      invariant forall j :: 0 <= j < i ==> !Exceeds(AIR_QUALITY_THRESHOLDS[j].0, pm10Value)
    {
      i := i + 1;
    }
    quality, ledColour := AIR_QUALITY_THRESHOLDS[i].1, AIR_QUALITY_THRESHOLDS[i].2;
  }

  /** `BATTERY_STATES`: the documented charging codes. */
  const BATTERY_STATES: map<byte, string> :=
    map[0 := "Non branché", 1 := "Pré-charge", 2 := "En charge", 3 := "Chargé"]

  /** The charging text `notification_handler` prints: `states.get(state, f'Inconnu ({state})')`. */
  function ChargingLabel(state: byte): (text: string)
    ensures state in BATTERY_STATES ==> text == BATTERY_STATES[state]
    ensures state !in BATTERY_STATES ==> StartsWith(text, "Inconnu (") && text[|text| - 1] == ')'
  {
    match state
    case 0 => "Non branché"
    case 1 => "Pré-charge"
    case 2 => "En charge"
    case 3 => "Chargé"
    case _ => "Inconnu (" + Decimal(state) + ")"
  }

  /** The handler's table agrees with `BATTERY_STATES`; any other code is shown as unknown with its number. */
  lemma ChargingLabelMatchesTable(state: byte)
    ensures state in BATTERY_STATES ==> ChargingLabel(state) == BATTERY_STATES[state]
    ensures state !in BATTERY_STATES <==> StartsWith(ChargingLabel(state), "Inconnu (")
  {
    var text := ChargingLabel(state);
    if 3 < state {
      assert text[..9] == "Inconnu (";
    } else {
      assert text[0] != 'I';
    }
  }

  /** Different codes are always shown differently: the label determines the code. */
  lemma ChargingLabelInjective(a: byte, b: byte)
    ensures ChargingLabel(a) == ChargingLabel(b) <==> a == b
  {
    var la, lb := ChargingLabel(a), ChargingLabel(b);
    if 3 < a && 3 < b {
      assert la[9..|la| - 1] == Decimal(a);
      assert lb[9..|lb| - 1] == Decimal(b);
      DecimalRoundTrip(a);
      DecimalRoundTrip(b);
    } else if 3 < a && b <= 3 {
      assert la[0] == 'I' && lb[0] != 'I';
    } else if a <= 3 && 3 < b {
      assert lb[0] == 'I' && la[0] != 'I';
    }
  }

  /** The ten-cell battery gauge: `"█" * bars + "░" * (10 - bars)` with `bars = int(level / 10)`. */
  function BatteryBar(level: byte): (bar: string)
    ensures level <= 109 ==> |bar| == 10
    ensures forall i :: 0 <= i < |bar| ==> bar[i] == '█' || bar[i] == '░'
  {
    var bars := level / 10;
    Repeat('█', bars) + Repeat('░', 10 - bars)
  }

  /**
   * One filled cell per full ten percent, then empty cells up to ten in all; a
   * level above 109 overflows the gauge, since a negative repeat count gives
   * no empty cells.
   */
  lemma BatteryBarCells(level: byte)
    ensures var bar := BatteryBar(level);
      && |bar| == (if level / 10 <= 10 then 10 else level / 10)
      && (forall i :: 0 <= i < |bar| ==> (bar[i] == '█' <==> i < level / 10))
      && (forall i :: 0 <= i < |bar| ==> (bar[i] == '░' <==> level / 10 <= i))
  {
  }

  /** What one call of `notification_handler` displays, ANSI codes and layout left aside. */
  datatype Screen = Screen(
    battery: Option<(byte, string)>,
    charging: Option<string>,
    data: Measurement,
    quality: string,
    ledColour: string)

  /**
   * The function object `notification_handler` with the two attributes the
   * battery and charging handlers set on it; `None` stands for an attribute
   * not yet set (`hasattr` false).
   */
  class NotificationHandler {
    var batteryLevel: Option<byte>
    var chargingState: Option<byte>

    constructor ()
      ensures batteryLevel == None && chargingState == None
    {
      batteryLevel := None;
      chargingState := None;
    }

    /**
     * `battery_notification_handler`: stores `data[0]`. An empty payload raises
     * IndexError inside the callback, which leaves the stored level as it was.
     */
    method BatteryNotification(data: seq<byte>)
      modifies this
      ensures chargingState == old(chargingState)
      ensures batteryLevel == if 0 < |data| then Some(data[0]) else old(batteryLevel)
    {
      if 0 < |data| {
        batteryLevel := Some(data[0]);
      }
    }

    /** `charging_notification_handler`: stores `data[0]`, as the battery handler does. */
    method ChargingNotification(data: seq<byte>)
      modifies this
      ensures batteryLevel == old(batteryLevel)
      ensures chargingState == if 0 < |data| then Some(data[0]) else old(chargingState)
    {
      if 0 < |data| {
        chargingState := Some(data[0]);
      }
    }

    /**
     * `notification_handler`: nothing is displayed for a rejected frame;
     * otherwise the stored battery level with its gauge, the stored charging
     * label, the decoded values and the air-quality row of the PM10 value.
     */
    method Handle(data: seq<byte>) returns (screen: Option<Screen>)
      ensures screen.Some? <==> ParseRealTimeData(data).Some?
      ensures screen.Some? ==>
        var m := ParseRealTimeData(data).value;
        var row := AIR_QUALITY_THRESHOLDS[AirQuality.Rank(AirQuality.Classify(m.pm10))];
        && screen.value.data == m
        && screen.value.battery == (if batteryLevel.Some? then Some((batteryLevel.value, BatteryBar(batteryLevel.value))) else None)
        && screen.value.charging == (if chargingState.Some? then Some(ChargingLabel(chargingState.value)) else None)
        && screen.value.quality == row.1 && screen.value.ledColour == row.2
    {
      var parsed := ParseRealTimeData(data);
      if parsed.None? {
        return None;
      }
      var battery: Option<(byte, string)> := None;
      if batteryLevel.Some? {
        var level := batteryLevel.value;
        battery := Some((level, BatteryBar(level)));
      }
      var charging: Option<string> := None;
      if chargingState.Some? {
        charging := Some(ChargingLabel(chargingState.value));
      }
      var quality, ledColour := GetAirQualityInfo(parsed.value.pm10);
      screen := Some(Screen(battery, charging, parsed.value, quality, ledColour));
    }
  }
}
