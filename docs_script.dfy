/**
 * The web page `docs/script.js`: its frame decoder, battery icon, charging
 * text and the `updateUI` step that records a decoded frame on the chart.
 */
module DocsScript {
  import opened Wrappers
  import opened Bytes
  import opened Frame
  import opened WebCommon
  import opened Charging

  /**
   * `parseRealTimeData`: `null` unless the view is 20 bytes long and no PM
   * field carries the warm-up sentinel; humidity is limited to 100 and
   * temperature passed through (out-of-range values are only warned about).
   */
  function ParseRealTimeData(view: seq<byte>): (r: Option<Measurement>)
    ensures |view| != FRAME_LENGTH ==> r == None
    ensures r.Some? ==> r.value.humidity <= 100.0 && 0.0 <= r.value.temperature
  {
    if |view| != FRAME_LENGTH then None
    else
      var timestamp := U32At(view, 0);
      var state := view[4];
      var cmd := view[5];
      var particles := U16At(view, 6);
      var pm1 := U16At(view, 8);
      var pm25 := U16At(view, 10);
      var pm10 := U16At(view, 12);
      var temp := U16At(view, 14);
      var humidity := U16At(view, 16);
      if pm1 == 0xFFFF || pm25 == 0xFFFF || pm10 == 0xFFFF then None
      else
        var tempValue := Tenths(temp);
        var humidityValue := Tenths(humidity);
        var humidityValue := if humidityValue > 100.0 then Min(humidityValue, 100.0) else humidityValue;
        Some(Measurement(timestamp, state, cmd, particles, Tenths(pm1), Tenths(pm25), Tenths(pm10),
                         tempValue, humidityValue))
  }

  /** Decoding an encoded frame: nothing during warm-up, otherwise its physical values with humidity at most 100. */
  lemma ParseEncodedFrame(f: RawFrame, reserved: seq<byte>)
    requires |reserved| == 2
    ensures ParseRealTimeData(Encode(f, reserved))
         == if StartupPhase(f) then None
            else Some(Physical(f).(humidity := Min(Tenths(f.humidity), 100.0)))
  {
  }

  /** The icon classes `bi-battery-full`, `-half`, `-low` and bare `bi-battery`. */
  datatype BatteryIcon = BatteryFull | BatteryHalf | BatteryLow | BatteryEmpty

  /** How many quarters of the icon are drawn filled. */
  function Quarters(icon: BatteryIcon): (q: nat) {
    match icon
    case BatteryEmpty => 0
    case BatteryLow => 1
    case BatteryHalf => 2
    case BatteryFull => 3
  }

  /** `updateBatteryIcon`: the icon shows the level in whole quarters, three at most. */
  function UpdateBatteryIcon(level: byte): (icon: BatteryIcon)
    ensures Quarters(icon) == if level / 25 < 3 then level / 25 else 3
  {
    if level >= 75 then BatteryFull
    else if level >= 50 then BatteryHalf
    else if level >= 25 then BatteryLow
    else BatteryEmpty
  }

  /** A higher battery level never shows an emptier icon. */
  lemma BatteryIconMonotone(a: byte, b: byte)
    requires a <= b
    ensures Quarters(UpdateBatteryIcon(a)) <= Quarters(UpdateBatteryIcon(b))
  {
  }

  /** `updateChargingStatus`: the text shown for a charging byte. */
  function UpdateChargingStatus(state: byte): (text: string)
    ensures text == "Inconnu" <==> ChargeStateOf(state).Unknown?
    ensures ChargeStateOf(state) == NotPlugged ==> text == "Non branché"
    ensures ChargeStateOf(state) == PreCharge ==> text == "Pré-charge"
    ensures ChargeStateOf(state) == Charging ==> text == "En charge"
    ensures ChargeStateOf(state) == Full ==> text == "Chargé"
  {
    match state
    case 0 => "Non branché"
    case 1 => "Pré-charge"
    case 2 => "En charge"
    case 3 => "Chargé"
    case _ => "Inconnu"
  }

  /**
   * `updateUI`: nothing happens for `null`; otherwise the frame's PM values
   * are added to the chart history under the current time and the indicator
   * shows the PM10 level.
   */
  method UpdateUI(ds: Datasets, data: Option<Measurement>, now: string) returns (indicator: Option<Indicator>)
    requires ds.Valid()
    modifies ds
    ensures ds.Valid()
    ensures data.None? ==> indicator == None && unchanged(ds)
    ensures data.Some? ==>
      && indicator == Some(QualityIndicator(data.value.pm10))
      && ds.Points() == Window(old(ds.Points()), Point(now, data.value.pm1, data.value.pm25, data.value.pm10))
  {
    if data.None? {
      return None;
    }
    var m := data.value;
    ds.Push(now, m.pm1, m.pm25, m.pm10);
    indicator := Some(QualityIndicator(m.pm10));
  }

  /** The `characteristicvaluechanged` listener: decode, then `updateUI` with the result, `null` included. */
  method OnRealTimeData(ds: Datasets, view: seq<byte>, now: string) returns (indicator: Option<Indicator>)
    requires ds.Valid()
    modifies ds
    ensures ds.Valid()
    ensures ParseRealTimeData(view).None? ==> indicator == None && unchanged(ds)
    ensures ParseRealTimeData(view).Some? ==>
      var m := ParseRealTimeData(view).value;
      && indicator == Some(QualityIndicator(m.pm10))
      && ds.Points() == Window(old(ds.Points()), Point(now, m.pm1, m.pm25, m.pm10))
  {
    var data := ParseRealTimeData(view);
    indicator := UpdateUI(ds, data, now);
  }
}
