/**
 * The web page `script.js`: a frame decoder without the humidity clamp, its
 * own charging texts, battery colour bands, and the chart update.
 */
module WebScript {
  import opened Wrappers
  import opened Bytes
  import opened Frame
  import opened WebCommon
  import opened Charging

  /**
   * `parseRealTimeData`: `null` unless the view is 20 bytes long and no PM
   * field carries the warm-up sentinel; every field is divided by 10 with no
   * clamp, so humidity may exceed 100. The `try`/`catch` that turns an
   * exception into `null` never fires: every read lies inside a 20-byte view.
   */
  function ParseRealTimeData(view: seq<byte>): (r: Option<Measurement>)
    ensures |view| != FRAME_LENGTH ==> r == None
    ensures r.Some? ==> 0.0 <= r.value.humidity <= 6553.5
  {
    if |view| != FRAME_LENGTH then None
    else
      var timestamp := U32At(view, 0);
      var state := view[4];
      var cmd := view[5];
      var particles := U16At(view, 6);
      var pm1 := U16At(view, 8);
      var pm25 := U16At(view, 10);
      var pm10 := U16At(view, 12);
      var temp := U16At(view, 14);
      var humidity := U16At(view, 16);
      if pm1 == 0xFFFF || pm25 == 0xFFFF || pm10 == 0xFFFF then None
      else
        Some(Measurement(timestamp, state, cmd, particles, Tenths(pm1), Tenths(pm25), Tenths(pm10),
                         Tenths(temp), Tenths(humidity)))
  }

  /** Decoding an encoded frame: nothing during warm-up, otherwise exactly its physical values. */
  lemma ParseEncodedFrame(f: RawFrame, reserved: seq<byte>)
    requires |reserved| == 2
    ensures ParseRealTimeData(Encode(f, reserved)) == if StartupPhase(f) then None else Some(Physical(f))
  {
  }

  /** A humidity byte pair of 1050 is reported as 105 %: nothing caps it here. */
  lemma HumidityNotClamped(f: RawFrame, reserved: seq<byte>)
    requires |reserved| == 2 && !StartupPhase(f) && f.humidity == 1050
    ensures ParseRealTimeData(Encode(f, reserved)).value.humidity == 105.0
  {
    ParseEncodedFrame(f, reserved);
  }

  /** `updateChargingStatus`: this page's own reading of the charging byte. */
  function UpdateChargingStatus(state: byte): (text: string)
    ensures state == 0 ==> text == "Non branché"
    ensures state == 1 ==> text == "En charge"
    ensures state == 2 ==> text == "Charge terminée"
    ensures 3 <= state ==> text == "État inconnu"
    ensures text == "État inconnu" <==> ChargeStateOf(state) == Full || ChargeStateOf(state).Unknown?
  {
    match state
    case 0 => "Non branché"
    case 1 => "En charge"
    case 2 => "Charge terminée"
    case _ => "État inconnu"
  }

  /** The badge colours of `updateBatteryLevel`: `bg-danger`, `bg-warning`, `bg-success`. */
  datatype BatteryColour = Danger | Warning | Success

  function Severity(c: BatteryColour): (n: nat) {
    match c
    case Success => 0
    case Warning => 1
    case Danger => 2
  }

  /** The badge colour and, when set, the alert message of `updateBatteryLevel`. */
  datatype BatteryDisplay = BatteryDisplay(colour: BatteryColour, alert: Option<string>)

  /**
   * `updateBatteryLevel`: danger up to 20 %, warning up to 50 %, success
   * above; only at 10 % or less is the "very low" alert written, and then
   * always with the danger colour. Otherwise the alert element is left as it was.
   */
  function UpdateBatteryLevel(value: byte): (d: BatteryDisplay)
    ensures d.alert.Some? <==> value <= 10
    ensures d.alert.Some? ==> d.colour == Danger
    ensures d.colour == Danger <==> value <= 20
    ensures d.colour == Warning <==> 20 < value <= 50
    ensures d.colour == Success <==> 50 < value
  {
    if value <= 20 then
      BatteryDisplay(Danger, if value <= 10 then Some("Batterie très faible !") else None)
    else if value <= 50 then BatteryDisplay(Warning, None)
    else BatteryDisplay(Success, None)
  }

  /** A lower battery level never shows a milder colour. */
  lemma BatteryColourMonotone(a: byte, b: byte)
    requires a <= b
    ensures Severity(UpdateBatteryLevel(b).colour) <= Severity(UpdateBatteryLevel(a).colour)
  {
  }

  /** `updateUI`: returns at once for `null`; otherwise records the PM values and shows the PM10 level. */
  method UpdateUI(ds: Datasets, data: Option<Measurement>, now: string) returns (indicator: Option<Indicator>)
    requires ds.Valid()
    modifies ds
    ensures ds.Valid()
    ensures data.None? ==> indicator == None && unchanged(ds)
    ensures data.Some? ==>
      && indicator == Some(QualityIndicator(data.value.pm10))
      && ds.Points() == Window(old(ds.Points()), Point(now, data.value.pm1, data.value.pm25, data.value.pm10))
  {
    if data.None? {
      return None;
    }
    var m := data.value;
    ds.Push(now, m.pm1, m.pm25, m.pm10);
    indicator := Some(QualityIndicator(m.pm10));
  }

  /** The `characteristicvaluechanged` listener: `if (data) updateUI(data)`. */
  method OnRealTimeData(ds: Datasets, view: seq<byte>, now: string) returns (indicator: Option<Indicator>)
    requires ds.Valid()
    modifies ds
    ensures ds.Valid()
    ensures ParseRealTimeData(view).None? ==> indicator == None && unchanged(ds)
    ensures ParseRealTimeData(view).Some? ==>
      var m := ParseRealTimeData(view).value;
      && indicator == Some(QualityIndicator(m.pm10))
      && ds.Points() == Window(old(ds.Points()), Point(now, m.pm1, m.pm25, m.pm10))
  {
    var data := ParseRealTimeData(view);
    indicator := None;
    if data.Some? {
      indicator := UpdateUI(ds, data, now);
    }
  }
}
