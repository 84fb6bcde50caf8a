/**
 * Where the near-duplicate copies of the PMScan logic agree and where they
 * part: the five frame decoders, the three charging tables, the air-quality
 * presentations and the two clock writes.
 */
module CrossCopies {
  import opened Wrappers
  import opened Bytes
  import opened Text
  import opened Frame
  import opened Charging
  import AirQuality
  import WebCommon
  import Reader
  import DocsScript
  import WebScript
  import HtmlScript
  import HomeAssistant

  // ----- frame decoders --------------------------------------------------------

  /** `docs/script.js` decodes exactly as `pmscan_reader.py` does. */
  lemma DocsDecoderIsReaderDecoder(view: seq<byte>)
    ensures DocsScript.ParseRealTimeData(view) == Reader.ParseRealTimeData(view)
  {
    if |view| == FRAME_LENGTH {
      var f := Fields(view);
      assert f.pm1 == U16At(view, 8) && f.pm25 == U16At(view, 10) && f.pm10 == U16At(view, 12);
    }
  }

  /**
   * `script.js` accepts exactly the frames `pmscan_reader.py` accepts, and the
   * two results differ at most in humidity, which the reader caps at 100.
   */
  lemma ScriptDiffersOnlyInHumidity(view: seq<byte>)
    ensures WebScript.ParseRealTimeData(view).Some? <==> Reader.ParseRealTimeData(view).Some?
    ensures WebScript.ParseRealTimeData(view).Some? ==>
      var s := WebScript.ParseRealTimeData(view).value;
      Reader.ParseRealTimeData(view).value == s.(humidity := Min(s.humidity, 100.0))
  {
  }

  /** The humidity byte pair 1050 reads as 100 % in `pmscan_reader.py` and as 105 % in `script.js`. */
  lemma HumidityDisagreement(f: RawFrame, reserved: seq<byte>)
    requires |reserved| == 2 && !StartupPhase(f) && f.humidity == 1050
    ensures Reader.ParseRealTimeData(Encode(f, reserved)).value.humidity == 100.0
    ensures WebScript.ParseRealTimeData(Encode(f, reserved)).value.humidity == 105.0
  {
    Reader.ParseEncodedFrame(f, reserved);
    WebScript.ParseEncodedFrame(f, reserved);
  }

  /** Where `script.js` accepts a view, `html/script.js` reads the same six values from it. */
  lemma HtmlAgreesWithScript(view: seq<byte>)
    requires WebScript.ParseRealTimeData(view).Some?
    ensures HtmlScript.ParseRealTimeData(view).Ok?
    ensures var s := WebScript.ParseRealTimeData(view).value;
      HtmlScript.ParseRealTimeData(view).value
        == HtmlScript.Reading(s.timestamp, s.pm1, s.pm25, s.pm10, s.temperature, s.humidity)
  {
  }

  /** `html/script.js` takes 18- and 19-byte views that every other decoder rejects. */
  lemma HtmlAcceptsShortViews(view: seq<byte>)
    requires 18 <= |view| < FRAME_LENGTH
    ensures HtmlScript.ParseRealTimeData(view).Ok?
    ensures Reader.ParseRealTimeData(view).None? && WebScript.ParseRealTimeData(view).None?
    ensures HomeAssistant.ParseData(view).Err?
  {
  }

  /**
   * A warm-up frame is dropped by the reader and the two guarded pages, but
   * shown by `html/script.js` and published by the MQTT bridge.
   */
  lemma StartupFrameHandling(f: RawFrame, reserved: seq<byte>)
    requires |reserved| == 2 && StartupPhase(f)
    ensures Reader.ParseRealTimeData(Encode(f, reserved)).None?
    ensures DocsScript.ParseRealTimeData(Encode(f, reserved)).None?
    ensures WebScript.ParseRealTimeData(Encode(f, reserved)).None?
    ensures HtmlScript.ParseRealTimeData(Encode(f, reserved)).Ok?
    ensures HomeAssistant.ParseData(Encode(f, reserved)).Ok?
  {
    Reader.ParseEncodedFrame(f, reserved);
    DocsScript.ParseEncodedFrame(f, reserved);
    WebScript.ParseEncodedFrame(f, reserved);
  }

  /** What the MQTT bridge publishes for a frame `script.js` accepts is that page's five values. */
  lemma BridgeAgreesWithScript(view: seq<byte>)
    requires WebScript.ParseRealTimeData(view).Some?
    ensures var s := WebScript.ParseRealTimeData(view).value;
      HomeAssistant.ParseData(view)
        == Ok([("pm1_0", s.pm1), ("pm2_5", s.pm25), ("pm10_0", s.pm10),
               ("temperature", s.temperature), ("humidity", s.humidity)])
  {
  }

  // ----- charging tables -------------------------------------------------------

  /**
   * `docs/script.js` shows the reader's text for the documented codes 0-3;
   * for any other code the reader appends the code to the same word "Inconnu".
   */
  lemma DocsChargingMatchesReader(code: byte)
    ensures code <= 3 ==> DocsScript.UpdateChargingStatus(code) == Reader.ChargingLabel(code)
    ensures 3 < code ==>
      && DocsScript.UpdateChargingStatus(code) == "Inconnu"
      && Reader.ChargingLabel(code) == "Inconnu (" + Decimal(code) + ")"
  {
  }

  /** Both the reader and `docs/script.js` call a code unknown exactly when it has no documented meaning. */
  lemma ChargingUnknownIffUndocumented(code: byte)
    ensures ChargeStateOf(code).Unknown? <==> DocsScript.UpdateChargingStatus(code) == "Inconnu"
    ensures ChargeStateOf(code).Unknown? <==> code !in Reader.BATTERY_STATES
  {
  }

  /**
   * `script.js` reads the charging byte differently: code 1 (pre-charge) is
   * shown as charging, 2 (charging) as charge complete, and 3 (charged) as unknown.
   */
  lemma ScriptChargingDisagrees()
    ensures ChargeStateOf(1) == PreCharge && WebScript.UpdateChargingStatus(1) == Reader.ChargingLabel(2)
    ensures ChargeStateOf(2) == Charging && WebScript.UpdateChargingStatus(2) == "Charge terminée"
    ensures ChargeStateOf(3) == Full && WebScript.UpdateChargingStatus(3) == WebScript.UpdateChargingStatus(4)
    ensures forall c: byte :: WebScript.UpdateChargingStatus(c) == Reader.ChargingLabel(c) <==> c == 0
  {
    assert Reader.ChargingLabel(4) == "Inconnu (4)";
    forall c: byte | c != 0
      ensures WebScript.UpdateChargingStatus(c) != Reader.ChargingLabel(c)
    {
      if 3 < c {
        Reader.ChargingLabelMatchesTable(c);
        var t := Reader.ChargingLabel(c);
        assert t[0] == 'I';
      }
    }
  }

  // ----- air quality -----------------------------------------------------------

  /** The reader's table row for a PM10 value. */
  function ReaderQuality(pm10: real): (row: (Reader.Bound, string, string)) {
    Reader.AIR_QUALITY_THRESHOLDS[AirQuality.Rank(AirQuality.Classify(pm10))]
  }

  /** `get_air_quality_info` and `updateQualityIndicator` split the PM10 axis into the same bands. */
  lemma PresentationsShareBands(v: real, w: real)
    ensures ReaderQuality(v) == ReaderQuality(w) <==> WebCommon.QualityIndicator(v) == WebCommon.QualityIndicator(w)
    ensures ReaderQuality(v) == ReaderQuality(w) <==> AirQuality.Classify(v) == AirQuality.Classify(w)
  {
  }

  // ----- clock -----------------------------------------------------------------

  /**
   * The two clock writes send the same four bytes for every time a u32 can
   * hold; outside that range the browser wraps around while Python raises.
   */
  lemma ClockWritesAgree(t: int)
    ensures 0 <= t < TWO_32 ==> PackU32LE(t) == Ok(SetUint32LE(t))
    ensures TWO_32 <= t ==> PackU32LE(t).Err? && SetUint32LE(t) == SetUint32LE(t - TWO_32)
    ensures t < 0 ==> PackU32LE(t).Err? && SetUint32LE(t) == SetUint32LE(t + TWO_32)
  {
    if 0 <= t < TWO_32 {
      assert t % TWO_32 == t;
      assert SetUint32LE(t) == EncodeU32(t);
    } else if TWO_32 <= t {
      ModuloShift(t - TWO_32);
      assert SetUint32LE(t) == EncodeU32((t - TWO_32) % TWO_32);
    } else {
      ModuloShift(t);
      assert SetUint32LE(t + TWO_32) == EncodeU32(t % TWO_32);
    }
  }

  /** Adding 2^32 does not change the value ToUint32 keeps. */
  lemma ModuloShift(x: int)
    ensures (x + TWO_32) % TWO_32 == x % TWO_32
  {
    var q := x / TWO_32;
    var r := x % TWO_32;
    assert x == q * TWO_32 + r && 0 <= r < TWO_32;
    assert x + TWO_32 == (q + 1) * TWO_32 + r;
  }
}
