/**
 * The web page `html/script.js`: a decoder with no length check and no
 * warm-up guard, whose errors the notification listener swallows.
 */
module HtmlScript {
  import opened Wrappers
  import opened Bytes
  import opened Frame
  import opened WebCommon

  /** The object `parseRealTimeData` builds: timestamp and the five physical values. */
  datatype Reading = Reading(timestamp: nat, pm1: real, pm25: real, pm10: real, temperature: real, humidity: real)

  /** The `RangeError` a `DataView` read past the end of the view throws. */
  datatype ViewError = RangeError

  /**
   * `parseRealTimeData`: reads offsets 0 (u32) and 8, 10, 12, 14, 16 (u16)
   * and divides the last five by 10. The last read needs bytes 16-17, so any
   * view shorter than 18 bytes throws (and is rethrown); nothing checks the
   * length beyond that or the warm-up sentinel.
   */
  function ParseRealTimeData(view: seq<byte>): (r: Result<Reading, ViewError>)
    ensures r.Ok? <==> 18 <= |view|
  {
    if |view| < 18 then Err(RangeError)
    else
      Ok(Reading(U32At(view, 0), Tenths(U16At(view, 8)), Tenths(U16At(view, 10)),
                 Tenths(U16At(view, 12)), Tenths(U16At(view, 14)), Tenths(U16At(view, 16))))
  }

  /** On any view of at least 18 bytes, the reading holds the frame's fields at their offsets, PM and climate values in tenths. */
  lemma ParsedFields(view: seq<byte>)
    requires 18 <= |view|
    ensures var f := Fields(view);
      ParseRealTimeData(view) == Ok(Reading(f.timestamp, Tenths(f.pm1), Tenths(f.pm25),
                                            Tenths(f.pm10), Tenths(f.temperature), Tenths(f.humidity)))
  {
  }

  /** A warm-up frame is not rejected: its sentinel PM fields decode to 6553.5. */
  lemma StartupFrameAccepted(f: RawFrame, reserved: seq<byte>)
    requires |reserved| == 2 && f.pm10 == STARTUP_SENTINEL
    ensures ParseRealTimeData(Encode(f, reserved)).Ok?
    ensures ParseRealTimeData(Encode(f, reserved)).value.pm10 == 6553.5
  {
  }

  /** Only the first 18 bytes matter, so a longer or shorter-by-two frame decodes like its prefix. */
  lemma OnlyPrefixRead(view: seq<byte>, extra: seq<byte>)
    requires 18 <= |view|
    ensures ParseRealTimeData(view + extra) == ParseRealTimeData(view[..18])
  {
    assert (view + extra)[..18] == view[..18];
  }

  /** `updateUI`: records the PM values on the chart and shows the PM10 level. */
  method UpdateUI(ds: Datasets, data: Reading, now: string) returns (indicator: Indicator)
    requires ds.Valid()
    modifies ds
    ensures ds.Valid()
    ensures indicator == QualityIndicator(data.pm10)
    ensures ds.Points() == Window(old(ds.Points()), Point(now, data.pm1, data.pm25, data.pm10))
  {
    ds.Push(now, data.pm1, data.pm25, data.pm10);
    indicator := QualityIndicator(data.pm10);
  }

  /** The `characteristicvaluechanged` listener: a thrown parse error is caught and the page is left as it was. */
  method OnRealTimeData(ds: Datasets, view: seq<byte>, now: string) returns (indicator: Option<Indicator>)
    requires ds.Valid()
    modifies ds
    ensures ds.Valid()
    ensures |view| < 18 ==> indicator == None && unchanged(ds)
    ensures 18 <= |view| ==>
      var d := ParseRealTimeData(view).value;
      && indicator == Some(QualityIndicator(d.pm10))
      && ds.Points() == Window(old(ds.Points()), Point(now, d.pm1, d.pm25, d.pm10))
  {
    var parsed := ParseRealTimeData(view);
    if parsed.Err? {
      return None;
    }
    var shown := UpdateUI(ds, parsed.value, now);
    indicator := Some(shown);
  }
}
