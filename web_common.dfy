/**
 * Code that `script.js`, `docs/script.js` and `html/script.js` share word for
 * word: the air-quality indicator of `updateQualityIndicator` and the
 * `datasets` chart history that `updateUI` extends (push, then shift beyond
 * `maxDataPoints`).
 */
module WebCommon {
  import opened AirQuality

  /** The text and CSS class `updateQualityIndicator` gives the indicator element. */
  datatype Indicator = Indicator(quality: string, className: string)

  /** The labels of each ladder level on the web pages. */
  function IndicatorFor(l: Level): (ind: Indicator) {
    match l
    case Excellent => Indicator("Excellente", "excellent")
    case Good => Indicator("Bonne", "good")
    case Moderate => Indicator("Moyenne", "moderate")
    case Poor => Indicator("Mauvaise", "poor")
    case VeryPoor => Indicator("Très mauvaise", "very-poor")
  }

  /** `updateQualityIndicator`: the if/else ladder on `pm10`; it labels exactly the value's band. */
  function QualityIndicator(pm10: real): (ind: Indicator)
    ensures ind == IndicatorFor(Classify(pm10))
  {
    if pm10 < 10.0 then Indicator("Excellente", "excellent")
    else if pm10 < 30.0 then Indicator("Bonne", "good")
    else if pm10 < 50.0 then Indicator("Moyenne", "moderate")
    else if pm10 < 80.0 then Indicator("Mauvaise", "poor")
    else Indicator("Très mauvaise", "very-poor")
  }

  /** `maxDataPoints`. */
  const MAX_DATA_POINTS: nat := 50

  /** One sample of the chart: the x-axis time label and the three PM values. */
  datatype Point = Point(time: string, pm1: real, pm25: real, pm10: real)

  /** `s` after one `push(x)` and, when that makes it longer than 50, one `shift()`. */
  function Window<T>(s: seq<T>, x: T): (w: seq<T>)
    ensures 0 < |w| && w[|w| - 1] == x
    ensures |s| < MAX_DATA_POINTS ==> |w| <= MAX_DATA_POINTS
  {
    var t := s + [x];
    if |t| > MAX_DATA_POINTS then t[1..] else t
  }

  /**
   * On a history of at most 50 entries: the result stays within 50, ends with
   * the new entry, keeps the newest entries in order, and drops the oldest one
   * exactly when the history was already full.
   */
  lemma WindowBounded<T>(s: seq<T>, x: T)
    requires |s| <= MAX_DATA_POINTS
    ensures var w := Window(s, x);
      && |w| <= MAX_DATA_POINTS && 0 < |w| && w[|w| - 1] == x
      && w == (s + [x])[|s| + 1 - |w|..]
      && (w == s + [x] <==> |s| < MAX_DATA_POINTS)
      && (|s| == MAX_DATA_POINTS ==> w == s[1..] + [x])
  {
    if |s| == MAX_DATA_POINTS {
      assert |Window(s, x)| != |s + [x]|;
      assert (s + [x])[1..] == s[1..] + [x];
    }
  }

  /** The history after pushing every element of `xs`, oldest first, onto an empty chart. */
  function Replay<T>(xs: seq<T>): (h: seq<T>) {
    if xs == [] then [] else Window(Replay(xs[..|xs| - 1]), xs[|xs| - 1])
  }

  /** The chart always shows exactly the newest `min(n, 50)` samples, in arrival order. */
  lemma {:induction false} ReplayKeepsNewest<T>(xs: seq<T>)
    ensures var n := if |xs| < MAX_DATA_POINTS then |xs| else MAX_DATA_POINTS;
      Replay(xs) == xs[|xs| - n..]
  {
    if xs != [] {
      var init, x := xs[..|xs| - 1], xs[|xs| - 1];
      ReplayKeepsNewest(init);
      var m := if |init| < MAX_DATA_POINTS then |init| else MAX_DATA_POINTS;
      var t := init[|init| - m..] + [x];
      assert Replay(xs) == Window(init[|init| - m..], x);
      assert t == xs[|init| - m..];
      if |t| > MAX_DATA_POINTS {
        assert t[1..] == xs[|init| - m + 1..];
      }
    }
  }

  /**
   * The global `datasets`: four parallel arrays that Chart.js draws. Entry `i`
   * of each array belongs to the same sample.
   */
  class Datasets {
    var labels: seq<string>
    var pm1: seq<real>
    var pm25: seq<real>
    var pm10: seq<real>

    /** The four arrays stay aligned and within `maxDataPoints`. */
    ghost predicate Valid()
      reads this
    {
      |labels| == |pm1| == |pm25| == |pm10| <= MAX_DATA_POINTS
    }

    /** The samples the chart shows, oldest first. */
    ghost function Points(): seq<Point>
      requires Valid()
      reads this
    {
      seq(|labels|, i requires 0 <= i < |labels| && Valid() reads this => Point(labels[i], pm1[i], pm25[i], pm10[i]))
    }

    constructor ()
      ensures Valid() && Points() == []
    {
      labels, pm1, pm25, pm10 := [], [], [], [];
    }

    /** The push/shift block of `updateUI`. */
    method Push(time: string, p1: real, p25: real, p10: real)
      requires Valid()
      modifies this
      ensures Valid()
      ensures Points() == Window(old(Points()), Point(time, p1, p25, p10))
    {
      labels := labels + [time];
      pm1 := pm1 + [p1];
      pm25 := pm25 + [p25];
      pm10 := pm10 + [p10];
      if |labels| > MAX_DATA_POINTS {
        labels := labels[1..];
        pm1 := pm1[1..];
        pm25 := pm25[1..];
        pm10 := pm10[1..];
      }
    }
  }
}
