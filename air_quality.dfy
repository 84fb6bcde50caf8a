/**
 * The PM10 air-quality ladder every copy applies: bands with exclusive upper
 * bounds 10, 30, 50 and 80 µg/m³ and an open top band. The texts and colours
 * each copy attaches to a band live with that copy.
 */
module AirQuality {

  datatype Level = Excellent | Good | Moderate | Poor | VeryPoor

  /** Position of a level on the ladder, from best (0) to worst (4). */
  function Rank(l: Level): (r: nat) {
    match l
    case Excellent => 0
    case Good => 1
    case Moderate => 2
    case Poor => 3
    case VeryPoor => 4
  }

  /** The half-open band `[lower, upper)` of µg/m³ values belonging to each level. */
  predicate InBand(l: Level, pm10: real) {
    match l
    case Excellent => pm10 < 10.0
    case Good => 10.0 <= pm10 < 30.0
    case Moderate => 30.0 <= pm10 < 50.0
    case Poor => 50.0 <= pm10 < 80.0
    case VeryPoor => 80.0 <= pm10
  }

  /** The first band, in ladder order, whose upper bound exceeds `pm10`. */
  function Classify(pm10: real): (l: Level)
    ensures InBand(l, pm10)
  {
    if pm10 < 10.0 then Excellent
    else if pm10 < 30.0 then Good
    else if pm10 < 50.0 then Moderate
    else if pm10 < 80.0 then Poor
    else VeryPoor
  }

  /** The bands partition the reals: a value lies in exactly the band `Classify` picks. */
  lemma BandsPartition(l: Level, pm10: real)
    ensures InBand(l, pm10) <==> l == Classify(pm10)
  {
  }

  /** More particulate matter never gives a better level. */
  lemma ClassifyMonotone(a: real, b: real)
    requires a <= b
    ensures Rank(Classify(a)) <= Rank(Classify(b))
  {
  }

  /** A band boundary belongs to the worse band: exactly 10 µg/m³ is Good, not Excellent. */
  lemma BoundaryBelongsAbove()
    ensures Classify(10.0) == Good && Classify(30.0) == Moderate
    ensures Classify(50.0) == Poor && Classify(80.0) == VeryPoor
  {
  }
}
