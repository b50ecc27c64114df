/** The arithmetic that `MoonPhasesService.java` runs around its astronomical
    formula: the angle normaliser `fixAngle`, the conversion of a Unix timestamp
    into days since the 1980.0 epoch, the radian/degree conversions and the
    nine-branch classification of a normalised phase angle.

    Doubles are modelled as exact reals. The solar and lunar position formulae
    (trigonometry and a Newton-Raphson loop) are not modelled: the Moon's
    elongation from the Sun, as a function of days since the epoch, is a
    parameter `elongation` of the pipeline. */
module MoonPhasesService {

  // ---------------------------------------------------------------------------
  // Java's floating-point remainder and `fixAngle`
  // ---------------------------------------------------------------------------

  /** Degrees in one full turn. */
  const FullTurn: real := 360.0

  /** Rounds toward zero, as Java's `%` on doubles rounds its implied quotient. */
  function Trunc(x: real): (n: int)
    ensures 0.0 <= x ==> n as real <= x < n as real + 1.0
    ensures x < 0.0 ==> n as real - 1.0 < x <= n as real
  {
    if x >= 0.0 then x.Floor else -((-x).Floor)
  }

  /** `k` whole turns, in degrees. */
  function Turns(k: int): real {
    FullTurn * k as real
  }

  /** `d` is a whole number of turns. */
  ghost predicate IsWholeTurns(d: real) {
    exists k: int :: d == Turns(k)
  }

  /** Java's `x % 360.0`: the remainder of a truncating division, which takes
      the sign of the dividend and is smaller than one turn in magnitude. */
  function Rem360(x: real): (r: real)
    ensures -FullTurn < r < FullTurn
    ensures 0.0 <= x ==> 0.0 <= r
    ensures x <= 0.0 ==> r <= 0.0
    ensures IsWholeTurns(x - r)
  {
    var q := Trunc(x / FullTurn);
    assert x - (x - Turns(q)) == Turns(q);
    x - Turns(q)
  }

  /** The sum of two whole numbers of turns is a whole number of turns. */
  lemma WholeTurnsAdd(a: real, b: real)
    requires IsWholeTurns(a) && IsWholeTurns(b)
    ensures IsWholeTurns(a + b)
  {
    var m :| a == Turns(m);
    var n :| b == Turns(n);
    assert a + b == Turns(m + n);
  }

  /** The negation of a whole number of turns is a whole number of turns. */
  lemma WholeTurnsNeg(a: real)
    requires IsWholeTurns(a)
    ensures IsWholeTurns(-a)
  {
    var m :| a == Turns(m);
    assert -a == Turns(-m);
  }

  /** Two angles in [0, 360) that are each a whole number of turns away from
      the same angle are the same angle. */
  lemma OneAngleInOneTurn(x: real, r: real, s: real)
    requires 0.0 <= r < FullTurn && 0.0 <= s < FullTurn
    requires IsWholeTurns(x - r) && IsWholeTurns(x - s)
    ensures r == s
  {
    var m :| x - r == Turns(m);
    var n :| x - s == Turns(n);
    assert r - s == Turns(n - m);
  }

  /** `fixAngle` (MoonPhasesService.java:39-41): reduce an angle to [0, 360)
      by a remainder, one added turn, and a second remainder. The result lies
      in [0, 360) and differs from the input by whole turns. */
  function FixAngle(x: real): (r: real)
    ensures 0.0 <= r < FullTurn
    ensures IsWholeTurns(x - r)
  {
    var once := Rem360(x);
    var r := Rem360(once + FullTurn);
    assert -FullTurn == Turns(-1);
    WholeTurnsAdd(x - once, once + FullTurn - r);
    WholeTurnsAdd(x - once + (once + FullTurn - r), -FullTurn);
    r
  }

  /** The normalised angle is the only angle in [0, 360) a whole number of
      turns away from the input. */
  lemma FixAngleUnique(x: real, r: real)
    requires 0.0 <= r < FullTurn
    requires IsWholeTurns(x - r)
    ensures FixAngle(x) == r
  {
    OneAngleInOneTurn(x, FixAngle(x), r);
  }

  /** An angle already in [0, 360) is returned unchanged. */
  lemma FixAngleKeepsNormalised(x: real)
    requires 0.0 <= x < FullTurn
    ensures FixAngle(x) == x
  {
    assert x - x == Turns(0);
    FixAngleUnique(x, x);
  }

  /** Normalising twice is normalising once. */
  lemma FixAngleIdempotent(x: real)
    ensures FixAngle(FixAngle(x)) == FixAngle(x)
  {
    FixAngleKeepsNormalised(FixAngle(x));
  }

  /** Adding any whole number of turns, positive or negative, does not change
      the normalised angle. */
  lemma FixAnglePeriodic(x: real, k: int)
    ensures FixAngle(x + Turns(k)) == FixAngle(x)
  {
    var r := FixAngle(x);
    var m :| x - r == Turns(m);
    assert x + Turns(k) - r == Turns(m + k);
    FixAngleUnique(x + Turns(k), r);
  }

  // ---------------------------------------------------------------------------
  // Time and units
  // ---------------------------------------------------------------------------

  const SecondsPerDay: real := 86400.0
  /** Julian Day of the Unix epoch, 1970-01-01T00:00:00Z. */
  const UnixEpochJulianDay: real := 2440587.5
  /** Julian Day of the model's epoch "1980 January 0.0". */
  const EpochJulianDay: real := 2444238.5

  /** Days since the model's epoch for a Unix timestamp in seconds
      (MoonPhasesService.java:60): the timestamp's Julian Day less the epoch's. */
  function DaysSinceEpoch1980(unixSeconds: int): real {
    (unixSeconds as real / SecondsPerDay + UnixEpochJulianDay) - EpochJulianDay
  }

  /** The two Julian Day constants differ by exactly 3651 days, so the epoch
      falls 3651 days after the Unix epoch, at timestamp 315446400. */
  lemma DaysSinceEpochClosedForm(unixSeconds: int)
    ensures DaysSinceEpoch1980(unixSeconds) == unixSeconds as real / SecondsPerDay - 3651.0
    ensures DaysSinceEpoch1980(315446400) == 0.0
  {
  }

  /** A later timestamp is further from the epoch, and whole days of seconds
      add whole days. */
  lemma DaysSinceEpochIncreasing(earlier: int, later: int)
    requires earlier < later
    ensures DaysSinceEpoch1980(earlier) < DaysSinceEpoch1980(later)
    ensures (later - earlier) % 86400 == 0 ==>
      DaysSinceEpoch1980(later) - DaysSinceEpoch1980(earlier) == ((later - earlier) / 86400) as real
  {
  }

  /** The timestamp is recovered from the day count. */
  lemma DaysSinceEpochInverse(unixSeconds: int)
    ensures (DaysSinceEpoch1980(unixSeconds) + EpochJulianDay - UnixEpochJulianDay) * SecondsPerDay
            == unixSeconds as real
  {
  }

  /** Java's `Math.PI`. */
  const Pi: real := 3.141592653589793

  /** Degrees to radians by the factor `TO_RADIANS = PI / 180`
      (MoonPhasesService.java:31, 103). */
  function ToRadians(degrees: real): real {
    degrees * (Pi / 180.0)
  }

  /** Radians to degrees by the factor `180 / PI` (MoonPhasesService.java:112). */
  function ToDegrees(radians: real): real {
    radians * (180.0 / Pi)
  }

  /** Over exact reals the two conversions are inverse to each other. */
  lemma DegreesRadiansRoundTrip(degrees: real, radians: real)
    ensures ToDegrees(ToRadians(degrees)) == degrees
    ensures ToRadians(ToDegrees(radians)) == radians
  {
  }

  // ---------------------------------------------------------------------------
  // Classification
  // ---------------------------------------------------------------------------

  /** The pair the service returns: a moon symbol and a lower-case label
      (`new MoonPhase(emoji, label)` at MoonPhasesService.java:119-135). */
  datatype PhaseReading = PhaseReading(symbol: string, name: string)

  const NewMoonReading := PhaseReading("\U{1F311}", "new moon")
  const WaxingCrescentReading := PhaseReading("\U{1F312}", "waxing crescent")
  const FirstQuarterReading := PhaseReading("\U{1F313}", "first quarter")
  const WaxingGibbousReading := PhaseReading("\U{1F314}", "waxing gibbous")
  const FullReading := PhaseReading("\U{1F315}", "full")
  const WaningGibbousReading := PhaseReading("\U{1F316}", "waning gibbous")
  const LastQuarterReading := PhaseReading("\U{1F317}", "last quarter")
  const WaningCrescentReading := PhaseReading("\U{1F318}", "waning crescent")
  const NewMoonApproachingReading := PhaseReading("\U{1F311}", "new moon approaching")

  /** The nine branches of the cascade, in the order they are tested. */
  const Branches: seq<PhaseReading> := [
    NewMoonReading, WaxingCrescentReading, FirstQuarterReading,
    WaxingGibbousReading, FullReading, WaningGibbousReading,
    LastQuarterReading, WaningCrescentReading, NewMoonApproachingReading
  ]

  /** The `if / else if` cascade of MoonPhasesService.java:118-136 on a
      normalised phase angle in degrees. */
  function Classify(degrees: real): PhaseReading {
    if degrees < 22.5 then NewMoonReading
    else if degrees < 67.5 then WaxingCrescentReading
    else if degrees < 112.5 then FirstQuarterReading
    else if degrees < 157.5 then WaxingGibbousReading
    else if degrees < 202.5 then FullReading
    else if degrees < 247.5 then WaningGibbousReading
    else if degrees < 292.5 then LastQuarterReading
    else if degrees < 337.5 then WaningCrescentReading
    else NewMoonApproachingReading
  }

  /** Bin `k` of the partition of [0, 360): [0, 22.5) for the first,
      [337.5, 360) for the last, and 45-degree bins centred on multiples of
      45 degrees in between. Lower bounds are inclusive, upper bounds exclusive. */
  function LowerEdge(k: nat): real
    requires k < |Branches|
  {
    if k == 0 then 0.0 else 22.5 + 45.0 * (k - 1) as real
  }

  function UpperEdge(k: nat): real
    requires k < |Branches|
  {
    if k == |Branches| - 1 then FullTurn else 22.5 + 45.0 * k as real
  }

  predicate InBin(degrees: real, k: nat)
    requires k < |Branches|
  {
    LowerEdge(k) <= degrees < UpperEdge(k)
  }

  /** The bin of an angle, computed arithmetically from the 45-degree grid
      rather than by the cascade; angles below 0 or from 360 up are clamped to
      the first or last bin. Every angle in [0, 360) lies in its bin. */
  function BinIndex(degrees: real): (k: nat)
    ensures k < |Branches|
    ensures 0.0 <= degrees < FullTurn ==> InBin(degrees, k)
  {
    if degrees < 22.5 then 0
    else
      var k := ((degrees - 22.5) / 45.0).Floor + 1;
      if k > 8 then 8 else k
  }

  /** The bins partition [0, 360): an angle lies in bin `k` exactly when `k`
      is its bin index, so every angle lies in one bin and in no other. */
  lemma BinsPartition(degrees: real, k: nat)
    requires 0.0 <= degrees < FullTurn
    requires k < |Branches|
    ensures InBin(degrees, k) <==> k == BinIndex(degrees)
  {
  }

  /** The cascade returns the reading of the bin its argument falls in, for
      every angle, normalised or not. */
  lemma ClassifySelectsBin(degrees: real)
    ensures Classify(degrees) == Branches[BinIndex(degrees)]
  {
  }

  /** Every normalised angle selects exactly one branch: the cascade returns
      branch `k` if and only if the angle lies in bin `k`. */
  lemma ClassifyIffInBin(degrees: real, k: nat)
    requires 0.0 <= degrees < FullTurn
    requires k < |Branches|
    ensures Classify(degrees) == Branches[k] <==> InBin(degrees, k)
  {
    ClassifySelectsBin(degrees);
    BinsPartition(degrees, k);
    BranchReadingsDistinct();
  }

  /** Bin edges: each threshold belongs to the bin above it. */
  lemma ClassifyAtThresholds()
    ensures Classify(22.5) == WaxingCrescentReading
    ensures Classify(337.5) == NewMoonApproachingReading
    ensures forall k :: 1 <= k < |Branches| ==> Classify(LowerEdge(k)) == Branches[k]
  {
    forall k | 1 <= k < |Branches|
      ensures Classify(LowerEdge(k)) == Branches[k]
    {
      ClassifyIffInBin(LowerEdge(k), k);
    }
  }

  /** A larger angle never selects an earlier branch, so the readings follow
      the order of `Branches` as the angle grows. */
  lemma ClassifyMonotone(smaller: real, larger: real)
    requires smaller <= larger
    ensures BinIndex(smaller) <= BinIndex(larger)
    ensures Classify(smaller) == Branches[BinIndex(smaller)]
    ensures Classify(larger) == Branches[BinIndex(larger)]
  {
    ClassifySelectsBin(smaller);
    ClassifySelectsBin(larger);
  }

  /** The first and last branches share the new-moon symbol U+1F311 under
      different labels; the other seven symbols are pairwise distinct and
      differ from it, and no two branches share a label. */
  lemma BranchReadingsDistinct()
    ensures Branches[0].symbol == Branches[8].symbol == "\U{1F311}"
    ensures Branches[0].name != Branches[8].name
    ensures forall i, j :: 0 <= i < j < 8 ==> Branches[i].symbol != Branches[j].symbol
    ensures forall i, j :: 0 <= i < j < |Branches| ==> Branches[i].name != Branches[j].name
  {
  }

  // ---------------------------------------------------------------------------
  // The pipeline of `moonPhaseAtUnixTimestamp`
  // ---------------------------------------------------------------------------

  /** `calculateMoonPhaseRadians` (MoonPhasesService.java:56-104): the
      elongation in degrees at the timestamp's day count, returned in radians.
      `elongation` stands for the solar and lunar formulae of lines 64-101. */
  function CalculateMoonPhaseRadians(unixSeconds: int, elongation: real -> real): (radians: real)
    ensures ToDegrees(radians) == elongation(DaysSinceEpoch1980(unixSeconds))
  {
    var degrees := elongation(DaysSinceEpoch1980(unixSeconds));
    DegreesRadiansRoundTrip(degrees, 0.0);
    ToRadians(degrees)
  }

  /** `moonPhaseAtUnixTimestamp` (MoonPhasesService.java:110-137): back to
      degrees, normalise, classify. The detour through radians is the identity,
      so the result is the cascade applied to the normalised elongation, and it
      is one of the nine branches. */
  function MoonPhaseAtUnixTimestamp(unixSeconds: int, elongation: real -> real): (reading: PhaseReading)
    ensures reading == Classify(FixAngle(elongation(DaysSinceEpoch1980(unixSeconds))))
    ensures reading in Branches
  {
    var degrees := ToDegrees(CalculateMoonPhaseRadians(unixSeconds, elongation));
    var normalised := FixAngle(degrees);
    ClassifySelectsBin(normalised);
    Classify(normalised)
  }

  /** Two elongation models that differ by whole turns at a timestamp report the
      same reading there: only the angle modulo 360 degrees matters. */
  lemma PhaseIgnoresWholeTurns(unixSeconds: int, elongation: real -> real, other: real -> real, k: int)
    requires other(DaysSinceEpoch1980(unixSeconds)) == elongation(DaysSinceEpoch1980(unixSeconds)) + Turns(k)
    ensures MoonPhaseAtUnixTimestamp(unixSeconds, other) == MoonPhaseAtUnixTimestamp(unixSeconds, elongation)
  {
    FixAnglePeriodic(elongation(DaysSinceEpoch1980(unixSeconds)), k);
  }

  /** Across the 0/360 wrap-around, angles just below and just above 0 degrees
      give the same symbol but different labels ("new moon approaching" and
      "new moon"). */
  lemma WrapAroundSharesSymbol()
    ensures Classify(FixAngle(-0.1)).symbol == Classify(FixAngle(0.1)).symbol
    ensures Classify(FixAngle(-0.1)).name == "new moon approaching"
    ensures Classify(FixAngle(0.1)).name == "new moon"
  {
    FixAnglePeriodic(-0.1 + FullTurn, -1);
    FixAngleKeepsNormalised(359.9);
    FixAngleKeepsNormalised(0.1);
  }
}
