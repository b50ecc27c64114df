/** The eight named phases of the Moon's cycle, each with a fixed display name
    (`MoonPhase.java`). A Java enum constant is an immutable value whose final
    `displayName` is set once from the literal at its declaration, so here it is a
    datatype whose display name is a function of the constructor. */
module MoonPhaseEnum {

  /** The constants in their declaration order, which is also the order of the
      lunar cycle. */
  datatype MoonPhase =
    | NewMoon
    | WaxingCrescent
    | FirstQuarter
    | WaxingGibbous
    | FullMoon
    | WaningGibbous
    | LastQuarter
    | WaningCrescent
  {
    /** Position of the constant in the declaration (Java's `ordinal()`). */
    function Ordinal(): (i: nat)
      ensures i < 8
    {
      match this
      case NewMoon => 0
      case WaxingCrescent => 1
      case FirstQuarter => 2
      case WaxingGibbous => 3
      case FullMoon => 4
      case WaningGibbous => 5
      case LastQuarter => 6
      case WaningCrescent => 7
    }

    /** The human-readable name given at the constant's declaration and
        returned by `getDisplayName`. */
    function DisplayName(): string {
      match this
      case NewMoon => "New Moon"
      case WaxingCrescent => "Waxing Crescent"
      case FirstQuarter => "First Quarter"
      case WaxingGibbous => "Waxing Gibbous"
      case FullMoon => "Full Moon"
      case WaningGibbous => "Waning Gibbous"
      case LastQuarter => "Last Quarter"
      case WaningCrescent => "Waning Crescent"
    }

    /** `toString` is overridden to give the display name only. */
    function ToString(): string {
      DisplayName()
    }
  }

  /** All constants in declaration order (Java's `values()`): exactly eight,
      each at the index of its ordinal, none repeated and none missing. */
  function Values(): (vs: seq<MoonPhase>)
    ensures |vs| == 8
    ensures forall i :: 0 <= i < |vs| ==> vs[i].Ordinal() == i
    ensures forall p: MoonPhase :: vs[p.Ordinal()] == p
    ensures forall i, j :: 0 <= i < j < |vs| ==> vs[i] != vs[j]
  {
    [NewMoon, WaxingCrescent, FirstQuarter, WaxingGibbous,
     FullMoon, WaningGibbous, LastQuarter, WaningCrescent]
  }

  /** No two constants share a display name. */
  lemma DisplayNamesDistinct(p: MoonPhase, q: MoonPhase)
    ensures p.DisplayName() == q.DisplayName() ==> p == q
  {
  }

  /** `toString` and `getDisplayName` agree on every constant. */
  lemma ToStringIsDisplayName(p: MoonPhase)
    ensures p.ToString() == p.DisplayName()
  {
  }

  /** The display names as the tests read them back. */
  lemma DisplayNameExamples()
    ensures FullMoon.DisplayName() == "Full Moon"
    ensures FirstQuarter.DisplayName() == "First Quarter"
    ensures FullMoon.ToString() == "Full Moon"
    ensures NewMoon.ToString() == "New Moon"
  {
  }
}
