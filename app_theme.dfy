/**
 * Settings/AppTheme.swift declares the two theme enumerations a second time,
 * case for case, beside a colour-asset initialiser that is not modelled.
 * This module models that second declaration and proves that it agrees with
 * the one in ThemeOptions: the same cases in the same order, the same raw
 * values, and the same parse of every string.
 */
module AppTheme {
  import opened Optional
  import ThemeOptions

  datatype ThemeBackground = Dark | System | Light

  datatype ThemeAccent = Purple | Blue

  /** `allCases` of each enumeration, in declaration order. */
  const AllBackgrounds: seq<ThemeBackground> := [Dark, System, Light]
  const AllAccents: seq<ThemeAccent> := [Purple, Blue]

  function BackgroundRawValue(c: ThemeBackground): (r: string)
    ensures r == "dark" || r == "system" || r == "light"
    ensures (r == "dark" <==> c == Dark) && (r == "system" <==> c == System) && (r == "light" <==> c == Light)
  {
    match c
    case Dark => "dark"
    case System => "system"
    case Light => "light"
  }

  /** `ThemeBackground(rawValue:)`. */
  function ParseBackground(raw: string): (r: Option<ThemeBackground>)
    ensures r.Some? ==> BackgroundRawValue(r.value) == raw
    ensures r.None? ==> forall c :: BackgroundRawValue(c) != raw
  {
    if raw == "dark" then Some(Dark)
    else if raw == "system" then Some(System)
    else if raw == "light" then Some(Light)
    else None
  }

  function AccentRawValue(c: ThemeAccent): (r: string)
    ensures r == "purple" || r == "blue"
    ensures (r == "purple" <==> c == Purple) && (r == "blue" <==> c == Blue)
  {
    match c
    case Purple => "purple"
    case Blue => "blue"
  }

  /** `ThemeAccent(rawValue:)`. */
  function ParseAccent(raw: string): (r: Option<ThemeAccent>)
    ensures r.Some? ==> AccentRawValue(r.value) == raw
    ensures r.None? ==> forall c :: AccentRawValue(c) != raw
  {
    if raw == "purple" then Some(Purple)
    else if raw == "blue" then Some(Blue)
    else None
  }

  /** The case of the ThemeOptions declaration with the same name. */
  function BackgroundAsOption(c: ThemeBackground): (r: ThemeOptions.ThemeBackground)
    ensures ThemeOptions.BackgroundRawValue(r) == BackgroundRawValue(c)
  {
    match c
    case Dark => ThemeOptions.Dark
    case System => ThemeOptions.System
    case Light => ThemeOptions.Light
  }

  function AccentAsOption(c: ThemeAccent): (r: ThemeOptions.ThemeAccent)
    ensures ThemeOptions.AccentRawValue(r) == AccentRawValue(c)
  {
    match c
    case Purple => ThemeOptions.Purple
    case Blue => ThemeOptions.Blue
  }

  /** Lifts the case correspondence to optional parse results. */
  function BackgroundOptionAsOption(o: Option<ThemeBackground>): Option<ThemeOptions.ThemeBackground> {
    match o
    case None => None
    case Some(c) => Some(BackgroundAsOption(c))
  }

  function AccentOptionAsOption(o: Option<ThemeAccent>): Option<ThemeOptions.ThemeAccent> {
    match o
    case None => None
    case Some(c) => Some(AccentAsOption(c))
  }

  /** This declaration has exactly `dark`, `system`, `light`, in that order. */
  lemma BackgroundCases()
    ensures |AllBackgrounds| == 3
    ensures forall c: ThemeBackground :: c in AllBackgrounds
    ensures forall i, j :: 0 <= i < j < |AllBackgrounds| ==> AllBackgrounds[i] != AllBackgrounds[j]
    ensures BackgroundRawValue(AllBackgrounds[0]) == "dark"
    ensures BackgroundRawValue(AllBackgrounds[1]) == "system"
    ensures BackgroundRawValue(AllBackgrounds[2]) == "light"
  {
    forall c: ThemeBackground ensures c in AllBackgrounds {
      match c
      case Dark => assert AllBackgrounds[0] == c;
      case System => assert AllBackgrounds[1] == c;
      case Light => assert AllBackgrounds[2] == c;
    }
  }

  /** This declaration has exactly `purple` and `blue`, in that order. */
  lemma AccentCases()
    ensures |AllAccents| == 2
    ensures forall c: ThemeAccent :: c in AllAccents
    ensures AllAccents[0] != AllAccents[1]
    ensures AccentRawValue(AllAccents[0]) == "purple"
    ensures AccentRawValue(AllAccents[1]) == "blue"
  {
    forall c: ThemeAccent ensures c in AllAccents {
      match c
      case Purple => assert AllAccents[0] == c;
      case Blue => assert AllAccents[1] == c;
    }
  }

  /** Round trip through the raw value, and injectivity of the raw value. */
  lemma BackgroundCodec(a: ThemeBackground, b: ThemeBackground)
    ensures ParseBackground(BackgroundRawValue(a)) == Some(a)
    ensures BackgroundRawValue(a) == BackgroundRawValue(b) ==> a == b
  {
  }

  lemma AccentCodec(a: ThemeAccent, b: ThemeAccent)
    ensures ParseAccent(AccentRawValue(a)) == Some(a)
    ensures AccentRawValue(a) == AccentRawValue(b) ==> a == b
  {
  }

  /** Only an exact case name parses. */
  lemma ParseExact(raw: string)
    ensures ParseBackground(raw).Some? <==> raw == "dark" || raw == "system" || raw == "light"
    ensures ParseAccent(raw).Some? <==> raw == "purple" || raw == "blue"
  {
  }

  /**
   * The two declarations agree: the correspondence of cases is a bijection
   * that keeps the declaration order, and both parse every string alike.
   */
  lemma {:induction false} DeclarationsAgree(raw: string)
    ensures forall i :: 0 <= i < |AllBackgrounds| ==>
      BackgroundAsOption(AllBackgrounds[i]) == ThemeOptions.AllBackgrounds[i]
    ensures forall i :: 0 <= i < |AllAccents| ==>
      AccentAsOption(AllAccents[i]) == ThemeOptions.AllAccents[i]
    ensures |AllBackgrounds| == |ThemeOptions.AllBackgrounds| && |AllAccents| == |ThemeOptions.AllAccents|
    ensures BackgroundOptionAsOption(ParseBackground(raw)) == ThemeOptions.ParseBackground(raw)
    ensures AccentOptionAsOption(ParseAccent(raw)) == ThemeOptions.ParseAccent(raw)
  {
  }
}
