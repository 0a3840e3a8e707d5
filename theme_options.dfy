/**
 * The two theme enumerations of Settings/ThemeOptions.swift. Both are Swift
 * enums with `String` raw values: each case's raw value is its own name, and
 * `init?(rawValue:)` accepts exactly those strings.
 */
module ThemeOptions {
  import opened Optional

  /** The background appearance a user can choose. */
  datatype ThemeBackground = Dark | System | Light

  /** The accent colour a user can choose. */
  datatype ThemeAccent = Purple | Blue

  /** `ThemeBackground.allCases`, in declaration order. */
  const AllBackgrounds: seq<ThemeBackground> := [Dark, System, Light]

  /** `ThemeAccent.allCases`, in declaration order. */
  const AllAccents: seq<ThemeAccent> := [Purple, Blue]

  /** `rawValue` of a background case. */
  function BackgroundRawValue(c: ThemeBackground): (r: string)
    ensures r == "dark" || r == "system" || r == "light"
    ensures (r == "dark" <==> c == Dark) && (r == "system" <==> c == System) && (r == "light" <==> c == Light)
  {
    match c
    case Dark => "dark"
    case System => "system"
    case Light => "light"
  }

  /** `ThemeBackground(rawValue:)`: the case whose raw value is `raw`, if any. */
  function ParseBackground(raw: string): (r: Option<ThemeBackground>)
    ensures r.Some? ==> BackgroundRawValue(r.value) == raw
    ensures r.None? ==> forall c :: BackgroundRawValue(c) != raw
  {
    if raw == "dark" then Some(Dark)
    else if raw == "system" then Some(System)
    else if raw == "light" then Some(Light)
    else None
  }

  /** `rawValue` of an accent case. */
  function AccentRawValue(c: ThemeAccent): (r: string)
    ensures r == "purple" || r == "blue"
    ensures (r == "purple" <==> c == Purple) && (r == "blue" <==> c == Blue)
  {
    match c
    case Purple => "purple"
    case Blue => "blue"
  }

  /** `ThemeAccent(rawValue:)`: the case whose raw value is `raw`, if any. */
  function ParseAccent(raw: string): (r: Option<ThemeAccent>)
    ensures r.Some? ==> AccentRawValue(r.value) == raw
    ensures r.None? ==> forall c :: AccentRawValue(c) != raw
  {
    if raw == "purple" then Some(Purple)
    else if raw == "blue" then Some(Blue)
    else None
  }

  /** There are exactly three background cases, `dark`, `system`, `light`, in that order. */
  lemma BackgroundCases()
    ensures |AllBackgrounds| == 3
    ensures forall c: ThemeBackground :: c in AllBackgrounds
    ensures forall i, j :: 0 <= i < j < |AllBackgrounds| ==> AllBackgrounds[i] != AllBackgrounds[j]
    ensures BackgroundRawValue(AllBackgrounds[0]) == "dark"
    ensures BackgroundRawValue(AllBackgrounds[1]) == "system"
    ensures BackgroundRawValue(AllBackgrounds[2]) == "light"
  {
    forall c: ThemeBackground ensures c in AllBackgrounds {
      match c
      case Dark => assert AllBackgrounds[0] == c;
      case System => assert AllBackgrounds[1] == c;
      case Light => assert AllBackgrounds[2] == c;
    }
  }

  /** There are exactly two accent cases, `purple` and `blue`, in that order. */
  lemma AccentCases()
    ensures |AllAccents| == 2
    ensures forall c: ThemeAccent :: c in AllAccents
    ensures AllAccents[0] != AllAccents[1]
    ensures AccentRawValue(AllAccents[0]) == "purple"
    ensures AccentRawValue(AllAccents[1]) == "blue"
  {
    forall c: ThemeAccent ensures c in AllAccents {
      match c
      case Purple => assert AllAccents[0] == c;
      case Blue => assert AllAccents[1] == c;
    }
  }

  /** Parsing a background's raw value gives that background back. */
  lemma BackgroundRoundTrip(c: ThemeBackground)
    ensures ParseBackground(BackgroundRawValue(c)) == Some(c)
  {
  }

  /** Parsing an accent's raw value gives that accent back. */
  lemma AccentRoundTrip(c: ThemeAccent)
    ensures ParseAccent(AccentRawValue(c)) == Some(c)
  {
  }

  /** Distinct background cases have distinct raw values. */
  lemma BackgroundRawValueInjective(a: ThemeBackground, b: ThemeBackground)
    requires BackgroundRawValue(a) == BackgroundRawValue(b)
    ensures a == b
  {
  }

  /** Distinct accent cases have distinct raw values. */
  lemma AccentRawValueInjective(a: ThemeAccent, b: ThemeAccent)
    requires AccentRawValue(a) == AccentRawValue(b)
    ensures a == b
  {
  }

  /** Parsing accepts exactly the three raw values and nothing else. */
  lemma ParseBackgroundExact(raw: string)
    ensures ParseBackground(raw).Some? <==> raw == "dark" || raw == "system" || raw == "light"
  {
  }

  /** Parsing accepts exactly the two raw values and nothing else. */
  lemma ParseAccentExact(raw: string)
    ensures ParseAccent(raw).Some? <==> raw == "purple" || raw == "blue"
  {
  }

  /** Parsing is case-sensitive: a capitalised name or any other word is not a case. */
  lemma ParseIsCaseSensitive()
    ensures ParseBackground("Dark") == None && ParseBackground("System") == None
    ensures ParseBackground("Default") == None && ParseBackground("") == None
    ensures ParseAccent("Purple") == None && ParseAccent("BLUE") == None
  {
  }
}
