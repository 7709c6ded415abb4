/**
 * `aircraft_type_normalizer.py`: canonical display names for aircraft types.
 *
 * A manufacturer name is mapped through an alias table; a type string is
 * classified by the first rule of the ordered pattern table that fires on it,
 * and otherwise cleaned up and returned.
 */
module TypeNormalizer {
  import opened Text
  import opened TypePatterns

  /** `MANUFACTURER_ALIASES`: upper-case manufacturer spellings and their canonical names. */
  const Aliases: map<string, string> := map[
    "AIRBUS" := "Airbus",
    "AIRBUS INDUSTRIE" := "Airbus",
    "THE BOEING COMPANY" := "Boeing",
    "BOEING" := "Boeing",
    "BOEING COMPANY" := "Boeing",
    "EMBRAER" := "Embraer",
    "EMBRAER S.A." := "Embraer",
    "EMBRAER-EMPRESA BRASILEIRA DE AERONAUTICA" := "Embraer",
    "BOMBARDIER" := "Bombardier",
    "BOMBARDIER INC" := "Bombardier",
    "BOMBARDIER INC." := "Bombardier",
    "CESSNA" := "Cessna",
    "CESSNA AIRCRAFT" := "Cessna",
    "CESSNA AIRCRAFT COMPANY" := "Cessna",
    "TEXTRON AVIATION" := "Cessna",
    "TEXTRON AVIATION INC" := "Cessna",
    "TEXTRON AVIATION INC." := "Cessna",
    "PIPER" := "Piper",
    "PIPER AIRCRAFT" := "Piper",
    "PIPER AIRCRAFT INC" := "Piper",
    "PIPER AIRCRAFT, INC." := "Piper",
    "CIRRUS" := "Cirrus",
    "CIRRUS DESIGN" := "Cirrus",
    "CIRRUS DESIGN CORP" := "Cirrus",
    "CIRRUS DESIGN CORPORATION" := "Cirrus",
    "BEECH" := "Beechcraft",
    "BEECHCRAFT" := "Beechcraft",
    "BEECH AIRCRAFT" := "Beechcraft",
    "BEECH AIRCRAFT CORP" := "Beechcraft",
    "HAWKER BEECHCRAFT" := "Beechcraft",
    "HAWKER BEECHCRAFT CORP" := "Beechcraft",
    "RAYTHEON AIRCRAFT" := "Beechcraft",
    "RAYTHEON AIRCRAFT COMPANY" := "Beechcraft",
    "GULFSTREAM" := "Gulfstream",
    "GULFSTREAM AEROSPACE" := "Gulfstream",
    "GULFSTREAM AEROSPACE CORP" := "Gulfstream",
    "DASSAULT" := "Dassault",
    "DASSAULT AVIATION" := "Dassault",
    "DASSAULT-BREGUET" := "Dassault",
    "LEARJET" := "Learjet",
    "LEARJET INC" := "Learjet",
    "MCDONNELL DOUGLAS" := "McDonnell Douglas",
    "MCDONNELL DOUGLAS CORPORATION" := "McDonnell Douglas",
    "LOCKHEED" := "Lockheed",
    "LOCKHEED MARTIN" := "Lockheed",
    "LOCKHEED CORPORATION" := "Lockheed",
    "ATR" := "ATR",
    "ATR - GIE AVIONS DE TRANSPORT REGIONAL" := "ATR",
    "AVIONS DE TRANSPORT REGIONAL" := "ATR",
    "DE HAVILLAND" := "De Havilland",
    "DE HAVILLAND CANADA" := "De Havilland Canada",
    "DIAMOND" := "Diamond",
    "DIAMOND AIRCRAFT" := "Diamond",
    "DIAMOND AIRCRAFT INDUSTRIES" := "Diamond",
    "MOONEY" := "Mooney",
    "MOONEY AIRCRAFT" := "Mooney",
    "MOONEY INTERNATIONAL" := "Mooney",
    "PILATUS" := "Pilatus",
    "PILATUS AIRCRAFT" := "Pilatus",
    "PILATUS AIRCRAFT LTD" := "Pilatus",
    "ROBINSON" := "Robinson",
    "ROBINSON HELICOPTER" := "Robinson",
    "ROBINSON HELICOPTER COMPANY" := "Robinson",
    "BELL" := "Bell",
    "BELL HELICOPTER" := "Bell",
    "BELL TEXTRON" := "Bell",
    "SIKORSKY" := "Sikorsky",
    "SIKORSKY AIRCRAFT" := "Sikorsky",
    "EUROCOPTER" := "Airbus Helicopters",
    "AIRBUS HELICOPTERS" := "Airbus Helicopters",
    "LEONARDO" := "Leonardo",
    "LEONARDO HELICOPTERS" := "Leonardo",
    "AGUSTA" := "Leonardo",
    "AGUSTAWESTLAND" := "Leonardo",
    "DAHER" := "Daher",
    "DAHER-SOCATA" := "Daher",
    "SOCATA" := "Daher"
  ]

  /**
   * `normalize_manufacturer`: nothing for a missing or empty name; otherwise
   * the alias of the upper-cased, stripped name, or the stripped name itself.
   */
  function NormalizeManufacturer(m: Option<string>): (r: Option<string>)
    ensures r.None? <==> !Truthy(m)
  {
    if !Truthy(m) then None
    else
      var key := Strip(Upper(m.value));
      if key in Aliases then Some(Aliases[key]) else Some(Strip(m.value))
  }

  /** Python's f-string rendering of an optional string. */
  function Show(o: Option<string>): string {
    if o.Some? then o.value else "None"
  }

  /** `aircraft_type or icao_type or ""`: the string the rules are tried on. */
  function Subject(atype: Option<string>, icao: Option<string>): (t: string)
    ensures t == "" <==> !Truthy(atype) && !Truthy(icao)
    ensures t != "" ==> Or(atype, icao) == Some(t)
  {
    if Truthy(atype) then atype.value else if Truthy(icao) then icao.value else ""
  }

  /**
   * The scan of the rule table from position `j` with its early return: the
   * index of the first rule that fires, if any.
   */
  function FirstMatch(rules: seq<Rule>, s: string, j: nat): (r: Option<nat>)
    requires j <= |rules|
    ensures r.Some? ==> j <= r.value < |rules| && Fires(rules[r.value], s)
    ensures r.Some? ==> forall i :: j <= i < r.value ==> !Fires(rules[i], s)
    ensures r.None? ==> forall i :: j <= i < |rules| ==> !Fires(rules[i], s)
    decreases |rules| - j
  {
    if j == |rules| then None
    else if Fires(rules[j], s) then Some(j)
    else FirstMatch(rules, s, j + 1)
  }

  /** `normalize_aircraft_type(manufacturer, aircraft_type, icao_type)`. */
  function NormalizeAircraftType(mfr: Option<string>, atype: Option<string>, icao: Option<string>): string {
    var normMfr := NormalizeManufacturer(mfr);
    var t := Subject(atype, icao);
    match FirstMatch(Rules, t, 0)
    case Some(k) =>
      var finalMfr := Or(Some(Rules[k].mfrOverride), normMfr);
      if Truthy(finalMfr) then finalMfr.value + " " + Rules[k].canonical else Rules[k].canonical
    case None =>
      if Truthy(normMfr) && t != "" then normMfr.value + " " + Collapse(t)
      else if t != "" then Collapse(t)
      else if Truthy(icao) then (if Truthy(normMfr) then Show(normMfr) + " " + Show(icao) else Show(icao))
      else "Unknown"
  }

  /** `normalize_type_display`: split "MANUFACTURER MODEL" at the first whitespace run and normalize. */
  function NormalizeTypeDisplay(td: string): string {
    if td == "" || td == "Unknown" then "Unknown"
    else
      var parts := SplitOnce(td);
      if |parts| == 2 then NormalizeAircraftType(Some(parts[0]), Some(parts[1]), None)
      else NormalizeAircraftType(None, Some(td), None)
  }

  // ---------------------------------------------------------------------------
  // The manufacturer alias table
  // ---------------------------------------------------------------------------

  /** Alias lookup ignores letter case: two spellings that upper-case alike normalize alike. */
  lemma ManufacturerIgnoresCase(a: string, b: string)
    requires a != "" && b != "" && Upper(a) == Upper(b)
    requires Strip(Upper(a)) in Aliases
    ensures NormalizeManufacturer(Some(a)) == NormalizeManufacturer(Some(b))
  {
  }

  /** Surrounding whitespace never changes the normalized manufacturer (unless nothing else is left). */
  lemma ManufacturerIgnoresPadding(a: string)
    requires Strip(a) != ""
    ensures NormalizeManufacturer(Some(a)) == NormalizeManufacturer(Some(Strip(a)))
  {
    StripUpper(a);
    StripIdempotent(a);
    StripIdempotent(Upper(a));
    StripUpper(Strip(a));
  }

  // ---------------------------------------------------------------------------
  // The rule scan
  // ---------------------------------------------------------------------------

  /** The scan returns `k` exactly when rule `k` fires and no earlier rule does. */
  lemma FirstMatchIs(rules: seq<Rule>, s: string, k: nat)
    requires k < |rules| && Fires(rules[k], s)
    requires forall i :: 0 <= i < k ==> !Fires(rules[i], s)
    ensures FirstMatch(rules, s, 0) == Some(k)
  {
  }

  /** Rules are case-insensitive: the scan picks the same rule for a subject and its upper-cased form. */
  lemma {:induction false} ScanIgnoresCase(rules: seq<Rule>, s: string, j: nat)
    requires j <= |rules|
    ensures FirstMatch(rules, s, j) == FirstMatch(rules, Upper(s), j)
    decreases |rules| - j
  {
    if j < |rules| {
      UpperIdempotent(s);
      assert Fires(rules[j], s) == Fires(rules[j], Upper(s));
      ScanIgnoresCase(rules, s, j + 1);
    }
  }

  /**
   * The output for a subject some rule fires on: "{override} {canonical}" of
   * the first such rule. Every override is non-empty, so the manufacturer
   * argument plays no part.
   */
  lemma MatchedType(mfr: Option<string>, atype: Option<string>, icao: Option<string>, k: nat)
    requires FirstMatch(Rules, Subject(atype, icao), 0) == Some(k)
    ensures NormalizeAircraftType(mfr, atype, icao) == Rules[k].mfrOverride + " " + Rules[k].canonical
  {
    TableGood();
    assert GoodRule(Rules[k]);
  }

  /** On a matched subject the result does not depend on the manufacturer. */
  lemma MatchIgnoresManufacturer(m1: Option<string>, m2: Option<string>, atype: Option<string>, icao: Option<string>)
    requires FirstMatch(Rules, Subject(atype, icao), 0).Some?
    ensures NormalizeAircraftType(m1, atype, icao) == NormalizeAircraftType(m2, atype, icao)
  {
    var k := FirstMatch(Rules, Subject(atype, icao), 0).value;
    MatchedType(m1, atype, icao, k);
    MatchedType(m2, atype, icao, k);
  }

  /** No rule fires on an empty or all-whitespace subject. */
  lemma NoRuleFiresOnBlank(s: string)
    requires AllSpace(s)
    ensures FirstMatch(Rules, s, 0) == None
  {
    TableGood();
    forall i | 0 <= i < |Rules| ensures !Fires(Rules[i], s) {
      assert GoodRule(Rules[i]);
      SolidRuleSilentOnBlank(Rules[i], s);
    }
  }

  /**
   * With no rule firing on a non-empty subject, the result is the subject with
   * its whitespace runs collapsed to single spaces and stripped, after the
   * normalized manufacturer and a space when that is non-empty.
   */
  lemma UnmatchedType(mfr: Option<string>, atype: Option<string>, icao: Option<string>)
    requires FirstMatch(Rules, Subject(atype, icao), 0) == None && Subject(atype, icao) != ""
    ensures var n := NormalizeManufacturer(mfr);
      NormalizeAircraftType(mfr, atype, icao)
      == (if Truthy(n) then n.value + " " else "") + Collapse(Subject(atype, icao))
    ensures Tidy(Collapse(Subject(atype, icao)))
    ensures Visible(Collapse(Subject(atype, icao))) == Visible(Subject(atype, icao))
  {
    CollapseSpec(Subject(atype, icao));
  }

  /** With neither a type nor an ICAO code the result is "Unknown", whatever the manufacturer. */
  lemma NoTypeIsUnknown(mfr: Option<string>, atype: Option<string>, icao: Option<string>)
    requires !Truthy(atype) && !Truthy(icao)
    ensures NormalizeAircraftType(mfr, atype, icao) == "Unknown"
  {
    NoRuleFiresOnBlank("");
  }

  /**
   * The ICAO code only ever acts as the subject: the branch that would print
   * it on its own is unreachable, so passing it as the type gives the same
   * answer.
   */
  lemma IcaoOnlyAsSubject(mfr: Option<string>, atype: Option<string>, icao: Option<string>)
    ensures NormalizeAircraftType(mfr, atype, icao) == NormalizeAircraftType(mfr, Or(atype, icao), None)
  {
    var t := Subject(atype, icao);
    if t == "" {
      NoTypeIsUnknown(mfr, atype, icao);
      NoTypeIsUnknown(mfr, Or(atype, icao), None);
    } else {
      assert Subject(Or(atype, icao), None) == t;
    }
  }

  /**
   * A non-empty subject made only of whitespace is returned as the empty
   * string, or as the manufacturer followed by a space.
   */
  lemma BlankType(mfr: Option<string>, atype: Option<string>, icao: Option<string>)
    requires Subject(atype, icao) != "" && AllSpace(Subject(atype, icao))
    ensures var n := NormalizeManufacturer(mfr);
      NormalizeAircraftType(mfr, atype, icao) == (if Truthy(n) then n.value + " " else "")
  {
    NoRuleFiresOnBlank(Subject(atype, icao));
    CollapseEmpty(Subject(atype, icao));
    UnmatchedType(mfr, atype, icao);
  }

  // ---------------------------------------------------------------------------
  // normalize_type_display
  // ---------------------------------------------------------------------------

  /** `normalize_type_display` maps "" and "Unknown" to "Unknown". */
  lemma TypeDisplayUnknown(td: string)
    requires td == "" || td == "Unknown"
    ensures NormalizeTypeDisplay(td) == "Unknown"
  {
  }

  /** A single (possibly padded) word is normalized as a type with no manufacturer. */
  lemma TypeDisplayOneWord(p: string, w: string, q: string)
    requires AllSpace(p) && AllSpace(q) && w != [] && p + w + q != "Unknown"
    requires forall i :: 0 <= i < |w| ==> !IsSpace(w[i])
    ensures NormalizeTypeDisplay(p + w + q) == NormalizeAircraftType(None, Some(p + w + q), None)
  {
    var td := p + w + q;
    SplitOnceOneWord(p, w, q);
    assert td != "" by {
      assert |td| >= |w|;
    }
    assert |SplitOnce(td)| == 1;
  }

  /**
   * A first word, a whitespace run and a remainder are normalized as
   * (manufacturer, model); the remainder keeps any trailing whitespace.
   */
  lemma TypeDisplayTwoParts(p: string, w: string, m: string, rest: string)
    requires AllSpace(p) && AllSpace(m) && w != [] && m != [] && rest != [] && !IsSpace(rest[0])
    requires forall i :: 0 <= i < |w| ==> !IsSpace(w[i])
    ensures NormalizeTypeDisplay(p + w + m + rest) == NormalizeAircraftType(Some(w), Some(rest), None)
  {
    var td := p + w + m + rest;
    SplitOnceTwoParts(p, w, m, rest);
    assert td != "Unknown" by {
      UnknownIsOneWord();
      assert td[|p| + |w|] == m[0];
    }
    assert NormalizeTypeDisplay(td) == NormalizeAircraftType(Some(w), Some(rest), None);
  }

  lemma UnknownIsOneWord()
    ensures forall i :: 0 <= i < |"Unknown"| ==> !IsSpace("Unknown"[i])
  {
    assert NoSpaceFrom("Unknown", 0);
    NoSpaceFromAll("Unknown", 0);
  }
}
