/**
 * The rule table of the aircraft type normalizer and the small pattern
 * language its regular expressions are written in.
 *
 * Every pattern of the table uses only literal text, `\s*`, `.*`, the classes
 * `\d`, `[0-9]`, `[1-9]`, `[0-9A-Z]` and `[IF]`, optional pieces, alternation,
 * the anchors `(?:\s|$)` and `(?:[\s/]|$)`, and the negative look-aheads
 * `(?!WORD)` and `(?![0-9A-Z]{2})`. A pattern is kept here as a set of
 * alternatives, each a sequence of tokens: alternations (including optional
 * groups holding more than one token) are multiplied out into separate
 * alternatives, which keeps the set of matched strings unchanged. Patterns are
 * compiled with `re.IGNORECASE` and their letters are all upper case, so a
 * pattern is matched against the upper-cased subject.
 */
module TypePatterns {
  import opened Text

  datatype Cls =
    | Digit                    // `\d`, `[0-9]`
    | Span(lo: char, hi: char) // `[lo-hi]`
    | Alnum                    // `[0-9A-Z]`
    | Pair(a: char, b: char)   // `[ab]`

  datatype Tok =
    | W(w: string)             // literal text
    | OptW(w: string)          // `(?:text)?`
    | C(cls: Cls)              // one character of a class
    | OptC(cls: Cls)           // an optional character of a class
    | Ws                       // `\s*`
    | Any                      // `.*`
    | SpaceOrEnd               // `(?:\s|$)`
    | SpaceSlashOrEnd          // `(?:[\s/]|$)`
    | NotW(w: string)          // `(?!text)`
    | NotAlnum2                // `(?![0-9A-Z]{2})`

  /** One entry of the table: a pattern, the canonical model name and the manufacturer override. */
  datatype Rule = Rule(pattern: seq<seq<Tok>>, canonical: string, mfrOverride: string)

  predicate InClass(c: char, cls: Cls) {
    match cls
    case Digit => '0' <= c <= '9'
    case Span(lo, hi) => lo <= c <= hi
    case Alnum => '0' <= c <= '9' || 'A' <= c <= 'Z'
    case Pair(a, b) => c == a || c == b
  }

  /** `u[i + j..]` starts with `w[j..]`. */
  predicate WordAt(u: string, i: nat, w: string, j: nat)
    requires j <= |w|
    decreases |w| - j
  {
    j == |w| || (i + j < |u| && u[i + j] == w[j] && WordAt(u, i, w, j + 1))
  }

  /**
   * Backtracking match of the tokens `alt[k..]` against `u` from position `i`.
   * With `full`, the match must also end at the end of `u`.
   */
  predicate MatchAt(alt: seq<Tok>, k: nat, u: string, i: nat, full: bool)
    requires k <= |alt| && i <= |u|
    decreases |alt| - k, |u| - i
  {
    if k == |alt| then !full || i == |u|
    else
      match alt[k]
      case W(w) => i + |w| <= |u| && WordAt(u, i, w, 0) && MatchAt(alt, k + 1, u, i + |w|, full)
      case OptW(w) =>
        (i + |w| <= |u| && WordAt(u, i, w, 0) && MatchAt(alt, k + 1, u, i + |w|, full)) || MatchAt(alt, k + 1, u, i, full)
      case C(cls) => i < |u| && InClass(u[i], cls) && MatchAt(alt, k + 1, u, i + 1, full)
      case OptC(cls) =>
        (i < |u| && InClass(u[i], cls) && MatchAt(alt, k + 1, u, i + 1, full)) || MatchAt(alt, k + 1, u, i, full)
      case Ws => MatchAt(alt, k + 1, u, i, full) || (i < |u| && IsSpace(u[i]) && MatchAt(alt, k, u, i + 1, full))
      case Any => MatchAt(alt, k + 1, u, i, full) || (i < |u| && u[i] != '\n' && MatchAt(alt, k, u, i + 1, full))
      case SpaceOrEnd =>
        (i == |u| && MatchAt(alt, k + 1, u, i, full)) || (i < |u| && IsSpace(u[i]) && MatchAt(alt, k + 1, u, i + 1, full))
      case SpaceSlashOrEnd =>
        (i == |u| && MatchAt(alt, k + 1, u, i, full))
        || (i < |u| && (IsSpace(u[i]) || u[i] == '/') && MatchAt(alt, k + 1, u, i + 1, full))
      case NotW(w) => !(i + |w| <= |u| && WordAt(u, i, w, 0)) && MatchAt(alt, k + 1, u, i, full)
      case NotAlnum2 =>
        !(i + 2 <= |u| && InClass(u[i], Alnum) && InClass(u[i + 1], Alnum)) && MatchAt(alt, k + 1, u, i, full)
  }

  /** `re.search` for one alternative: a match starting at `i` or later. */
  predicate SearchFrom(alt: seq<Tok>, u: string, i: nat)
    requires i <= |u|
    decreases |u| - i
  {
    MatchAt(alt, 0, u, i, false) || (i < |u| && SearchFrom(alt, u, i + 1))
  }

  /** Some alternative from `pat[j..]` occurs somewhere in `u`. */
  predicate SearchAny(pat: seq<seq<Tok>>, u: string, j: nat)
    requires j <= |pat|
    decreases |pat| - j
  {
    j < |pat| && (SearchFrom(pat[j], u, 0) || SearchAny(pat, u, j + 1))
  }

  /** Some alternative from `pat[j..]` matches the whole of `u`. */
  predicate FullAny(pat: seq<seq<Tok>>, u: string, j: nat)
    requires j <= |pat|
    decreases |pat| - j
  {
    j < |pat| && (MatchAt(pat[j], 0, u, 0, true) || FullAny(pat, u, j + 1))
  }

  /** `pattern.fullmatch(s) or pattern.search(s)` for a pattern compiled with `re.IGNORECASE`. */
  predicate Fires(r: Rule, s: string) {
    var u := Upper(s);
    FullAny(r.pattern, u, 0) || SearchAny(r.pattern, u, 0)
  }

  /** A match that must reach the end of the subject is in particular a match. */
  lemma {:induction false} FullMatchIsMatch(alt: seq<Tok>, k: nat, u: string, i: nat)
    requires k <= |alt| && i <= |u|
    requires MatchAt(alt, k, u, i, true)
    ensures MatchAt(alt, k, u, i, false)
    decreases |alt| - k, |u| - i
  {
    if k < |alt| {
      match alt[k]
      case W(w) => FullMatchIsMatch(alt, k + 1, u, i + |w|);
      case OptW(w) =>
        if i + |w| <= |u| && WordAt(u, i, w, 0) && MatchAt(alt, k + 1, u, i + |w|, true) {
          FullMatchIsMatch(alt, k + 1, u, i + |w|);
        } else {
          FullMatchIsMatch(alt, k + 1, u, i);
        }
      case C(cls) => FullMatchIsMatch(alt, k + 1, u, i + 1);
      case OptC(cls) =>
        if i < |u| && InClass(u[i], cls) && MatchAt(alt, k + 1, u, i + 1, true) {
          FullMatchIsMatch(alt, k + 1, u, i + 1);
        } else {
          FullMatchIsMatch(alt, k + 1, u, i);
        }
      case Ws =>
        if MatchAt(alt, k + 1, u, i, true) {
          FullMatchIsMatch(alt, k + 1, u, i);
        } else {
          FullMatchIsMatch(alt, k, u, i + 1);
        }
      case Any =>
        if MatchAt(alt, k + 1, u, i, true) {
          FullMatchIsMatch(alt, k + 1, u, i);
        } else {
          FullMatchIsMatch(alt, k, u, i + 1);
        }
      case SpaceOrEnd =>
        if i == |u| && MatchAt(alt, k + 1, u, i, true) {
          FullMatchIsMatch(alt, k + 1, u, i);
        } else {
          FullMatchIsMatch(alt, k + 1, u, i + 1);
        }
      case SpaceSlashOrEnd =>
        if i == |u| && MatchAt(alt, k + 1, u, i, true) {
          FullMatchIsMatch(alt, k + 1, u, i);
        } else {
          FullMatchIsMatch(alt, k + 1, u, i + 1);
        }
      case NotW(w) => FullMatchIsMatch(alt, k + 1, u, i);
      case NotAlnum2 => FullMatchIsMatch(alt, k + 1, u, i);
    }
  }

  lemma {:induction false} FullAnyIsSearchAny(pat: seq<seq<Tok>>, u: string, j: nat)
    requires j <= |pat| && FullAny(pat, u, j)
    ensures SearchAny(pat, u, j)
    decreases |pat| - j
  {
    if MatchAt(pat[j], 0, u, 0, true) {
      FullMatchIsMatch(pat[j], 0, u, 0);
    } else {
      FullAnyIsSearchAny(pat, u, j + 1);
    }
  }

  /**
   * `fullmatch(s) or search(s)` is just `search(s)`: a rule fires exactly when
   * one of its alternatives occurs somewhere in the upper-cased subject.
   */
  lemma FiresIffSearch(r: Rule, s: string)
    ensures Fires(r, s) <==> SearchAny(r.pattern, Upper(s), 0)
  {
    if FullAny(r.pattern, Upper(s), 0) {
      FullAnyIsSearchAny(r.pattern, Upper(s), 0);
    }
  }

  // ---------------------------------------------------------------------------
  // Literal text a match cannot do without
  // ---------------------------------------------------------------------------

  /** The text `w` occurs in `u` at position `p` or later. */
  predicate OccursFrom(w: string, u: string, p: nat)
    decreases |u| - p
  {
    p + |w| <= |u| && (WordAt(u, p, w, 0) || OccursFrom(w, u, p + 1))
  }

  lemma {:induction false} AbsentWord(w: string, u: string, p: nat, i: nat)
    requires !OccursFrom(w, u, p) && p <= i && i + |w| <= |u|
    ensures !WordAt(u, i, w, 0)
    decreases i - p
  {
    if p < i {
      AbsentWord(w, u, p + 1, i);
    }
  }

  /**
   * An alternative with a literal token `alt[m]` (not optional) whose text
   * does not occur in the subject matches nowhere from any token before it.
   */
  lemma {:induction false} MissingWordNoMatch(alt: seq<Tok>, k: nat, u: string, i: nat, full: bool, m: nat)
    requires k <= m < |alt| && i <= |u| && alt[m].W? && !OccursFrom(alt[m].w, u, 0)
    ensures !MatchAt(alt, k, u, i, full)
    decreases |alt| - k, |u| - i
  {
    if k == m {
      if i + |alt[m].w| <= |u| {
        AbsentWord(alt[m].w, u, 0, i);
      }
    } else {
      match alt[k]
      case W(w) =>
        if i + |w| <= |u| {
          MissingWordNoMatch(alt, k + 1, u, i + |w|, full, m);
        }
      case OptW(w) =>
        if i + |w| <= |u| {
          MissingWordNoMatch(alt, k + 1, u, i + |w|, full, m);
        }
        MissingWordNoMatch(alt, k + 1, u, i, full, m);
      case C(cls) =>
        if i < |u| {
          MissingWordNoMatch(alt, k + 1, u, i + 1, full, m);
        }
      case OptC(cls) =>
        if i < |u| {
          MissingWordNoMatch(alt, k + 1, u, i + 1, full, m);
        }
        MissingWordNoMatch(alt, k + 1, u, i, full, m);
      case Ws =>
        MissingWordNoMatch(alt, k + 1, u, i, full, m);
        if i < |u| {
          MissingWordNoMatch(alt, k, u, i + 1, full, m);
        }
      case Any =>
        MissingWordNoMatch(alt, k + 1, u, i, full, m);
        if i < |u| {
          MissingWordNoMatch(alt, k, u, i + 1, full, m);
        }
      case SpaceOrEnd =>
        MissingWordNoMatch(alt, k + 1, u, i, full, m);
        if i < |u| {
          MissingWordNoMatch(alt, k + 1, u, i + 1, full, m);
        }
      case SpaceSlashOrEnd =>
        MissingWordNoMatch(alt, k + 1, u, i, full, m);
        if i < |u| {
          MissingWordNoMatch(alt, k + 1, u, i + 1, full, m);
        }
      case NotW(w) =>
        MissingWordNoMatch(alt, k + 1, u, i, full, m);
      case NotAlnum2 =>
        MissingWordNoMatch(alt, k + 1, u, i, full, m);
    }
  }

  /** Some literal token of `alt`, from `m` on, has text that does not occur in `u`. */
  predicate AltExcluded(alt: seq<Tok>, u: string, m: nat)
    decreases |alt| - m
  {
    m < |alt| && ((alt[m].W? && !OccursFrom(alt[m].w, u, 0)) || AltExcluded(alt, u, m + 1))
  }

  lemma {:induction false} ExcludedAltSilent(alt: seq<Tok>, u: string, m: nat, i: nat)
    requires AltExcluded(alt, u, m) && i <= |u|
    ensures !SearchFrom(alt, u, i)
    decreases |alt| - m, |u| - i
  {
    if alt[m].W? && !OccursFrom(alt[m].w, u, 0) {
      MissingWordNoMatch(alt, 0, u, i, false, m);
      if i < |u| {
        ExcludedAltSilent(alt, u, m, i + 1);
      }
    } else {
      ExcludedAltSilent(alt, u, m + 1, i);
    }
  }

  /** Every alternative of `pat[j..]` is excluded by a literal the subject lacks. */
  predicate PatExcluded(pat: seq<seq<Tok>>, u: string, j: nat)
    requires j <= |pat|
    decreases |pat| - j
  {
    j == |pat| || (AltExcluded(pat[j], u, 0) && PatExcluded(pat, u, j + 1))
  }

  /** A rule each of whose alternatives needs a literal the upper-cased subject lacks does not fire. */
  lemma {:induction false} ExcludedRuleSilent(pat: seq<seq<Tok>>, u: string, j: nat)
    requires j <= |pat| && PatExcluded(pat, u, j)
    ensures !SearchAny(pat, u, j)
    decreases |pat| - j
  {
    if j < |pat| {
      ExcludedAltSilent(pat[j], u, 0, 0);
      ExcludedRuleSilent(pat, u, j + 1);
    }
  }

  /** A class none of whose members is whitespace (its bounds lie within `!`..`~`). */
  predicate VisibleClass(cls: Cls) {
    match cls
    case Digit => true
    case Alnum => true
    case Span(lo, hi) => '!' <= lo && hi <= '~'
    case Pair(a, b) => '!' <= a <= '~' && '!' <= b <= '~'
  }

  /** `alt[k..]` has a token that must consume a visible character (one in `!`..`~`). */
  predicate Solid(alt: seq<Tok>, k: nat)
    requires k <= |alt|
    decreases |alt| - k
  {
    k < |alt| &&
    ((alt[k].W? && alt[k].w != [] && '!' <= alt[k].w[0] <= '~') || (alt[k].C? && VisibleClass(alt[k].cls)) || Solid(alt, k + 1))
  }

  /** Every alternative in `pat[j..]` needs a visible character. */
  predicate SolidFrom(pat: seq<seq<Tok>>, j: nat)
    requires j <= |pat|
    decreases |pat| - j
  {
    j == |pat| || (Solid(pat[j], 0) && SolidFrom(pat, j + 1))
  }

  predicate BlankFrom(u: string, i: nat) {
    forall j :: i <= j < |u| ==> IsSpace(u[j])
  }

  lemma VisibleClassNotSpace(c: char, cls: Cls)
    requires VisibleClass(cls) && InClass(c, cls)
    ensures !IsSpace(c)
  {
  }

  /** Tokens that need a visible character cannot match in a blank tail. */
  lemma {:induction false} SolidNeedsVisible(alt: seq<Tok>, k: nat, u: string, i: nat, full: bool)
    requires k <= |alt| && i <= |u|
    requires Solid(alt, k) && BlankFrom(u, i)
    ensures !MatchAt(alt, k, u, i, full)
    decreases |alt| - k, |u| - i
  {
    var t := alt[k];
    if t.W? && t.w != [] && '!' <= t.w[0] <= '~' {
    } else if t.C? && VisibleClass(t.cls) {
      if i < |u| && InClass(u[i], t.cls) {
        VisibleClassNotSpace(u[i], t.cls);
      }
    } else {
      assert Solid(alt, k + 1);
      match t
      case W(w) =>
        if i + |w| <= |u| {
          SolidNeedsVisible(alt, k + 1, u, i + |w|, full);
        }
      case OptW(w) =>
        if i + |w| <= |u| {
          SolidNeedsVisible(alt, k + 1, u, i + |w|, full);
        }
        SolidNeedsVisible(alt, k + 1, u, i, full);
      case C(cls) =>
        if i < |u| {
          SolidNeedsVisible(alt, k + 1, u, i + 1, full);
        }
      case OptC(cls) =>
        if i < |u| {
          SolidNeedsVisible(alt, k + 1, u, i + 1, full);
        }
        SolidNeedsVisible(alt, k + 1, u, i, full);
      case Ws =>
        SolidNeedsVisible(alt, k + 1, u, i, full);
        if i < |u| {
          SolidNeedsVisible(alt, k, u, i + 1, full);
        }
      case Any =>
        SolidNeedsVisible(alt, k + 1, u, i, full);
        if i < |u| {
          SolidNeedsVisible(alt, k, u, i + 1, full);
        }
      case SpaceOrEnd =>
        SolidNeedsVisible(alt, k + 1, u, i, full);
        if i < |u| {
          SolidNeedsVisible(alt, k + 1, u, i + 1, full);
        }
      case SpaceSlashOrEnd =>
        SolidNeedsVisible(alt, k + 1, u, i, full);
        if i < |u| {
          SolidNeedsVisible(alt, k + 1, u, i + 1, full);
        }
      case NotW(w) => SolidNeedsVisible(alt, k + 1, u, i, full);
      case NotAlnum2 => SolidNeedsVisible(alt, k + 1, u, i, full);
    }
  }

  lemma {:induction false} SolidSearchNeedsVisible(alt: seq<Tok>, u: string, i: nat)
    requires i <= |u| && Solid(alt, 0) && BlankFrom(u, i)
    ensures !SearchFrom(alt, u, i)
    decreases |u| - i
  {
    SolidNeedsVisible(alt, 0, u, i, false);
    if i < |u| {
      SolidSearchNeedsVisible(alt, u, i + 1);
    }
  }

  /** A rule all of whose alternatives need a visible character never fires on a blank subject. */
  lemma SolidRuleSilentOnBlank(r: Rule, s: string)
    requires SolidFrom(r.pattern, 0) && AllSpace(s)
    ensures !Fires(r, s)
  {
    var u := Upper(s);
    assert BlankFrom(u, 0) by {
      forall j | 0 <= j < |u| ensures IsSpace(u[j]) {
        UpperCharFacts(s[j]);
      }
    }
    NoAltSearches(r.pattern, u, 0);
    FiresIffSearch(r, s);
  }

  lemma {:induction false} NoAltSearches(pat: seq<seq<Tok>>, u: string, j: nat)
    requires j <= |pat| && SolidFrom(pat, j) && BlankFrom(u, 0)
    ensures !SearchAny(pat, u, j)
    decreases |pat| - j
  {
    if j < |pat| {
      SolidSearchNeedsVisible(pat[j], u, 0);
      NoAltSearches(pat, u, j + 1);
    }
  }

  /** Airbus narrowbody rules (aircraft_type_normalizer.py lines 113-127). */
  const AirbusNarrowbody: seq<Rule> := [
    Rule([[W("A"), Ws, W("318"), Any]], "A318", "Airbus"),
    Rule([[W("A"), Ws, W("319"), Any, W("N"), OptW("EO"), Any], [W("A"), Ws, W("319"), Any, W("17"), C(Span('1', '9')), W("N"), Any], [W("A"), Ws, W("319"), Any, W("18"), C(Digit), W("N"), Any]], "A319neo", "Airbus"),
    Rule([[W("A"), Ws, W("319"), Any]], "A319", "Airbus"),
    Rule([[W("A"), Ws, W("320"), Any, W("N"), OptW("EO"), Any], [W("A"), Ws, W("320"), Any, W("27"), C(Digit), W("N"), Any], [W("A"), Ws, W("320"), Any, W("251N"), Any], [W("A"), Ws, W("320"), Any, W("271N"), Any]], "A320neo", "Airbus"),
    Rule([[W("A"), Ws, W("320"), Any]], "A320", "Airbus"),
    Rule([[W("A"), Ws, W("321"), Any, W("XLR"), Any]], "A321XLR", "Airbus"),
    Rule([[W("A"), Ws, W("321"), Any, W("LR"), Any]], "A321LR", "Airbus"),
    Rule([[W("A"), Ws, W("321"), Any, W("N"), OptW("EO"), Any], [W("A"), Ws, W("321"), Any, W("25"), C(Digit), W("N"), Any], [W("A"), Ws, W("321"), Any, W("27"), C(Digit), W("N"), Any]], "A321neo", "Airbus"),
    Rule([[W("A"), Ws, W("321"), Any]], "A321", "Airbus")
  ]

  /** Airbus widebody rules (aircraft_type_normalizer.py lines 131-149). */
  const AirbusWidebody: seq<Rule> := [
    Rule([[W("A"), Ws, W("330"), Any, W("N"), OptW("EO"), Any], [W("A"), Ws, W("330"), Any, W("800N"), Any], [W("A"), Ws, W("330"), Any, W("900N"), Any], [W("A"), Ws, W("330-8"), Any], [W("A"), Ws, W("330-9"), Any]], "A330neo", "Airbus"),
    Rule([[W("A"), Ws, W("330"), Any, W("300"), Any], [W("A"), Ws, W("330-3"), Any]], "A330-300", "Airbus"),
    Rule([[W("A"), Ws, W("330"), Any, W("200"), Any], [W("A"), Ws, W("330-2"), Any]], "A330-200", "Airbus"),
    Rule([[W("A"), Ws, W("330"), Any]], "A330", "Airbus"),
    Rule([[W("A"), Ws, W("340"), Any, W("600"), Any], [W("A"), Ws, W("340-6"), Any]], "A340-600", "Airbus"),
    Rule([[W("A"), Ws, W("340"), Any, W("500"), Any], [W("A"), Ws, W("340-5"), Any]], "A340-500", "Airbus"),
    Rule([[W("A"), Ws, W("340"), Any, W("300"), Any], [W("A"), Ws, W("340-3"), Any]], "A340-300", "Airbus"),
    Rule([[W("A"), Ws, W("340"), Any, W("200"), Any], [W("A"), Ws, W("340-2"), Any]], "A340-200", "Airbus"),
    Rule([[W("A"), Ws, W("340"), Any]], "A340", "Airbus"),
    Rule([[W("A"), Ws, W("350"), Any, W("1000"), Any], [W("A"), Ws, W("350-10"), Any]], "A350-1000", "Airbus"),
    Rule([[W("A"), Ws, W("350"), Any, W("900"), Any], [W("A"), Ws, W("350-9"), Any]], "A350-900", "Airbus"),
    Rule([[W("A"), Ws, W("350"), Any]], "A350", "Airbus"),
    Rule([[W("A"), Ws, W("380"), Any]], "A380", "Airbus")
  ]

  /** Boeing 737 rules (aircraft_type_normalizer.py lines 154-176). */
  const Boeing737: seq<Rule> := [
    Rule([[W("737-9"), C(Alnum), C(Alnum), Any], [W("737"), Any, W("NG"), Any, W("900"), Any], [W("737"), Any, W("900"), Any]], "737-900", "Boeing"),
    Rule([[W("737-8"), C(Alnum), C(Alnum), Any], [W("737"), Any, W("NG"), Any, W("800"), Any], [W("737"), Any, W("800"), Any]], "737-800", "Boeing"),
    Rule([[W("737-7"), C(Alnum), C(Alnum), Any], [W("737"), Any, W("NG"), Any, W("700"), Any], [W("737"), Any, W("700"), Any]], "737-700", "Boeing"),
    Rule([[W("737-6"), C(Alnum), C(Alnum), Any], [W("737"), Any, W("NG"), Any, W("600"), Any], [W("737"), Any, W("600"), Any]], "737-600", "Boeing"),
    Rule([[W("737"), Any, W("MAX"), Ws, W("10"), Any], [W("737-10"), SpaceOrEnd, Any]], "737 MAX 10", "Boeing"),
    Rule([[W("737"), Any, W("MAX"), Ws, W("9"), Any], [W("737-9"), Ws, W("MAX"), Any], [W("737-9"), SpaceSlashOrEnd, NotAlnum2, Any]], "737 MAX 9", "Boeing"),
    Rule([[W("737"), Any, W("MAX"), Ws, W("8"), Any], [W("737-8"), Ws, W("MAX"), Any], [W("737-8"), SpaceSlashOrEnd, NotAlnum2, Any]], "737 MAX 8", "Boeing"),
    Rule([[W("737"), Any, W("MAX"), Ws, W("7"), Any], [W("737-7"), Ws, W("MAX"), Any], [W("737-7"), SpaceSlashOrEnd, NotAlnum2, Any]], "737 MAX 7", "Boeing"),
    Rule([[W("737"), Any, W("MAX"), Any]], "737 MAX", "Boeing"),
    Rule([[W("737-5"), C(Digit), C(Digit), Any], [W("737"), Any, W("500"), Any]], "737-500", "Boeing"),
    Rule([[W("737-4"), C(Digit), C(Digit), Any], [W("737"), Any, W("400"), Any]], "737-400", "Boeing"),
    Rule([[W("737-3"), C(Digit), C(Digit), Any], [W("737"), Any, W("300"), Any]], "737-300", "Boeing"),
    Rule([[W("737-2"), C(Digit), C(Digit), Any], [W("737"), Any, W("200"), Any]], "737-200", "Boeing"),
    Rule([[W("737-1"), C(Digit), C(Digit), Any], [W("737"), Any, W("100"), Any]], "737-100", "Boeing"),
    Rule([[W("737"), Any]], "737", "Boeing")
  ]

  /** Boeing 747 rules (aircraft_type_normalizer.py lines 179-184). */
  const Boeing747: seq<Rule> := [
    Rule([[W("747-8"), Any], [W("747"), Any, W("8"), C(Pair('I', 'F')), Any]], "747-8", "Boeing"),
    Rule([[W("747-400"), Any], [W("747-4"), C(Digit), C(Digit), Any]], "747-400", "Boeing"),
    Rule([[W("747-300"), Any], [W("747-3"), C(Digit), C(Digit), Any]], "747-300", "Boeing"),
    Rule([[W("747-200"), Any], [W("747-2"), C(Digit), C(Digit), Any]], "747-200", "Boeing"),
    Rule([[W("747-100"), Any], [W("747-1"), C(Digit), C(Digit), Any], [W("747SP"), Any]], "747-100", "Boeing"),
    Rule([[W("747"), Any]], "747", "Boeing")
  ]

  /** Boeing 757 rules (aircraft_type_normalizer.py lines 187-189). */
  const Boeing757: seq<Rule> := [
    Rule([[W("757-300"), Any], [W("757-3"), C(Digit), C(Digit), Any]], "757-300", "Boeing"),
    Rule([[W("757-200"), Any], [W("757-2"), C(Digit), C(Digit), Any]], "757-200", "Boeing"),
    Rule([[W("757"), Any]], "757", "Boeing")
  ]

  /** Boeing 767 rules (aircraft_type_normalizer.py lines 192-195). */
  const Boeing767: seq<Rule> := [
    Rule([[W("767-400"), Any], [W("767-4"), C(Digit), C(Digit), Any]], "767-400", "Boeing"),
    Rule([[W("767-300"), Any], [W("767-3"), C(Digit), C(Digit), Any]], "767-300", "Boeing"),
    Rule([[W("767-200"), Any], [W("767-2"), C(Digit), C(Digit), Any]], "767-200", "Boeing"),
    Rule([[W("767"), Any]], "767", "Boeing")
  ]

  /** Boeing 777 rules (aircraft_type_normalizer.py lines 198-205). */
  const Boeing777: seq<Rule> := [
    Rule([[W("777-9"), Any], [W("777X"), Any, W("9"), Any]], "777-9", "Boeing"),
    Rule([[W("777-8"), Any], [W("777X"), Any, W("8"), Any]], "777-8", "Boeing"),
    Rule([[W("777"), Any, W("300ER"), Any], [W("777-3"), C(Digit), C(Digit), W("ER"), Any], [W("777F"), Any]], "777-300ER", "Boeing"),
    Rule([[W("777-300"), Any], [W("777-3"), C(Digit), C(Digit), NotW("ER"), Any]], "777-300", "Boeing"),
    Rule([[W("777"), Any, W("200ER"), Any], [W("777-2"), C(Digit), C(Digit), W("ER"), Any]], "777-200ER", "Boeing"),
    Rule([[W("777"), Any, W("200LR"), Any], [W("777-2"), C(Digit), C(Digit), W("LR"), Any]], "777-200LR", "Boeing"),
    Rule([[W("777-200"), Any], [W("777-2"), C(Digit), C(Digit), Any]], "777-200", "Boeing"),
    Rule([[W("777"), Any]], "777", "Boeing")
  ]

  /** Boeing 787 rules (aircraft_type_normalizer.py lines 208-211). */
  const Boeing787: seq<Rule> := [
    Rule([[W("787-10"), Any], [W("787"), Any, W("10"), Any]], "787-10", "Boeing"),
    Rule([[W("787-9"), Any], [W("787"), Any, W("9"), Any]], "787-9", "Boeing"),
    Rule([[W("787-8"), Any], [W("787"), Any, W("8"), Any]], "787-8", "Boeing"),
    Rule([[W("787"), Any]], "787", "Boeing")
  ]

  /** McDonnell Douglas rules (aircraft_type_normalizer.py lines 214-224). */
  const McdonnellDouglas: seq<Rule> := [
    Rule([[W("MD"), OptW("-"), W("11"), Any]], "MD-11", "McDonnell Douglas"),
    Rule([[W("MD"), OptW("-"), W("90"), Any]], "MD-90", "McDonnell Douglas"),
    Rule([[W("MD"), OptW("-"), W("88"), Any]], "MD-88", "McDonnell Douglas"),
    Rule([[W("MD"), OptW("-"), W("87"), Any]], "MD-87", "McDonnell Douglas"),
    Rule([[W("MD"), OptW("-"), W("83"), Any]], "MD-83", "McDonnell Douglas"),
    Rule([[W("MD"), OptW("-"), W("82"), Any]], "MD-82", "McDonnell Douglas"),
    Rule([[W("MD"), OptW("-"), W("81"), Any]], "MD-81", "McDonnell Douglas"),
    Rule([[W("MD"), OptW("-"), W("80"), Any]], "MD-80", "McDonnell Douglas"),
    Rule([[W("DC"), OptW("-"), W("10"), Any]], "DC-10", "McDonnell Douglas"),
    Rule([[W("DC"), OptW("-"), W("9"), Any]], "DC-9", "McDonnell Douglas"),
    Rule([[W("DC"), OptW("-"), W("8"), Any]], "DC-8", "McDonnell Douglas")
  ]

  /** Embraer E-Jets rules (aircraft_type_normalizer.py lines 228-241). */
  const EmbraerEJets: seq<Rule> := [
    Rule([[W("E195-E2"), Any], [W("E195"), Any, W("E2"), Any], [W("ERJ"), Any, W("195"), Any, W("E2"), Any], [W("190-400"), Any]], "E195-E2", "Embraer"),
    Rule([[W("E190-E2"), Any], [W("E190"), Any, W("E2"), Any], [W("ERJ"), Any, W("190"), Any, W("E2"), Any], [W("190-300"), Any]], "E190-E2", "Embraer"),
    Rule([[W("E175-E2"), Any], [W("E175"), Any, W("E2"), Any], [W("ERJ"), Any, W("175"), Any, W("E2"), Any]], "E175-E2", "Embraer"),
    Rule([[W("E195"), Any], [W("ERJ"), Any, W("195"), Any], [W("EMB"), Any, W("195"), Any]], "E195", "Embraer"),
    Rule([[W("E190"), Any], [W("ERJ"), Any, W("190"), Any], [W("EMB"), Any, W("190"), Any]], "E190", "Embraer"),
    Rule([[W("E175"), Any], [W("ERJ"), Any, W("175"), Any], [W("EMB"), Any, W("175"), Any]], "E175", "Embraer"),
    Rule([[W("E170"), Any], [W("ERJ"), Any, W("170"), Any], [W("EMB"), Any, W("170"), Any]], "E170", "Embraer"),
    Rule([[W("ERJ"), Any, W("145"), Any], [W("EMB"), Any, W("145"), Any], [W("E145"), Any]], "ERJ-145", "Embraer"),
    Rule([[W("ERJ"), Any, W("140"), Any], [W("EMB"), Any, W("140"), Any], [W("E140"), Any]], "ERJ-140", "Embraer"),
    Rule([[W("ERJ"), Any, W("135"), Any], [W("EMB"), Any, W("135"), Any], [W("E135"), Any]], "ERJ-135", "Embraer")
  ]

  /** Bombardier/Canadair rules (aircraft_type_normalizer.py lines 245-258). */
  const BombardierCanadair: seq<Rule> := [
    Rule([[W("CRJ"), Any, W("1000"), Any], [W("CL"), OptW("-"), W("600"), Any, W("2E25"), Any]], "CRJ-1000", "Bombardier"),
    Rule([[W("CRJ"), Any, W("900"), Any], [W("CL"), OptW("-"), W("600"), Any, W("2D24"), Any]], "CRJ-900", "Bombardier"),
    Rule([[W("CRJ"), Any, W("700"), Any], [W("CL"), OptW("-"), W("600"), Any, W("2C10"), Any]], "CRJ-700", "Bombardier"),
    Rule([[W("CRJ"), Any, W("550"), Any]], "CRJ-550", "Bombardier"),
    Rule([[W("CRJ"), Any, W("200"), Any], [W("CL"), OptW("-"), W("600"), Any, W("2B19"), Any]], "CRJ-200", "Bombardier"),
    Rule([[W("CRJ"), Any, W("100"), Any]], "CRJ-100", "Bombardier"),
    Rule([[W("CRJ"), Any]], "CRJ", "Bombardier"),
    Rule([[W("DHC"), OptW("-"), W("8"), Any, W("400"), Any], [W("Q400"), Any], [W("DASH"), Ws, W("8"), Any, W("400"), Any]], "Dash 8-400", "De Havilland Canada"),
    Rule([[W("DHC"), OptW("-"), W("8"), Any, W("300"), Any], [W("Q300"), Any], [W("DASH"), Ws, W("8"), Any, W("300"), Any]], "Dash 8-300", "De Havilland Canada"),
    Rule([[W("DHC"), OptW("-"), W("8"), Any, W("200"), Any], [W("Q200"), Any], [W("DASH"), Ws, W("8"), Any, W("200"), Any]], "Dash 8-200", "De Havilland Canada"),
    Rule([[W("DHC"), OptW("-"), W("8"), Any, W("100"), Any], [W("Q100"), Any], [W("DASH"), Ws, W("8"), Any, W("100"), Any]], "Dash 8-100", "De Havilland Canada"),
    Rule([[W("DHC"), OptW("-"), W("8"), Any], [W("DASH"), Ws, W("8"), Any]], "Dash 8", "De Havilland Canada")
  ]

  /** ATR rules (aircraft_type_normalizer.py lines 261-262). */
  const Atr: seq<Rule> := [
    Rule([[W("ATR"), Any, W("72"), Any]], "ATR 72", "ATR"),
    Rule([[W("ATR"), Any, W("42"), Any]], "ATR 42", "ATR")
  ]

  /** Cessna jets rules (aircraft_type_normalizer.py lines 265-276). */
  const CessnaJets: seq<Rule> := [
    Rule([[W("CITATION"), Ws, W("X"), OptW("+"), Any], [OptW("C"), W("750"), Any]], "Citation X", "Cessna"),
    Rule([[W("CITATION"), Ws, W("SOVEREIGN"), Any], [OptW("C"), W("680"), Any]], "Citation Sovereign", "Cessna"),
    Rule([[W("CITATION"), Ws, W("LATITUDE"), Any], [OptW("C"), W("680A"), Any]], "Citation Latitude", "Cessna"),
    Rule([[W("CITATION"), Ws, W("LONGITUDE"), Any], [OptW("C"), W("700"), Any]], "Citation Longitude", "Cessna"),
    Rule([[W("CITATION"), Ws, W("EXCEL"), Any], [OptW("C"), W("560XL"), Any]], "Citation Excel", "Cessna"),
    Rule([[W("CITATION"), Ws, W("CJ4"), Any], [OptW("C"), W("525C"), Any]], "Citation CJ4", "Cessna"),
    Rule([[W("CITATION"), Ws, W("CJ3"), Any], [OptW("C"), W("525B"), Any]], "Citation CJ3", "Cessna"),
    Rule([[W("CITATION"), Ws, W("CJ2"), Any], [OptW("C"), W("525A"), Any]], "Citation CJ2", "Cessna"),
    Rule([[W("CITATION"), Ws, W("CJ1"), Any], [OptW("C"), W("525"), Any]], "Citation CJ1", "Cessna"),
    Rule([[W("CITATION"), Ws, W("MUSTANG"), Any], [OptW("C"), W("510"), Any]], "Citation Mustang", "Cessna"),
    Rule([[W("CITATION"), Ws, W("M2"), Any]], "Citation M2", "Cessna"),
    Rule([[W("CITATION"), Any]], "Citation", "Cessna")
  ]

  /** Cessna props rules (aircraft_type_normalizer.py lines 279-285). */
  const CessnaProps: seq<Rule> := [
    Rule([[W("CESSNA"), Ws, W("172"), Any], [W("172"), Any], [W("C172"), Any]], "172 Skyhawk", "Cessna"),
    Rule([[W("CESSNA"), Ws, W("182"), Any], [W("182"), Any], [W("C182"), Any]], "182 Skylane", "Cessna"),
    Rule([[W("CESSNA"), Ws, W("206"), Any], [W("206"), Any], [W("C206"), Any], [W("T206"), Any], [W("U206"), Any]], "206 Stationair", "Cessna"),
    Rule([[W("CESSNA"), Ws, W("208"), Any], [W("208"), Any], [W("C208"), Any, W("CARAVAN"), Any], [W("CARAVAN"), Any]], "208 Caravan", "Cessna"),
    Rule([[W("CESSNA"), Ws, W("210"), Any], [W("210"), Any], [W("C210"), Any], [W("T210"), Any]], "210 Centurion", "Cessna"),
    Rule([[W("CESSNA"), Ws, W("150"), Any], [W("150"), Any], [W("C150"), Any]], "150", "Cessna"),
    Rule([[W("CESSNA"), Ws, W("152"), Any], [W("152"), Any], [W("C152"), Any]], "152", "Cessna")
  ]

  /** Piper rules (aircraft_type_normalizer.py lines 288-302). */
  const Piper: seq<Rule> := [
    Rule([[W("PA"), OptW("-"), W("28"), Any, W("CHEROKEE"), Any], [W("CHEROKEE"), Any]], "Cherokee", "Piper"),
    Rule([[W("PA"), OptW("-"), W("28"), Any, W("WARRIOR"), Any], [W("WARRIOR"), Any]], "Warrior", "Piper"),
    Rule([[W("PA"), OptW("-"), W("28"), Any, W("ARCHER"), Any], [W("ARCHER"), Any]], "Archer", "Piper"),
    Rule([[W("PA"), OptW("-"), W("28"), Any, W("ARROW"), Any], [W("ARROW"), Any]], "Arrow", "Piper"),
    Rule([[W("PA"), OptW("-"), W("28"), Any]], "PA-28", "Piper"),
    Rule([[W("PA"), OptW("-"), W("32"), Any, W("SARATOGA"), Any], [W("SARATOGA"), Any]], "Saratoga", "Piper"),
    Rule([[W("PA"), OptW("-"), W("32"), Any, W("LANCE"), Any], [W("LANCE"), Any]], "Lance", "Piper"),
    Rule([[W("PA"), OptW("-"), W("32"), Any, W("CHEROKEE"), Ws, W("SIX"), Any], [W("CHEROKEE"), Ws, W("SIX"), Any]], "Cherokee Six", "Piper"),
    Rule([[W("PA"), OptW("-"), W("32"), Any]], "PA-32", "Piper"),
    Rule([[W("PA"), OptW("-"), W("34"), Any, W("SENECA"), Any], [W("SENECA"), Any]], "Seneca", "Piper"),
    Rule([[W("PA"), OptW("-"), W("34"), Any]], "PA-34", "Piper"),
    Rule([[W("PA"), OptW("-"), W("44"), Any, W("SEMINOLE"), Any], [W("SEMINOLE"), Any]], "Seminole", "Piper"),
    Rule([[W("PA"), OptW("-"), W("46"), Any, W("MALIBU"), Any], [W("MALIBU"), Any], [W("M350"), Any], [W("M500"), Any], [W("M600"), Any]], "Malibu", "Piper"),
    Rule([[W("PA"), OptW("-"), W("46"), Any]], "PA-46", "Piper"),
    Rule([[W("CUB"), Any], [W("PA"), OptW("-"), W("18"), Any]], "Cub", "Piper")
  ]

  /** Cirrus rules (aircraft_type_normalizer.py lines 305-309). */
  const Cirrus: seq<Rule> := [
    Rule([[W("SR22"), OptW("T"), Any, W("G6"), Any]], "SR22 G6", "Cirrus"),
    Rule([[W("SR22T"), Any]], "SR22T", "Cirrus"),
    Rule([[W("SR22"), Any]], "SR22", "Cirrus"),
    Rule([[W("SR20"), Any]], "SR20", "Cirrus"),
    Rule([[W("SF50"), Any], [W("VISION"), Ws, W("JET"), Any]], "Vision Jet", "Cirrus")
  ]

  /** Pilatus rules (aircraft_type_normalizer.py lines 313-315). */
  const Pilatus: seq<Rule> := [
    Rule([[W("PC"), OptW("-"), W("24"), Any]], "PC-24", "Pilatus"),
    Rule([[W("PC"), OptW("-"), W("12"), Any]], "PC-12", "Pilatus"),
    Rule([[W("PC"), OptW("-"), W("6"), Any]], "PC-6", "Pilatus")
  ]

  /** Beechcraft rules (aircraft_type_normalizer.py lines 318-325). */
  const Beechcraft: seq<Rule> := [
    Rule([[W("KING"), Ws, W("AIR"), Ws, W("350"), Any], [W("B350"), Any], [W("BE350"), Any], [W("C-12"), Any]], "King Air 350", "Beechcraft"),
    Rule([[W("KING"), Ws, W("AIR"), Ws, W("250"), Any], [W("B250"), Any], [W("BE250"), Any]], "King Air 250", "Beechcraft"),
    Rule([[W("KING"), Ws, W("AIR"), Ws, W("200"), Any], [W("B200"), Any], [W("BE200"), Any]], "King Air 200", "Beechcraft"),
    Rule([[W("KING"), Ws, W("AIR"), Ws, W("90"), Any], [W("C90"), Any], [W("BE9"), OptC(Span('0', '9')), Any]], "King Air 90", "Beechcraft"),
    Rule([[W("KING"), Ws, W("AIR"), Any]], "King Air", "Beechcraft"),
    Rule([[W("BONANZA"), Any], [W("V35"), Any], [W("A36"), Any], [W("G36"), Any], [W("BE35"), Any], [W("BE36"), Any]], "Bonanza", "Beechcraft"),
    Rule([[W("BARON"), Any], [W("BE58"), Any], [W("BE55"), Any]], "Baron", "Beechcraft"),
    Rule([[W("PREMIER"), Any], [W("BE390"), Any]], "Premier", "Beechcraft")
  ]

  /** Gulfstream rules (aircraft_type_normalizer.py lines 328-337). */
  const Gulfstream: seq<Rule> := [
    Rule([[W("G700"), Any], [W("GVII"), Any]], "G700", "Gulfstream"),
    Rule([[W("G650"), Any], [W("GVI"), Any]], "G650", "Gulfstream"),
    Rule([[W("G600"), Any], [W("G"), OptW("-"), W("VI"), Any]], "G600", "Gulfstream"),
    Rule([[W("G550"), Any], [W("GV"), Any, W("550"), Any]], "G550", "Gulfstream"),
    Rule([[W("G500"), Any]], "G500", "Gulfstream"),
    Rule([[W("G450"), Any], [W("GIV"), Any, W("450"), Any]], "G450", "Gulfstream"),
    Rule([[W("G280"), Any]], "G280", "Gulfstream"),
    Rule([[W("GV"), NotW("I"), Any], [W("G"), OptW("-"), W("V"), NotW("I"), Any]], "G-V", "Gulfstream"),
    Rule([[W("GIV"), Any], [W("G"), OptW("-"), W("IV"), Any]], "G-IV", "Gulfstream"),
    Rule([[W("GIII"), Any], [W("G"), OptW("-"), W("III"), Any]], "G-III", "Gulfstream")
  ]

  /** Dassault Falcon rules (aircraft_type_normalizer.py lines 340-346). */
  const DassaultFalcon: seq<Rule> := [
    Rule([[W("FALCON"), Ws, W("10X"), Any]], "Falcon 10X", "Dassault"),
    Rule([[W("FALCON"), Ws, W("8X"), Any]], "Falcon 8X", "Dassault"),
    Rule([[W("FALCON"), Ws, W("7X"), Any]], "Falcon 7X", "Dassault"),
    Rule([[W("FALCON"), Ws, W("900"), Any]], "Falcon 900", "Dassault"),
    Rule([[W("FALCON"), Ws, W("2000"), Any]], "Falcon 2000", "Dassault"),
    Rule([[W("FALCON"), Ws, W("50"), Any]], "Falcon 50", "Dassault"),
    Rule([[W("FALCON"), Any]], "Falcon", "Dassault")
  ]

  /** Learjet rules (aircraft_type_normalizer.py lines 349-356). */
  const Learjet: seq<Rule> := [
    Rule([[W("LEARJET"), Ws, W("75"), Any], [W("LJ75"), Any]], "Learjet 75", "Learjet"),
    Rule([[W("LEARJET"), Ws, W("70"), Any], [W("LJ70"), Any]], "Learjet 70", "Learjet"),
    Rule([[W("LEARJET"), Ws, W("60"), Any], [W("LJ60"), Any]], "Learjet 60", "Learjet"),
    Rule([[W("LEARJET"), Ws, W("45"), Any], [W("LJ45"), Any]], "Learjet 45", "Learjet"),
    Rule([[W("LEARJET"), Ws, W("40"), Any], [W("LJ40"), Any]], "Learjet 40", "Learjet"),
    Rule([[W("LEARJET"), Ws, W("35"), Any], [W("LJ35"), Any]], "Learjet 35", "Learjet"),
    Rule([[W("LEARJET"), Ws, W("31"), Any], [W("LJ31"), Any]], "Learjet 31", "Learjet"),
    Rule([[W("LEARJET"), Any]], "Learjet", "Learjet")
  ]

  /** Diamond rules (aircraft_type_normalizer.py lines 359-362). */
  const Diamond: seq<Rule> := [
    Rule([[W("DA"), OptW("-"), W("62"), Any]], "DA62", "Diamond"),
    Rule([[W("DA"), OptW("-"), W("42"), Any]], "DA42", "Diamond"),
    Rule([[W("DA"), OptW("-"), W("40"), Any]], "DA40", "Diamond"),
    Rule([[W("DA"), OptW("-"), W("20"), Any]], "DA20", "Diamond")
  ]

  /** Robinson helicopters rules (aircraft_type_normalizer.py lines 366-368). */
  const Robinson: seq<Rule> := [
    Rule([[W("R44"), Any]], "R44", "Robinson"),
    Rule([[W("R22"), Any]], "R22", "Robinson"),
    Rule([[W("R66"), Any]], "R66", "Robinson")
  ]

  /** Bell helicopters rules (aircraft_type_normalizer.py lines 371-376). */
  const Bell: seq<Rule> := [
    Rule([[W("BELL"), Ws, W("206"), Any], [W("206B"), Any], [W("JETRANGER"), Any]], "206 JetRanger", "Bell"),
    Rule([[W("BELL"), Ws, W("407"), Any], [W("407"), Any]], "407", "Bell"),
    Rule([[W("BELL"), Ws, W("412"), Any], [W("412"), Any]], "412", "Bell"),
    Rule([[W("BELL"), Ws, W("429"), Any], [W("429"), Any]], "429", "Bell"),
    Rule([[W("BELL"), Ws, W("505"), Any], [W("505"), Any]], "505", "Bell"),
    Rule([[W("BELL"), Ws, W("525"), Any], [W("525"), Any]], "525 Relentless", "Bell")
  ]

  /** Airbus Helicopters / Eurocopter rules (aircraft_type_normalizer.py lines 379-386). */
  const AirbusHelicopters: seq<Rule> := [
    Rule([[W("H125"), Any], [W("AS350"), Any], [W("ECUREUIL"), Any], [W("ASTAR"), Any]], "H125", "Airbus Helicopters"),
    Rule([[W("H130"), Any], [W("EC130"), Any]], "H130", "Airbus Helicopters"),
    Rule([[W("H135"), Any], [W("EC135"), Any]], "H135", "Airbus Helicopters"),
    Rule([[W("H145"), Any], [W("EC145"), Any], [W("BK117"), Any]], "H145", "Airbus Helicopters"),
    Rule([[W("H160"), Any]], "H160", "Airbus Helicopters"),
    Rule([[W("H175"), Any], [W("EC175"), Any]], "H175", "Airbus Helicopters"),
    Rule([[W("H215"), Any], [W("AS332"), Any], [W("SUPER"), Ws, W("PUMA"), Any]], "H215", "Airbus Helicopters"),
    Rule([[W("H225"), Any], [W("EC225"), Any]], "H225", "Airbus Helicopters")
  ]

  /** Sikorsky helicopters rules (aircraft_type_normalizer.py lines 389-391). */
  const Sikorsky: seq<Rule> := [
    Rule([[W("S"), OptW("-"), W("76"), Any]], "S-76", "Sikorsky"),
    Rule([[W("S"), OptW("-"), W("92"), Any]], "S-92", "Sikorsky"),
    Rule([[W("S"), OptW("-"), W("70"), Any], [W("UH"), OptW("-"), W("60"), Any], [W("BLACK"), Ws, W("HAWK"), Any]], "S-70/UH-60", "Sikorsky")
  ]

  /** Leonardo / AgustaWestland helicopters rules (aircraft_type_normalizer.py lines 394-397). */
  const Leonardo: seq<Rule> := [
    Rule([[W("AW139"), Any]], "AW139", "Leonardo"),
    Rule([[W("AW109"), Any]], "AW109", "Leonardo"),
    Rule([[W("AW169"), Any]], "AW169", "Leonardo"),
    Rule([[W("AW189"), Any]], "AW189", "Leonardo")
  ]

  /** The families of the table, in source order. */
  const Families: seq<seq<Rule>> := [
    AirbusNarrowbody, AirbusWidebody, Boeing737, Boeing747,
    Boeing757, Boeing767, Boeing777, Boeing787,
    McdonnellDouglas, EmbraerEJets, BombardierCanadair, Atr,
    CessnaJets, CessnaProps, Piper, Cirrus,
    Pilatus, Beechcraft, Gulfstream, DassaultFalcon,
    Learjet, Diamond, Robinson, Bell,
    AirbusHelicopters, Sikorsky, Leonardo
  ]

  /** The families from the `j`-th on, concatenated. */
  function FlattenFrom(fs: seq<seq<Rule>>, j: nat): seq<Rule>
    requires j <= |fs|
    decreases |fs| - j
  {
    if j == |fs| then [] else fs[j] + FlattenFrom(fs, j + 1)
  }

  /** The pattern table built by `_init_patterns`, in source order. */
  const Rules: seq<Rule> := FlattenFrom(Families, 0)

  /** A usable rule: it names a manufacturer and each alternative needs a visible character. */
  predicate GoodRule(r: Rule) {
    r.mfrOverride != "" && SolidFrom(r.pattern, 0)
  }

  predicate AllGood(rules: seq<Rule>) {
    forall i :: 0 <= i < |rules| ==> GoodRule(rules[i])
  }

  /** `GoodRule` for `rules[j..]`, one rule at a time; the form in which a literal family is checked. */
  predicate GoodFrom(rules: seq<Rule>, j: nat)
    requires j <= |rules|
    decreases |rules| - j
  {
    j == |rules| || (GoodRule(rules[j]) && GoodFrom(rules, j + 1))
  }

  lemma {:induction false} GoodFromAll(rules: seq<Rule>, j: nat)
    requires j <= |rules| && GoodFrom(rules, j)
    ensures forall i :: j <= i < |rules| ==> GoodRule(rules[i])
    decreases |rules| - j
  {
    if j < |rules| {
      GoodFromAll(rules, j + 1);
    }
  }

  predicate GoodFamilies(fs: seq<seq<Rule>>, j: nat)
    requires j <= |fs|
    decreases |fs| - j
  {
    j == |fs| || (AllGood(fs[j]) && GoodFamilies(fs, j + 1))
  }

  lemma {:induction false} GoodFlatten(fs: seq<seq<Rule>>, j: nat)
    requires j <= |fs| && GoodFamilies(fs, j)
    ensures AllGood(FlattenFrom(fs, j))
    decreases |fs| - j
  {
    if j < |fs| {
      GoodFlatten(fs, j + 1);
    }
  }


  lemma AirbusNarrowbodyGood()
    ensures AllGood(AirbusNarrowbody)
  {
    assert GoodFrom(AirbusNarrowbody, 6);
    assert GoodFrom(AirbusNarrowbody, 3);
    GoodFromAll(AirbusNarrowbody, 0);
  }

  lemma AirbusWidebodyGoodFrom6()
    ensures GoodFrom(AirbusWidebody, 6)
  {
    assert GoodFrom(AirbusWidebody, 12);
    assert GoodFrom(AirbusWidebody, 9);
  }

  lemma AirbusWidebodyGood()
    ensures AllGood(AirbusWidebody)
  {
    AirbusWidebodyGoodFrom6();
    assert GoodFrom(AirbusWidebody, 3);
    GoodFromAll(AirbusWidebody, 0);
  }

  lemma Boeing737GoodFrom6()
    ensures GoodFrom(Boeing737, 6)
  {
    assert GoodFrom(Boeing737, 12);
    assert GoodFrom(Boeing737, 9);
  }

  lemma Boeing737Good()
    ensures AllGood(Boeing737)
  {
    Boeing737GoodFrom6();
    assert GoodFrom(Boeing737, 3);
    GoodFromAll(Boeing737, 0);
  }

  lemma Boeing747Good()
    ensures AllGood(Boeing747)
  {
    assert GoodFrom(Boeing747, 3);
    GoodFromAll(Boeing747, 0);
  }

  lemma Boeing757Good()
    ensures AllGood(Boeing757)
  {

    GoodFromAll(Boeing757, 0);
  }

  lemma Boeing767Good()
    ensures AllGood(Boeing767)
  {
    assert GoodFrom(Boeing767, 3);
    GoodFromAll(Boeing767, 0);
  }

  lemma Boeing777Good()
    ensures AllGood(Boeing777)
  {
    assert GoodFrom(Boeing777, 6);
    assert GoodFrom(Boeing777, 3);
    GoodFromAll(Boeing777, 0);
  }

  lemma Boeing787Good()
    ensures AllGood(Boeing787)
  {
    assert GoodFrom(Boeing787, 3);
    GoodFromAll(Boeing787, 0);
  }

  lemma McdonnellDouglasGood()
    ensures AllGood(McdonnellDouglas)
  {
    assert GoodFrom(McdonnellDouglas, 9);
    assert GoodFrom(McdonnellDouglas, 6);
    assert GoodFrom(McdonnellDouglas, 3);
    GoodFromAll(McdonnellDouglas, 0);
  }

  lemma EmbraerEJetsGoodFrom6()
    ensures GoodFrom(EmbraerEJets, 6)
  {
    assert GoodFrom(EmbraerEJets, 9);
  }

  lemma EmbraerEJetsGood()
    ensures AllGood(EmbraerEJets)
  {
    EmbraerEJetsGoodFrom6();
    assert GoodFrom(EmbraerEJets, 3);
    GoodFromAll(EmbraerEJets, 0);
  }

  lemma BombardierCanadairGood()
    ensures AllGood(BombardierCanadair)
  {
    assert GoodFrom(BombardierCanadair, 9);
    assert GoodFrom(BombardierCanadair, 6);
    assert GoodFrom(BombardierCanadair, 3);
    GoodFromAll(BombardierCanadair, 0);
  }

  lemma AtrGood()
    ensures AllGood(Atr)
  {

    GoodFromAll(Atr, 0);
  }

  lemma CessnaJetsGood()
    ensures AllGood(CessnaJets)
  {
    assert GoodFrom(CessnaJets, 9);
    assert GoodFrom(CessnaJets, 6);
    assert GoodFrom(CessnaJets, 3);
    GoodFromAll(CessnaJets, 0);
  }

  lemma CessnaPropsGood()
    ensures AllGood(CessnaProps)
  {
    assert GoodFrom(CessnaProps, 6);
    assert GoodFrom(CessnaProps, 3);
    GoodFromAll(CessnaProps, 0);
  }

  lemma PiperGoodFrom6()
    ensures GoodFrom(Piper, 6)
  {
    assert GoodFrom(Piper, 12);
    assert GoodFrom(Piper, 9);
  }

  lemma PiperGood()
    ensures AllGood(Piper)
  {
    PiperGoodFrom6();
    assert GoodFrom(Piper, 3);
    GoodFromAll(Piper, 0);
  }

  lemma CirrusGood()
    ensures AllGood(Cirrus)
  {
    assert GoodFrom(Cirrus, 3);
    GoodFromAll(Cirrus, 0);
  }

  lemma PilatusGood()
    ensures AllGood(Pilatus)
  {

    GoodFromAll(Pilatus, 0);
  }

  lemma BeechcraftGood()
    ensures AllGood(Beechcraft)
  {
    assert GoodFrom(Beechcraft, 6);
    assert GoodFrom(Beechcraft, 3);
    GoodFromAll(Beechcraft, 0);
  }

  lemma GulfstreamGood()
    ensures AllGood(Gulfstream)
  {
    assert GoodFrom(Gulfstream, 9);
    assert GoodFrom(Gulfstream, 6);
    assert GoodFrom(Gulfstream, 3);
    GoodFromAll(Gulfstream, 0);
  }

  lemma DassaultFalconGood()
    ensures AllGood(DassaultFalcon)
  {
    assert GoodFrom(DassaultFalcon, 6);
    assert GoodFrom(DassaultFalcon, 3);
    GoodFromAll(DassaultFalcon, 0);
  }

  lemma LearjetGood()
    ensures AllGood(Learjet)
  {
    assert GoodFrom(Learjet, 6);
    assert GoodFrom(Learjet, 3);
    GoodFromAll(Learjet, 0);
  }

  lemma DiamondGood()
    ensures AllGood(Diamond)
  {
    assert GoodFrom(Diamond, 3);
    GoodFromAll(Diamond, 0);
  }

  lemma RobinsonGood()
    ensures AllGood(Robinson)
  {

    GoodFromAll(Robinson, 0);
  }

  lemma BellGood()
    ensures AllGood(Bell)
  {
    assert GoodFrom(Bell, 3);
    GoodFromAll(Bell, 0);
  }

  lemma AirbusHelicoptersGood()
    ensures AllGood(AirbusHelicopters)
  {
    assert GoodFrom(AirbusHelicopters, 6);
    assert GoodFrom(AirbusHelicopters, 3);
    GoodFromAll(AirbusHelicopters, 0);
  }

  lemma SikorskyGood()
    ensures AllGood(Sikorsky)
  {

    GoodFromAll(Sikorsky, 0);
  }

  lemma LeonardoGood()
    ensures AllGood(Leonardo)
  {
    assert GoodFrom(Leonardo, 3);
    GoodFromAll(Leonardo, 0);
  }

  /** Every rule of the table names a manufacturer, and no pattern can match without a visible character. */
  lemma TableGood()
    ensures AllGood(Rules)
  {
    AirbusNarrowbodyGood();
    AirbusWidebodyGood();
    Boeing737Good();
    Boeing747Good();
    Boeing757Good();
    Boeing767Good();
    Boeing777Good();
    Boeing787Good();
    McdonnellDouglasGood();
    EmbraerEJetsGood();
    BombardierCanadairGood();
    AtrGood();
    CessnaJetsGood();
    CessnaPropsGood();
    PiperGood();
    CirrusGood();
    PilatusGood();
    BeechcraftGood();
    GulfstreamGood();
    DassaultFalconGood();
    LearjetGood();
    DiamondGood();
    RobinsonGood();
    BellGood();
    AirbusHelicoptersGood();
    SikorskyGood();
    LeonardoGood();
    assert GoodFamilies(Families, 26);
    assert GoodFamilies(Families, 25);
    assert GoodFamilies(Families, 24);
    assert GoodFamilies(Families, 23);
    assert GoodFamilies(Families, 22);
    assert GoodFamilies(Families, 21);
    assert GoodFamilies(Families, 20);
    assert GoodFamilies(Families, 19);
    assert GoodFamilies(Families, 18);
    assert GoodFamilies(Families, 17);
    assert GoodFamilies(Families, 16);
    assert GoodFamilies(Families, 15);
    assert GoodFamilies(Families, 14);
    assert GoodFamilies(Families, 13);
    assert GoodFamilies(Families, 12);
    assert GoodFamilies(Families, 11);
    assert GoodFamilies(Families, 10);
    assert GoodFamilies(Families, 9);
    assert GoodFamilies(Families, 8);
    assert GoodFamilies(Families, 7);
    assert GoodFamilies(Families, 6);
    assert GoodFamilies(Families, 5);
    assert GoodFamilies(Families, 4);
    assert GoodFamilies(Families, 3);
    assert GoodFamilies(Families, 2);
    assert GoodFamilies(Families, 1);
    GoodFlatten(Families, 0);
  }
}