/**
 * The few pieces of Python's `str` behaviour the tracker relies on:
 * truthiness of optional strings, `isspace`, `upper`/`lower` (ASCII letters),
 * `strip()`, `re.sub(r'\s+', ' ', s).strip()` and `split(None, 1)`.
 */
module Text {

  datatype Option<T> = None | Some(value: T)

  /** Python truthiness of an optional string: `None` and `""` are false. */
  predicate Truthy(o: Option<string>) {
    o.Some? && o.value != ""
  }

  /** Python's `a or b` on optional strings. */
  function Or(a: Option<string>, b: Option<string>): (r: Option<string>)
    ensures Truthy(r) <==> Truthy(a) || Truthy(b)
    ensures Truthy(a) ==> r == a
    ensures !Truthy(a) ==> r == b
  {
    if Truthy(a) then a else b
  }

  /** `str.isspace()`, which is also what `\s` matches in a `re` pattern on `str`. */
  predicate IsSpace(c: char) {
    c == ' ' || ('\t' <= c <= '\r') || ('\U{1C}' <= c <= '\U{1F}') || c == '\U{85}' || c == '\U{A0}'
    || c == '\U{1680}' || ('\U{2000}' <= c <= '\U{200A}') || c == '\U{2028}' || c == '\U{2029}'
    || c == '\U{202F}' || c == '\U{205F}' || c == '\U{3000}'
  }

  predicate AllSpace(s: string) {
    forall i :: 0 <= i < |s| ==> IsSpace(s[i])
  }

  /** No whitespace at either end (what `strip()` produces). */
  predicate Trimmed(s: string) {
    s == [] || (!IsSpace(s[0]) && !IsSpace(s[|s| - 1]))
  }

  predicate IsLowerAscii(c: char) {
    'a' <= c <= 'z'
  }

  predicate IsUpperAscii(c: char) {
    'A' <= c <= 'Z'
  }

  function UpperChar(c: char): char {
    if IsLowerAscii(c) then (c as int - 32) as char else c
  }

  function LowerChar(c: char): char {
    if IsUpperAscii(c) then (c as int + 32) as char else c
  }

  /** `s.upper()` on ASCII letters; every other character is kept. */
  function Upper(s: string): string {
    seq(|s|, i requires 0 <= i < |s| => UpperChar(s[i]))
  }

  /** `s.lower()` on ASCII letters; every other character is kept. */
  function Lower(s: string): string {
    seq(|s|, i requires 0 <= i < |s| => LowerChar(s[i]))
  }

  predicate NoLower(s: string) {
    forall i :: 0 <= i < |s| ==> !IsLowerAscii(s[i])
  }

  lemma UpperCharFacts(c: char)
    ensures !IsLowerAscii(UpperChar(c))
    ensures IsSpace(UpperChar(c)) <==> IsSpace(c)
    ensures !IsLowerAscii(c) ==> UpperChar(c) == c
  {
  }

  lemma UpperResult(s: string)
    ensures |Upper(s)| == |s| && NoLower(Upper(s))
  {
    forall i | 0 <= i < |s| ensures !IsLowerAscii(Upper(s)[i]) {
      UpperCharFacts(s[i]);
    }
  }

  /** A string with no lower-case letter is its own upper-case form. */
  lemma UpperOfNoLower(s: string)
    requires NoLower(s)
    ensures Upper(s) == s
  {
  }

  lemma UpperIdempotent(s: string)
    ensures Upper(Upper(s)) == Upper(s)
  {
    UpperResult(s);
    UpperOfNoLower(Upper(s));
  }

  /** `lstrip()`: drop leading whitespace. */
  function StripLeft(s: string): (r: string)
    ensures |r| <= |s|
    decreases |s|
  {
    if s != [] && IsSpace(s[0]) then StripLeft(s[1..]) else s
  }

  /** `rstrip()`: drop trailing whitespace. */
  function StripRight(s: string): (r: string)
    ensures |r| <= |s|
    decreases |s|
  {
    if s != [] && IsSpace(s[|s| - 1]) then StripRight(s[..|s| - 1]) else s
  }

  /** `strip()`. */
  function Strip(s: string): string {
    StripRight(StripLeft(s))
  }

  /** `lstrip()` removes a whitespace prefix and nothing else. */
  lemma {:induction false} StripLeftSpec(s: string)
    ensures |StripLeft(s)| <= |s| && StripLeft(s) == s[|s| - |StripLeft(s)|..]
    ensures AllSpace(s[..|s| - |StripLeft(s)|])
    ensures StripLeft(s) == [] || !IsSpace(StripLeft(s)[0])
    decreases |s|
  {
    if s != [] && IsSpace(s[0]) {
      StripLeftSpec(s[1..]);
      var r := StripLeft(s);
      var n := |s| - |r|;
      assert s[1..][|s| - 1 - |r|..] == s[n..];
      forall i | 0 <= i < n ensures IsSpace(s[..n][i]) {
        if i > 0 {
          assert s[..n][i] == s[1..][..n - 1][i - 1];
        }
      }
    }
  }

  /** `rstrip()` removes a whitespace suffix and nothing else. */
  lemma {:induction false} StripRightSpec(s: string)
    ensures |StripRight(s)| <= |s| && StripRight(s) == s[..|StripRight(s)|]
    ensures AllSpace(s[|StripRight(s)|..])
    ensures StripRight(s) == [] || !IsSpace(StripRight(s)[|StripRight(s)| - 1])
    ensures s != [] && !IsSpace(s[0]) ==> StripRight(s) != [] && StripRight(s)[0] == s[0]
    decreases |s|
  {
    if s != [] && IsSpace(s[|s| - 1]) {
      var t := s[..|s| - 1];
      StripRightSpec(t);
      var r := StripRight(s);
      assert t[..|r|] == s[..|r|];
      forall i | |r| <= i < |s| ensures IsSpace(s[i]) {
        if i < |s| - 1 {
          assert s[i] == t[|r|..][i - |r|];
        }
      }
      assert t != [] && !IsSpace(t[0]) <== s != [] && !IsSpace(s[0]);
    }
  }

  /** How much leading whitespace `lstrip()` removes. */
  function LeadingSpaces(s: string): nat {
    |s| - |StripLeft(s)|
  }

  /** What `strip()` returns: a trimmed infix of its argument with only whitespace cut away. */
  lemma StripSpec(s: string)
    ensures LeadingSpaces(s) <= |s| && Trimmed(Strip(s)) && LeadingSpaces(s) + |Strip(s)| <= |s|
    ensures Strip(s) == s[LeadingSpaces(s)..LeadingSpaces(s) + |Strip(s)|]
    ensures AllSpace(s[..LeadingSpaces(s)]) && AllSpace(s[LeadingSpaces(s) + |Strip(s)|..])
  {
    var l := StripLeft(s);
    StripLeftSpec(s);
    StripRightSpec(l);
    var a := LeadingSpaces(s);
    var r := StripRight(l);
    assert l == s[a..];
    assert r == l[..|r|];
    assert s[a..a + |r|] == l[..|r|];
    assert s[a + |r|..] == l[|r|..];
  }

  lemma StripLeftOfTrimmed(s: string)
    requires s == [] || !IsSpace(s[0])
    ensures StripLeft(s) == s
  {
  }

  lemma StripRightOfTrimmed(s: string)
    requires s == [] || !IsSpace(s[|s| - 1])
    ensures StripRight(s) == s
  {
  }

  /** A trimmed string is left alone by `strip()`; in particular `strip()` is idempotent. */
  lemma StripOfTrimmed(s: string)
    requires Trimmed(s)
    ensures Strip(s) == s
  {
    StripLeftOfTrimmed(s);
    StripRightOfTrimmed(s);
  }

  lemma StripIdempotent(s: string)
    ensures Strip(Strip(s)) == Strip(s)
  {
    StripSpec(s);
    StripOfTrimmed(Strip(s));
  }

  lemma {:induction false} StripLeftUpper(s: string)
    ensures StripLeft(Upper(s)) == Upper(StripLeft(s))
    decreases |s|
  {
    if s != [] {
      UpperCharFacts(s[0]);
      assert Upper(s)[0] == UpperChar(s[0]);
      if IsSpace(s[0]) {
        assert Upper(s)[1..] == Upper(s[1..]);
        StripLeftUpper(s[1..]);
      }
    }
  }

  lemma {:induction false} StripRightUpper(s: string)
    ensures StripRight(Upper(s)) == Upper(StripRight(s))
    decreases |s|
  {
    if s != [] {
      UpperCharFacts(s[|s| - 1]);
      assert Upper(s)[|s| - 1] == UpperChar(s[|s| - 1]);
      if IsSpace(s[|s| - 1]) {
        assert Upper(s)[..|s| - 1] == Upper(s[..|s| - 1]);
        StripRightUpper(s[..|s| - 1]);
      }
    }
  }

  /** Upper-casing never touches whitespace, so it commutes with `strip()`. */
  lemma StripUpper(s: string)
    ensures Strip(Upper(s)) == Upper(Strip(s))
  {
    StripLeftUpper(s);
    StripRightUpper(StripLeft(s));
  }

  /** The non-whitespace characters of `s`, in order. */
  function Visible(s: string): string {
    if s == [] then [] else (if IsSpace(s[0]) then [] else [s[0]]) + Visible(s[1..])
  }

  /** `re.sub(r'\s+', ' ', s)`: every maximal run of whitespace becomes one space. */
  function SquashSpaces(s: string): string
    decreases |s|
  {
    if s == [] then []
    else if IsSpace(s[0]) then [' '] + SquashSpaces(StripLeft(s[1..]))
    else [s[0]] + SquashSpaces(s[1..])
  }

  /** `re.sub(r'\s+', ' ', s).strip()`. */
  function Collapse(s: string): string {
    Strip(SquashSpaces(s))
  }

  /** Whitespace in `s` occurs only as single spaces between visible characters. */
  predicate Tidy(s: string) {
    Trimmed(s) && forall i :: 0 <= i < |s| && IsSpace(s[i]) ==> s[i] == ' ' && 0 < i < |s| - 1 && !IsSpace(s[i + 1])
  }

  lemma {:induction false} VisibleAppend(a: string, b: string)
    ensures Visible(a + b) == Visible(a) + Visible(b)
  {
    if a == [] {
      assert a + b == b;
    } else {
      assert (a + b)[0] == a[0];
      assert (a + b)[1..] == a[1..] + b;
      VisibleAppend(a[1..], b);
      var h: string := if IsSpace(a[0]) then [] else [a[0]];
      calc {
        Visible(a + b);
        h + Visible(a[1..] + b);
        h + (Visible(a[1..]) + Visible(b));
        (h + Visible(a[1..])) + Visible(b);
        Visible(a) + Visible(b);
      }
    }
  }

  lemma VisibleAllSpace(s: string)
    requires AllSpace(s)
    ensures Visible(s) == []
  {
  }

  lemma {:induction false} SquashSpacesVisible(s: string)
    ensures Visible(SquashSpaces(s)) == Visible(s)
    decreases |s|
  {
    if s != [] {
      StripLeftSpec(s[1..]);
      var t := if IsSpace(s[0]) then StripLeft(s[1..]) else s[1..];
      SquashSpacesVisible(t);
      var q := SquashSpaces(t);
      assert SquashSpaces(s) == [if IsSpace(s[0]) then ' ' else s[0]] + q;
      assert s == [s[0]] + s[1..];
      VisibleAppend([s[0]], s[1..]);
      VisibleAppend([if IsSpace(s[0]) then ' ' else s[0]], q);
      if IsSpace(s[0]) {
        var n := |s[1..]| - |t|;
        assert s[1..] == s[1..][..n] + t;
        VisibleAppend(s[1..][..n], t);
        VisibleAllSpace(s[1..][..n]);
      }
    }
  }

  lemma {:induction false} SquashSpacesShape(s: string)
    ensures forall i :: 0 <= i < |SquashSpaces(s)| && IsSpace(SquashSpaces(s)[i]) ==>
      SquashSpaces(s)[i] == ' ' && (i + 1 < |SquashSpaces(s)| ==> !IsSpace(SquashSpaces(s)[i + 1]))
    ensures SquashSpaces(s) == [] <==> s == []
    decreases |s|
  {
    if s != [] {
      StripLeftSpec(s[1..]);
      var t := if IsSpace(s[0]) then StripLeft(s[1..]) else s[1..];
      SquashSpacesShape(t);
      var q := SquashSpaces(t);
      var r := SquashSpaces(s);
      assert r == [if IsSpace(s[0]) then ' ' else s[0]] + q;
      if IsSpace(s[0]) {
        assert q != [] ==> !IsSpace(q[0]) by {
          if q != [] {
            assert t != [];
            assert !IsSpace(t[0]);
            assert q[0] == t[0];
          }
        }
      }
      forall i | 0 <= i < |r| && IsSpace(r[i])
        ensures r[i] == ' ' && (i + 1 < |r| ==> !IsSpace(r[i + 1]))
      {
        if i == 0 {
          if 1 < |r| {
            assert r[1] == q[0];
          }
        } else {
          assert r[i] == q[i - 1];
          if i + 1 < |r| {
            assert r[i + 1] == q[i];
          }
        }
      }
    }
  }

  lemma VisibleStrip(s: string)
    ensures Visible(Strip(s)) == Visible(s)
  {
    StripSpec(s);
    var a := LeadingSpaces(s);
    var r := Strip(s);
    assert s == s[..a] + r + s[a + |r|..];
    VisibleAppend(s[..a] + r, s[a + |r|..]);
    VisibleAppend(s[..a], r);
    VisibleAllSpace(s[..a]);
    VisibleAllSpace(s[a + |r|..]);
  }

  /**
   * The clean-up applied to an unmatched type string keeps every visible
   * character in order and leaves only single spaces between them.
   */
  lemma CollapseSpec(s: string)
    ensures Visible(Collapse(s)) == Visible(s)
    ensures Tidy(Collapse(s))
  {
    SquashSpacesVisible(s);
    VisibleStrip(SquashSpaces(s));
    CollapseTidy(s);
  }

  lemma CollapseTidy(s: string)
    ensures Tidy(Collapse(s))
  {
    SquashSpacesShape(s);
    var q := SquashSpaces(s);
    StripSpec(q);
    var a := LeadingSpaces(q);
    var r := Collapse(s);
    assert r == q[a..a + |r|];
    forall i | 0 <= i < |r| && IsSpace(r[i])
      ensures r[i] == ' ' && 0 < i < |r| - 1 && !IsSpace(r[i + 1])
    {
      assert r[i] == q[a + i];
      assert i != 0 && i != |r| - 1;
      assert r[i + 1] == q[a + i + 1];
    }
  }

  lemma VisibleEmpty(s: string)
    ensures Visible(s) == [] <==> AllSpace(s)
  {
    if s != [] {
      VisibleEmpty(s[1..]);
      assert AllSpace(s) <==> IsSpace(s[0]) && AllSpace(s[1..]) by {
        if IsSpace(s[0]) && AllSpace(s[1..]) {
          forall i | 0 <= i < |s| ensures IsSpace(s[i]) {
            if i > 0 {
              assert s[i] == s[1..][i - 1];
            }
          }
        }
      }
    }
  }

  /** The clean-up yields "" exactly for an all-whitespace string. */
  lemma CollapseEmpty(s: string)
    ensures Collapse(s) == [] <==> AllSpace(s)
  {
    CollapseSpec(s);
    VisibleEmpty(s);
    VisibleEmpty(Collapse(s));
    if Collapse(s) != [] {
      assert !IsSpace(Collapse(s)[0]);
    }
  }

  /** The leading run of non-whitespace characters. */
  function Word(s: string): (w: string)
    ensures |w| <= |s| && w == s[..|w|]
    ensures forall i :: 0 <= i < |w| ==> !IsSpace(w[i])
    ensures |w| < |s| ==> IsSpace(s[|w|])
    decreases |s|
  {
    if s == [] || IsSpace(s[0]) then [] else [s[0]] + Word(s[1..])
  }

  /** Python's `s.split(None, 1)`. */
  function SplitOnce(s: string): seq<string> {
    var a := StripLeft(s);
    if a == [] then []
    else
      var w := Word(a);
      var rest := StripLeft(a[|w|..]);
      if rest == [] then [w] else [w, rest]
  }

  /** `lstrip()` splits its argument into a whitespace prefix and the result. */
  lemma StripLeftSplit(s: string) returns (p: string)
    ensures AllSpace(p) && s == p + StripLeft(s)
    ensures StripLeft(s) == [] || !IsSpace(StripLeft(s)[0])
  {
    StripLeftSpec(s);
    p := s[..|s| - |StripLeft(s)|];
  }

  lemma StripLeftEmpty(s: string)
    ensures StripLeft(s) == [] <==> AllSpace(s)
  {
    var p := StripLeftSplit(s);
    if StripLeft(s) != [] {
      assert !IsSpace(s[|p|]);
    }
  }

  /** The pieces `split(None, 1)` is built from, and how they fit together. */
  lemma SplitPieces(s: string) returns (p: string, w: string, m: string, rest: string)
    ensures AllSpace(p) && AllSpace(m)
    ensures s == p + w + m + rest
    ensures w == Word(StripLeft(s)) && rest == StripLeft(StripLeft(s)[|w|..])
    ensures StripLeft(s) != [] ==> w != [] && !IsSpace(w[0])
    ensures rest != [] ==> m != [] && !IsSpace(rest[0])
  {
    var a := StripLeft(s);
    p := StripLeftSplit(s);
    w := Word(a);
    var t := a[|w|..];
    assert a == w + t;
    m := StripLeftSplit(t);
    rest := StripLeft(t);
    assert s == p + w + m + rest by {
      assert t == m + rest;
      assert s == p + a;
    }
    if rest != [] {
      assert m != [] by {
        assert IsSpace(t[0]);
      }
    }
  }

  /**
   * `split(None, 1)` cuts at the first whitespace run after the first word:
   * the parts are non-empty, the first has no whitespace, the second starts
   * with a visible character, and only whitespace was dropped.
   */
  lemma SplitOnceSpec(s: string)
    ensures |SplitOnce(s)| <= 2
    ensures SplitOnce(s) == [] <==> AllSpace(s)
    ensures forall k :: 0 <= k < |SplitOnce(s)| ==> SplitOnce(s)[k] != [] && !IsSpace(SplitOnce(s)[k][0])
    ensures |SplitOnce(s)| >= 1 ==> forall i :: 0 <= i < |SplitOnce(s)[0]| ==> !IsSpace(SplitOnce(s)[0][i])
    ensures |SplitOnce(s)| == 1 ==> exists p, q :: AllSpace(p) && AllSpace(q) && s == p + SplitOnce(s)[0] + q
    ensures |SplitOnce(s)| == 2 ==>
      exists p, m :: AllSpace(p) && AllSpace(m) && m != [] && s == p + SplitOnce(s)[0] + m + SplitOnce(s)[1]
  {
    var p, w, m, rest := SplitPieces(s);
    StripLeftEmpty(s);
    if StripLeft(s) != [] {
      if rest == [] {
        assert s == p + w + m;
        assert SplitOnce(s) == [w];
      } else {
        assert SplitOnce(s) == [w, rest];
      }
    }
  }

  /** `lstrip()` removes exactly a whitespace prefix in front of a visible character. */
  lemma {:induction false} StripLeftPadded(p: string, x: string)
    requires AllSpace(p) && (x == [] || !IsSpace(x[0]))
    ensures StripLeft(p + x) == x
    decreases |p|
  {
    if p == [] {
      assert p + x == x;
    } else {
      assert (p + x)[0] == p[0];
      assert (p + x)[1..] == p[1..] + x;
      StripLeftPadded(p[1..], x);
    }
  }

  /** The first word ends where the whitespace begins. */
  lemma {:induction false} WordOfJoin(w: string, y: string)
    requires forall i :: 0 <= i < |w| ==> !IsSpace(w[i])
    requires y == [] || IsSpace(y[0])
    ensures Word(w + y) == w
    decreases |w|
  {
    if w == [] {
      assert w + y == y;
    } else {
      assert (w + y)[0] == w[0];
      assert (w + y)[1..] == w[1..] + y;
      WordOfJoin(w[1..], y);
    }
  }

  /** `split(None, 1)` of a single padded word. */
  lemma SplitOnceOneWord(p: string, w: string, q: string)
    requires AllSpace(p) && AllSpace(q) && w != []
    requires forall i :: 0 <= i < |w| ==> !IsSpace(w[i])
    ensures SplitOnce(p + w + q) == [w]
  {
    assert p + w + q == p + (w + q);
    StripLeftPadded(p, w + q);
    WordOfJoin(w, q);
    assert (w + q)[|w|..] == q;
    StripLeftPadded(q, []);
    assert q + [] == q;
  }

  /** `split(None, 1)` of a word, a whitespace run and a remainder that starts visibly. */
  lemma SplitOnceTwoParts(p: string, w: string, m: string, rest: string)
    requires AllSpace(p) && AllSpace(m) && w != [] && m != [] && rest != [] && !IsSpace(rest[0])
    requires forall i :: 0 <= i < |w| ==> !IsSpace(w[i])
    ensures SplitOnce(p + w + m + rest) == [w, rest]
  {
    assert p + w + m + rest == p + (w + (m + rest));
    StripLeftPadded(p, w + (m + rest));
    WordOfJoin(w, m + rest);
    assert (w + (m + rest))[|w|..] == m + rest;
    StripLeftPadded(m, rest);
  }

  /** No whitespace in `s[j..]`, checked one character at a time. */
  predicate NoSpaceFrom(s: string, j: nat)
    decreases |s| - j
  {
    j >= |s| || (!IsSpace(s[j]) && NoSpaceFrom(s, j + 1))
  }

  lemma {:induction false} NoSpaceFromAll(s: string, j: nat)
    requires NoSpaceFrom(s, j)
    ensures forall i :: j <= i < |s| ==> !IsSpace(s[i])
    decreases |s| - j
  {
    if j < |s| {
      NoSpaceFromAll(s, j + 1);
    }
  }
}
