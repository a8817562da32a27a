/** Python's string primitives as the monitor uses them: `str.strip()` with no
    argument and the substring test `sub in s`. */
module Text {

  /** The characters for which Python's `str.isspace()` holds, which are the
      characters `str.strip()` removes when given no argument. */
  predicate IsSpace(c: char) {
    || '\U{9}' <= c <= '\U{D}'
    || '\U{1C}' <= c <= '\U{20}'
    || c == '\U{85}' || c == '\U{A0}' || c == '\U{1680}'
    || '\U{2000}' <= c <= '\U{200A}'
    || c == '\U{2028}' || c == '\U{2029}' || c == '\U{202F}'
    || c == '\U{205F}' || c == '\U{3000}'
  }

  predicate AllSpace(s: string) {
    forall i :: 0 <= i < |s| ==> IsSpace(s[i])
  }

  /** Neither end of `s` is whitespace. */
  predicate Trimmed(s: string) {
    s == [] || (!IsSpace(s[0]) && !IsSpace(s[|s| - 1]))
  }

  /** How many whitespace characters `s` starts with. */
  function LeadingSpace(s: string): (n: nat)
    ensures n <= |s|
    ensures forall i :: 0 <= i < n ==> IsSpace(s[i])
    ensures n < |s| ==> !IsSpace(s[n])
  {
    if s != [] && IsSpace(s[0]) then 1 + LeadingSpace(s[1..]) else 0
  }

  /** Where the trailing whitespace of `s` begins. */
  function TrailingSpace(s: string): (n: nat)
    ensures n <= |s|
    ensures forall i :: n <= i < |s| ==> IsSpace(s[i])
    ensures 0 < n ==> !IsSpace(s[n - 1])
  {
    if s != [] && IsSpace(s[|s| - 1]) then TrailingSpace(s[..|s| - 1]) else |s|
  }

  /** Python's `s.strip()`: the longest slice of `s` with no whitespace at either end. */
  function Strip(s: string): (r: string)
    ensures Trimmed(r)
    ensures |r| <= |s|
  {
    var a, b := LeadingSpace(s), TrailingSpace(s);
    if a < b then s[a..b] else []
  }

  /** `r` is `s` with some whitespace cut off at each end. */
  ghost predicate StrippedFrom(r: string, s: string) {
    exists i :: OccursAt(r, s, i) && AllSpace(s[..i]) && AllSpace(s[i + |r|..])
  }

  /** Stripping only ever cuts whitespace: the result sits inside `s` with
      nothing but whitespace on either side of it. */
  lemma StripCutsOnlySpace(s: string)
    ensures StrippedFrom(Strip(s), s)
  {
    var a, b := LeadingSpace(s), TrailingSpace(s);
    if a < b {
      assert OccursAt(Strip(s), s, a);
      assert AllSpace(s[b..]);
    } else {
      StripEmptyIffAllSpace(s);
      assert OccursAt([], s, 0);
      assert s[0..] == s;
    }
  }

  /** A trimmed string is left alone. */
  lemma StripTrimmedIsIdentity(t: string)
    requires Trimmed(t)
    ensures Strip(t) == t
  {
    if t != [] {
      assert t[0..|t|] == t;
    }
  }

  /** Stripping a string twice is the same as stripping it once. */
  lemma StripIdempotent(s: string)
    ensures Strip(Strip(s)) == Strip(s)
  {
    StripTrimmedIsIdentity(Strip(s));
  }

  /** The stripped string is empty (Python-falsy) exactly when the input is all whitespace. */
  lemma StripEmptyIffAllSpace(s: string)
    ensures Strip(s) == [] <==> AllSpace(s)
  {
    var a, b := LeadingSpace(s), TrailingSpace(s);
    if a < |s| {
      assert !IsSpace(s[a]);
      assert a < b;
      assert Strip(s)[0] == s[a];
    }
  }

  /** A sensor file holding one trimmed line and its newline strips to that line. */
  lemma StripLine(t: string)
    requires t != [] && Trimmed(t)
    ensures Strip(t + "\n") == t
  {
    var s := t + "\n";
    assert s[..|s| - 1] == t;
    assert TrailingSpace(s) == TrailingSpace(t) == |t|;
    assert LeadingSpace(s) == 0;
    assert s[0..|t|] == t;
  }

  /** `sub` occurs in `s` at position `i`. */
  predicate OccursAt(sub: string, s: string, i: int) {
    0 <= i && i + |sub| <= |s| && s[i..i + |sub|] == sub
  }

  /** Python's `sub in s` for strings, stated as an occurrence position. */
  ghost predicate IsSubstring(sub: string, s: string) {
    exists i :: OccursAt(sub, s, i)
  }

  /** Python's `sub in s`, computed by scanning `s` from the left. */
  function Contains(s: string, sub: string): (b: bool)
    ensures b <==> IsSubstring(sub, s)
    decreases |s|
  {
    if |sub| <= |s| && s[..|sub|] == sub then
      assert OccursAt(sub, s, 0);
      true
    else if s == [] then
      false
    else
      var b := Contains(s[1..], sub);
      ShiftOccurrence(sub, s);
      b
  }

  /** An occurrence in `s` not at its head is an occurrence in `s[1..]` one place earlier. */
  lemma ShiftOccurrence(sub: string, s: string)
    requires s != []
    requires !OccursAt(sub, s, 0)
    ensures IsSubstring(sub, s) <==> IsSubstring(sub, s[1..])
  {
    if IsSubstring(sub, s) {
      var i :| OccursAt(sub, s, i);
      assert i >= 1;
      assert s[1..][i - 1..i - 1 + |sub|] == s[i..i + |sub|];
      assert OccursAt(sub, s[1..], i - 1);
    }
    if IsSubstring(sub, s[1..]) {
      var j :| OccursAt(sub, s[1..], j);
      assert s[1..][j..j + |sub|] == s[j + 1..j + 1 + |sub|];
      assert OccursAt(sub, s, j + 1);
    }
  }
}
