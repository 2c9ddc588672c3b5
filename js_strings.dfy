/** The three JavaScript string primitives the classifier relies on:
    `String.prototype.trim`, `String.prototype.includes` and the regular
    expression `^קו \d+$` that recognises a bus-line name. Strings are
    sequences of code points; every literal the classifier compares against
    lies in the Basic Multilingual Plane, where code points and UTF-16 code
    units coincide. */
module JsStrings {

  /** The characters `trim` removes: the WhiteSpace and LineTerminator
      productions of ECMA-262 (sections 12.2 and 12.3), the space separators
      of Unicode category Zs included. */
  predicate IsJsWhitespace(c: char)
  {
    || c == '\t' || c == '\n' || c == '\U{000B}' || c == '\U{000C}' || c == '\r'
    || c == ' ' || c == '\U{00A0}' || c == '\U{1680}'
    || ('\U{2000}' <= c <= '\U{200A}')
    || c == '\U{2028}' || c == '\U{2029}' || c == '\U{202F}' || c == '\U{205F}'
    || c == '\U{3000}' || c == '\U{FEFF}'
  }

  /** The first index at or after `i` that does not hold whitespace. */
  function SkipLeading(s: string, i: nat): (j: nat)
    requires i <= |s|
    ensures i <= j <= |s|
    ensures forall k :: i <= k < j ==> IsJsWhitespace(s[k])
    ensures j == |s| || !IsJsWhitespace(s[j])
    decreases |s| - i
  {
    if i < |s| && IsJsWhitespace(s[i]) then SkipLeading(s, i + 1) else i
  }

  /** The index, between `lo` and `j`, where the run of whitespace that ends
      at `j` begins. */
  function SkipTrailing(s: string, lo: nat, j: nat): (m: nat)
    requires lo <= j <= |s|
    ensures lo <= m <= j
    ensures forall k :: m <= k < j ==> IsJsWhitespace(s[k])
    ensures m == lo || !IsJsWhitespace(s[m - 1])
    decreases j
  {
    if j > lo && IsJsWhitespace(s[j - 1]) then SkipTrailing(s, lo, j - 1) else j
  }

  /** `sub` occurs in `s` starting at index `i`. */
  predicate OccursAt(s: string, sub: string, i: int)
  {
    0 <= i <= |s| - |sub| && s[i..i + |sub|] == sub
  }

  /** `r` is the slice of `s` at `i` and only whitespace surrounds it. */
  predicate IsTrimOf(s: string, r: string, i: int)
  {
    && OccursAt(s, r, i)
    && (forall k :: 0 <= k < i ==> IsJsWhitespace(s[k]))
    && (forall k :: i + |r| <= k < |s| ==> IsJsWhitespace(s[k]))
  }

  /** JavaScript's `s.trim()`: the slice of `s` left once the whitespace at
      both ends is gone. */
  function Trim(s: string): (r: string)
    ensures r == [] || (!IsJsWhitespace(r[0]) && !IsJsWhitespace(r[|r| - 1]))
    ensures exists i :: IsTrimOf(s, r, i)
  {
    var i := SkipLeading(s, 0);
    var j := SkipTrailing(s, i, |s|);
    assert IsTrimOf(s, s[i..j], i);
    s[i..j]
  }

  /** Whitespace around a string that neither starts nor ends with
      whitespace is exactly what `trim` removes. */
  lemma TrimOfPadded(lead: string, text: string, trail: string)
    requires forall k :: 0 <= k < |lead| ==> IsJsWhitespace(lead[k])
    requires forall k :: 0 <= k < |trail| ==> IsJsWhitespace(trail[k])
    requires text != [] && !IsJsWhitespace(text[0]) && !IsJsWhitespace(text[|text| - 1])
    ensures Trim(lead + text + trail) == text
  {
    var s := lead + text + trail;
    var i := SkipLeading(s, 0);
    assert s[|lead|] == text[0];
    assert i == |lead|;
    var j := SkipTrailing(s, i, |s|);
    assert s[|lead| + |text| - 1] == text[|text| - 1];
    assert j == |lead| + |text|;
    assert s[i..j] == text;
  }

  /** Trimming twice is trimming once. */
  lemma TrimIdempotent(s: string)
    ensures Trim(Trim(s)) == Trim(s)
  {
    var r := Trim(s);
    assert SkipLeading(r, 0) == 0;
    assert SkipTrailing(r, 0, |r|) == |r|;
    assert r[0..|r|] == r;
  }

  /** JavaScript's `s.includes(sub)`: `sub` occurs somewhere in `s`. */
  function Includes(s: string, sub: string): (r: bool)
    ensures r <==> exists i :: OccursAt(s, sub, i)
  {
    if sub <= s then
      assert OccursAt(s, sub, 0);
      true
    else if s == [] then
      false
    else
      var r := Includes(s[1..], sub);
      assert r ==> exists i :: OccursAt(s, sub, i) by {
        if r {
          var j :| OccursAt(s[1..], sub, j);
          assert s[j + 1..j + 1 + |sub|] == s[1..][j..j + |sub|];
          assert OccursAt(s, sub, j + 1);
        }
      }
      assert (exists i :: OccursAt(s, sub, i)) ==> r by {
        if i :| OccursAt(s, sub, i) {
          assert i != 0;
          assert s[1..][i - 1..i - 1 + |sub|] == s[i..i + |sub|];
          assert OccursAt(s[1..], sub, i - 1);
        }
      }
      r
  }

  predicate IsAsciiDigit(c: char)
  {
    '0' <= c <= '9'
  }

  /** The class `\d` repeated: every character of `s` is an ASCII digit. */
  function AllAsciiDigits(s: string): (r: bool)
    ensures r <==> forall k :: 0 <= k < |s| ==> IsAsciiDigit(s[k])
  {
    if s == [] then
      true
    else
      var rest := AllAsciiDigits(s[1..]);
      assert rest <==> forall k :: 1 <= k < |s| ==> IsAsciiDigit(s[k]) by {
        assert forall k :: 1 <= k < |s| ==> s[k] == s[1..][k - 1];
      }
      IsAsciiDigit(s[0]) && rest
  }

  /** The prefix of a bus-line name: the Hebrew word for "line" and a space. */
  const LinePrefix: string := "קו "

  /** `/^קו \d+$/.test(name)`: the prefix, then one or more ASCII digits, then
      the end of the string (JavaScript's `$` without the `m` flag). */
  predicate IsLineNumberName(name: string)
  {
    |name| > |LinePrefix| && name[..|LinePrefix|] == LinePrefix
    && AllAsciiDigits(name[|LinePrefix|..])
  }

  /** Any character after the prefix that is not an ASCII digit rejects the
      name, wherever it occurs and whatever follows it. */
  lemma LineNumberNameRejectsNonDigit(digits: string, c: char, rest: string)
    requires !IsAsciiDigit(c)
    ensures !IsLineNumberName(LinePrefix + digits + [c] + rest)
  {
    var name := LinePrefix + digits + [c] + rest;
    assert name[|LinePrefix|..][|digits|] == c;
  }

  /** One more digit at the end keeps a bus-line name a bus-line name. */
  lemma LineNumberNameExtends(name: string, d: char)
    requires IsLineNumberName(name) && IsAsciiDigit(d)
    ensures IsLineNumberName(name + [d])
  {
    assert (name + [d])[..|LinePrefix|] == name[..|LinePrefix|];
    assert (name + [d])[|LinePrefix|..] == name[|LinePrefix|..] + [d];
  }

  /** Two bus-line names match; a street name, a bare prefix and a name
      with a trailing space do not. */
  lemma LineNumberNameExamples()
    ensures IsLineNumberName("קו 42")
    ensures IsLineNumberName("קו 121")
    ensures !IsLineNumberName("Main St")
    ensures !IsLineNumberName("קו ")
    ensures !IsLineNumberName("קו 42 ")
  {
    assert "קו 42"[..3] == LinePrefix;
    assert "קו 121"[..3] == LinePrefix;
    assert "קו 42 "[3..][2] == ' ';
  }
}
