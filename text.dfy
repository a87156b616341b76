/** ASCII character classes and the two string normalisations the path
    validator applies before matching: Python's `str.strip()` and
    `str.upper()`, restricted to ASCII. */
module Text {

  /** An ASCII decimal digit, the characters `\d` and `int()` accept here. */
  predicate IsDigit(c: char) {
    '0' <= c <= '9'
  }

  predicate AllDigits(s: string) {
    forall i :: 0 <= i < |s| ==> IsDigit(s[i])
  }

  /** The ASCII characters Python's `str.isspace()` holds of: tab, line feed,
      vertical tab, form feed, carriage return, the four information
      separators 0x1C-0x1F and the space. */
  predicate IsSpace(c: char) {
    9 <= c as int <= 13 || 28 <= c as int <= 32
  }

  /** The whitespace characters, one by one. */
  lemma SpaceCharacters(c: char)
    ensures IsSpace(c) <==> c in {'\t', '\n', '\U{000B}', '\U{000C}', '\r',
                                  '\U{001C}', '\U{001D}', '\U{001E}', '\U{001F}', ' '}
  {
  }

  predicate AllSpace(s: string) {
    forall i :: 0 <= i < |s| ==> IsSpace(s[i])
  }

  /** ASCII upper-casing of one character; every other character is kept. */
  function UpperChar(c: char): (u: char)
    ensures 'a' <= c <= 'z' ==> u as int == c as int - 32
    ensures !('a' <= c <= 'z') ==> u == c
    ensures !('a' <= u <= 'z')
  {
    if 'a' <= c <= 'z' then (c as int - 32) as char else c
  }

  /** `s.upper()`: every character upper-cased, the length kept. */
  function Upper(s: string): (r: string)
    ensures |r| == |s|
    ensures forall i :: 0 <= i < |s| ==> r[i] == UpperChar(s[i])
  {
    seq(|s|, i requires 0 <= i < |s| => UpperChar(s[i]))
  }

  /** The number of whitespace characters `s` starts with. */
  function LeadingSpace(s: string): (n: nat)
    ensures n <= |s| && AllSpace(s[..n])
    ensures n == |s| || !IsSpace(s[n])
  {
    if s != [] && IsSpace(s[0]) then
      var m := LeadingSpace(s[1..]);
      assert forall i :: 0 < i < m + 1 ==> s[i] == s[1..][i - 1];
      m + 1
    else 0
  }

  /** The number of whitespace characters `s` ends with. */
  function TrailingSpace(s: string): (n: nat)
    ensures n <= |s| && AllSpace(s[|s| - n..])
    ensures n == |s| || !IsSpace(s[|s| - n - 1])
  {
    if s != [] && IsSpace(s[|s| - 1]) then
      var m := TrailingSpace(s[..|s| - 1]);
      assert forall i :: |s| - m - 1 <= i < |s| - 1 ==> s[i] == s[..|s| - 1][i];
      m + 1
    else 0
  }

  /** `s.strip()`: what is left between the leading and the trailing
      whitespace of `s`; it neither starts nor ends with whitespace. */
  function Strip(s: string): (r: string)
    ensures LeadingSpace(s) + |r| <= |s| && s[LeadingSpace(s)..LeadingSpace(s) + |r|] == r
    ensures AllSpace(s[LeadingSpace(s) + |r|..])
    ensures r == [] || (!IsSpace(r[0]) && !IsSpace(r[|r| - 1]))
  {
    var a := LeadingSpace(s);
    var left := s[a..];
    var r := left[..|left| - TrailingSpace(left)];
    assert s[a..a + |r|] == r;
    assert s[a + |r|..] == left[|r|..];
    assert r != [] ==> r[0] == left[0];
    r
  }

  /** `strip()` leaves a string neither starting nor ending with whitespace,
      and `s` is whitespace, then that string, then whitespace. */
  lemma StripSpec(s: string)
    ensures var r := Strip(s);
            exists k :: 0 <= k <= |s| - |r| && s[k..k + |r|] == r
                        && AllSpace(s[..k]) && AllSpace(s[k + |r|..])
    ensures var r := Strip(s); r == [] || (!IsSpace(r[0]) && !IsSpace(r[|r| - 1]))
  {
    var a := LeadingSpace(s);
    var r := Strip(s);
    assert 0 <= a <= |s| - |r| && s[a..a + |r|] == r && AllSpace(s[..a]) && AllSpace(s[a + |r|..]);
  }

  /** Upper-casing commutes with slicing. */
  lemma UpperSlice(s: string, i: nat, j: nat)
    requires i <= j <= |s|
    ensures Upper(s[i..j]) == Upper(s)[i..j]
  {
  }

  /** Digits are their own upper case. */
  lemma UpperDigits(s: string)
    requires AllDigits(s)
    ensures Upper(s) == s
  {
  }
}
