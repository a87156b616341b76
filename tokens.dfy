/** The tokenizer of `get_path_coords`: the matches of `(\d+)([FBRL])`
    found by `re.findall` with `re.IGNORECASE`, read left to right. */
module Tokens {
  import opened Text

  /** One match: the digit run (`n_str`) and the direction letter, in the
      case it has in the input. */
  datatype Token = Token(digits: string, letter: char)

  /** `[FBRL]` without the case flag. */
  predicate IsUpperDirection(c: char) {
    c == 'F' || c == 'B' || c == 'R' || c == 'L'
  }

  /** `[FBRL]` under `re.IGNORECASE`. */
  predicate IsDirection(c: char) {
    IsUpperDirection(UpperChar(c))
  }

  /** What every match of the pattern looks like. */
  predicate WellFormed(t: Token) {
    |t.digits| > 0 && AllDigits(t.digits) && IsDirection(t.letter)
  }

  predicate ValidTokens(ts: seq<Token>) {
    forall i :: 0 <= i < |ts| ==> WellFormed(ts[i])
  }

  /** A token as the validator's upper-cased grammar spells it. */
  predicate Canonical(t: Token) {
    WellFormed(t) && IsUpperDirection(t.letter)
  }

  predicate AllCanonical(ts: seq<Token>) {
    forall i :: 0 <= i < |ts| ==> Canonical(ts[i])
  }

  /** The length of the maximal run of digits at the start of `s`. */
  function DigitRun(s: string): (k: nat)
    ensures k <= |s|
    ensures AllDigits(s[..k])
    ensures k == |s| || !IsDigit(s[k])
  {
    if s == [] || !IsDigit(s[0]) then 0
    else
      var m := DigitRun(s[1..]);
      assert forall i :: 0 < i < m + 1 ==> s[i] == s[1..][..m][i - 1];
      m + 1
  }

  /** `int(n_str)` on an ASCII digit run, read most significant digit first.
      The empty run is only the base case of the recursion: every match has
      at least one digit, so `Steps` never reads it. */
  function DigitsValue(d: string): (v: nat)
    requires AllDigits(d)
    ensures v == 0 <==> forall i :: 0 <= i < |d| ==> d[i] == '0'
  {
    if d == [] then 0
    else
      var init := d[..|d| - 1];
      assert forall i :: 0 <= i < |init| ==> init[i] == d[i];
      DigitsValue(init) * 10 + (d[|d| - 1] as int - '0' as int)
  }

  /** `steps = int(n_str)`. */
  function Steps(t: Token): (n: nat)
    requires WellFormed(t)
  {
    DigitsValue(t.digits)
  }

  /** `direction.upper()`: always one of F, B, R, L. */
  function Direction(t: Token): (c: char)
    requires WellFormed(t)
    ensures IsUpperDirection(c)
  {
    UpperChar(t.letter)
  }

  /** The matches of `re.findall(r'(\d+)([FBRL])', s, flags=re.IGNORECASE)`:
      a scan that takes each maximal digit run, keeps it as a token when a
      direction letter follows it, and skips every other character. A run
      with no letter after it cannot match from a later start inside it
      either, so skipping the whole run is what the regex search does. */
  function Tokenize(s: string): (ts: seq<Token>)
    ensures ValidTokens(ts)
    decreases |s|
  {
    if s == [] then []
    else if !IsDigit(s[0]) then Tokenize(s[1..])
    else
      var k := DigitRun(s);
      if k < |s| && IsDirection(s[k]) then [Token(s[..k], s[k])] + Tokenize(s[k + 1..])
      else Tokenize(s[k..])
  }

  /** A token's digit run followed by its upper-cased letter. */
  function Spell(t: Token): string {
    t.digits + [UpperChar(t.letter)]
  }

  /** The tokens spelled one after the other. */
  function Spelled(ts: seq<Token>): string {
    if ts == [] then [] else Spell(ts[0]) + Spelled(ts[1..])
  }

  /** Every token with its letter upper-cased. */
  function UpperTokens(ts: seq<Token>): (us: seq<Token>)
    ensures |us| == |ts|
    ensures forall i :: 0 <= i < |ts| ==>
              us[i] == Token(ts[i].digits, UpperChar(ts[i].letter))
  {
    if ts == [] then [] else [Token(ts[0].digits, UpperChar(ts[0].letter))] + UpperTokens(ts[1..])
  }

  /** Leading zeros do not change a step count (`int("01") == 1`). */
  lemma {:induction false} LeadingZero(d: string)
    requires AllDigits(d)
    ensures AllDigits("0" + d) && DigitsValue("0" + d) == DigitsValue(d)
  {
    if d != [] {
      assert ("0" + d)[..|"0" + d| - 1] == "0" + d[..|d| - 1];
      LeadingZero(d[..|d| - 1]);
    }
  }

  /** The leading digit run is the one length `k` with digits before it
      and a non-digit (or the end) at it. */
  lemma {:induction false} DigitRunIs(s: string, k: nat)
    requires k <= |s|
    requires forall i :: 0 <= i < k ==> IsDigit(s[i])
    requires k == |s| || !IsDigit(s[k])
    ensures DigitRun(s) == k
  {
    if k > 0 {
      assert forall i :: 0 <= i < k - 1 ==> s[1..][i] == s[i + 1];
      DigitRunIs(s[1..], k - 1);
    }
  }

  /** A digit run followed by a non-digit is exactly the leading run. */
  lemma DigitRunOfRun(d: string, rest: string)
    requires AllDigits(d)
    requires rest == [] || !IsDigit(rest[0])
    ensures DigitRun(d + rest) == |d|
  {
    var s := d + rest;
    assert forall i :: 0 <= i < |d| ==> s[i] == d[i];
    assert |d| < |s| ==> s[|d|] == rest[0];
    DigitRunIs(s, |d|);
  }

  /** Upper-casing keeps the leading digit run. */
  lemma DigitRunUpper(s: string)
    ensures DigitRun(Upper(s)) == DigitRun(s)
  {
    var u := Upper(s);
    var k := DigitRun(s);
    assert forall i :: 0 <= i < |s| ==> (IsDigit(u[i]) <==> IsDigit(s[i]));
    DigitRunIs(u, k);
  }

  /** The tokenizer reads back what `Spelled` writes: tokenizing the
      spelling of canonical tokens gives the same tokens in the same order. */
  lemma {:induction false} TokenizeSpelled(ts: seq<Token>)
    requires AllCanonical(ts)
    ensures Tokenize(Spelled(ts)) == ts
  {
    if ts != [] {
      var t := ts[0];
      var rest := Spelled(ts[1..]);
      var s := Spelled(ts);
      assert UpperChar(t.letter) == t.letter;
      assert s == t.digits + ([t.letter] + rest);
      DigitRunOfRun(t.digits, [t.letter] + rest);
      var k := |t.digits|;
      assert s[0] == t.digits[0];
      assert s[k] == t.letter;
      assert s[..k] == t.digits;
      assert s[k + 1..] == rest;
      assert AllCanonical(ts[1..]) by {
        forall i | 0 <= i < |ts[1..]| ensures Canonical(ts[1..][i]) {
          assert ts[1..][i] == ts[i + 1];
        }
      }
      TokenizeSpelled(ts[1..]);
      assert ts == [t] + ts[1..];
    }
  }

  /** The tokenizer ignores letter case: tokenizing the upper-cased string
      gives the same tokens with upper-cased letters. */
  lemma {:induction false} TokenizeUpper(s: string)
    ensures Tokenize(Upper(s)) == UpperTokens(Tokenize(s))
    decreases |s|
  {
    if s != [] {
      var k := DigitRun(s);
      DigitRunUpper(s);
      if IsDigit(s[0]) && k < |s| && IsDirection(s[k]) {
        UpperSlice(s, k + 1, |s|);
        TokenizeUpper(s[k + 1..]);
        TokenizeUpperToken(s, k);
      } else {
        var j := if IsDigit(s[0]) then k else 1;
        UpperSlice(s, j, |s|);
        TokenizeUpper(s[j..]);
        TokenizeUpperSkipped(s, j);
      }
    }
  }

  /** The steps of `TokenizeUpper` where `k` characters are skipped: a
      leading non-digit (`k == 1`), or a digit run with no letter after it. */
  lemma TokenizeUpperSkipped(s: string, k: nat)
    requires s != []
    requires (k == 1 && !IsDigit(s[0]))
             || (IsDigit(s[0]) && k == DigitRun(s) == DigitRun(Upper(s))
                 && !(k < |s| && IsDirection(s[k])))
    requires Tokenize(Upper(s[k..])) == UpperTokens(Tokenize(s[k..]))
    requires Upper(s[k..]) == Upper(s)[k..]
    ensures Tokenize(Upper(s)) == UpperTokens(Tokenize(s))
  {
    var u := Upper(s);
    assert u[0] == UpperChar(s[0]);
    assert k < |s| ==> UpperChar(u[k]) == UpperChar(s[k]);
    TokenizeSkipped(s, k);
    TokenizeSkipped(u, k);
  }

  /** Unfolds `Tokenize(s)` once where `k` characters yield no token. */
  lemma TokenizeSkipped(s: string, k: nat)
    requires s != []
    requires (k == 1 && !IsDigit(s[0]))
             || (IsDigit(s[0]) && k == DigitRun(s) && !(k < |s| && IsDirection(s[k])))
    ensures Tokenize(s) == Tokenize(s[k..])
  {
  }

  /** The step of `TokenizeUpper` where a token is taken. */
  lemma TokenizeUpperToken(s: string, k: nat)
    requires s != [] && IsDigit(s[0])
    requires k == DigitRun(s) == DigitRun(Upper(s))
    requires k < |s| && IsDirection(s[k])
    requires Tokenize(Upper(s[k + 1..])) == UpperTokens(Tokenize(s[k + 1..]))
    requires Upper(s[k + 1..]) == Upper(s)[k + 1..]
    ensures Tokenize(Upper(s)) == UpperTokens(Tokenize(s))
  {
    TokenizeUpperTaken(s, k);
    UpperRun(s, k);
    TokenizeTaken(s, k);
    UpperTokenChain(Tokenize(Upper(s)), Tokenize(s), s[..k], s[k], Upper(s)[k],
                    Tokenize(Upper(s)[k + 1..]), Tokenize(s[k + 1..]));
  }

  /** Unfolds `Tokenize(s)` once where a token is taken. */
  lemma TokenizeTaken(s: string, k: nat)
    requires s != [] && IsDigit(s[0])
    requires k == DigitRun(s) && k < |s| && IsDirection(s[k])
    ensures Tokenize(s) == [Token(s[..k], s[k])] + Tokenize(s[k + 1..])
  {
  }

  /** Upper-casing keeps a leading digit run and upper-cases the letter
      after it. */
  lemma UpperRun(s: string, k: nat)
    requires k < |s| && AllDigits(s[..k])
    ensures Upper(s)[..k] == s[..k] && Upper(s)[k] == UpperChar(s[k])
  {
    UpperSlice(s, 0, k);
    UpperDigits(s[..k]);
    assert s[0..k] == s[..k];
  }

  /** The equational step that closes `TokenizeUpperToken`. */
  lemma UpperTokenChain(tu: seq<Token>, ts: seq<Token>, d: string, c: char, cu: char,
                        restU: seq<Token>, rest: seq<Token>)
    requires tu == [Token(d, cu)] + restU && ts == [Token(d, c)] + rest
    requires restU == UpperTokens(rest) && cu == UpperChar(c)
    ensures tu == UpperTokens(ts)
  {
    UpperTokensCons(Token(d, c), rest);
  }

  /** Unfolds `Tokenize(Upper(s))` once where a token is taken. */
  lemma TokenizeUpperTaken(s: string, k: nat)
    requires s != [] && IsDigit(s[0])
    requires k == DigitRun(s) == DigitRun(Upper(s))
    requires k < |s| && IsDirection(s[k])
    ensures Tokenize(Upper(s)) == [Token(Upper(s)[..k], Upper(s)[k])] + Tokenize(Upper(s)[k + 1..])
  {
    var u := Upper(s);
    assert u[0] == UpperChar(s[0]);
    assert UpperChar(u[k]) == UpperChar(s[k]);
    TokenizeTaken(u, k);
  }

  lemma UpperTokensCons(t: Token, rest: seq<Token>)
    ensures UpperTokens([t] + rest) == [Token(t.digits, UpperChar(t.letter))] + UpperTokens(rest)
  {
    assert ([t] + rest)[1..] == rest;
  }

  /** Spelling upper-cases letters anyway, so it cannot tell the two apart. */
  lemma {:induction false} SpelledUpper(ts: seq<Token>)
    ensures Spelled(UpperTokens(ts)) == Spelled(ts)
  {
    if ts != [] {
      assert UpperTokens(ts)[1..] == UpperTokens(ts[1..]);
      SpelledUpper(ts[1..]);
    }
  }

  /** Whitespace in front of a string yields no token. */
  lemma {:induction false} TokenizeSkipsLeadingSpace(w: string, x: string)
    requires AllSpace(w)
    ensures Tokenize(w + x) == Tokenize(x)
  {
    if w == [] {
      assert w + x == x;
    } else {
      assert (w + x)[0] == w[0];
      assert (w + x)[1..] == w[1..] + x;
      TokenizeSkipsLeadingSpace(w[1..], x);
    }
  }

  /** A character that is neither a digit nor a direction letter, appended
      at the end, yields no token and cuts no token short. */
  lemma {:induction false} TokenizeAppendBlank(x: string, c: char)
    requires !IsDigit(c) && !IsDirection(c)
    ensures Tokenize(x + [c]) == Tokenize(x)
    decreases |x|
  {
    var s := x + [c];
    if x == [] {
      assert Tokenize(s) == Tokenize(s[1..]);
      assert s[1..] == [];
    } else if !IsDigit(x[0]) {
      assert s[1..] == x[1..] + [c];
      TokenizeAppendBlank(x[1..], c);
    } else {
      var k := DigitRun(x);
      assert forall i :: 0 <= i < |x| ==> s[i] == x[i];
      assert s[|x|] == c;
      DigitRunIs(s, k);
      if k < |x| {
        assert s[k] == x[k];
        assert s[..k] == x[..k];
        if IsDirection(x[k]) {
          assert s[k + 1..] == x[k + 1..] + [c];
          TokenizeAppendBlank(x[k + 1..], c);
        } else {
          assert s[k..] == x[k..] + [c];
          TokenizeAppendBlank(x[k..], c);
        }
      } else {
        assert s[k] == c && s[k..] == [c];
        assert Tokenize([c]) == Tokenize([c][1..]);
        assert [c][1..] == [];
        assert x[k..] == [];
      }
    }
  }

  /** A string that does not end in a digit cannot lend a digit run to
      what follows it, so the matches of `a + b` are those of `a`, then
      those of `b`. A lone letter, a digit run with no letter after it or
      any other unmatched text in between is skipped, whatever follows. */
  lemma {:induction false} TokenizeAppend(a: string, b: string)
    requires a == [] || !IsDigit(a[|a| - 1])
    ensures Tokenize(a + b) == Tokenize(a) + Tokenize(b)
    decreases |a|, 1
  {
    if a == [] {
      assert a + b == b;
    } else if !IsDigit(a[0]) {
      AppendSkipOne(a, b);
    } else {
      AppendDigitRun(a, b);
    }
  }

  /** The step of `TokenizeAppend` where `a` starts with a non-digit. */
  lemma {:induction false} AppendSkipOne(a: string, b: string)
    requires a != [] && !IsDigit(a[0]) && !IsDigit(a[|a| - 1])
    ensures Tokenize(a + b) == Tokenize(a) + Tokenize(b)
    decreases |a|, 0
  {
    var s := a + b;
    AppendSuffix(a, b, s, 1);
    TokenizeAppend(a[1..], b);
    SkipSkipped(a, s, Tokenize(b), 1);
  }

  /** The step of `TokenizeAppend` where `a` starts with a digit run, which
      ends inside `a`. */
  lemma {:induction false} AppendDigitRun(a: string, b: string)
    requires a != [] && IsDigit(a[0]) && !IsDigit(a[|a| - 1])
    ensures Tokenize(a + b) == Tokenize(a) + Tokenize(b)
    decreases |a|, 0
  {
    var s := a + b;
    AppendSuffix(a, b, s, 0);
    AppendRun(a, s);
    var k := DigitRun(a);
    if IsDirection(a[k]) {
      AppendSuffix(a, b, s, k + 1);
      TokenizeAppend(a[k + 1..], b);
      SkipTaken(a, s, Tokenize(b), k);
    } else {
      AppendSuffix(a, b, s, k);
      TokenizeAppend(a[k..], b);
      SkipSkipped(a, s, Tokenize(b), k);
    }
  }

  /** Cutting `j` characters off `a + b` cuts them off `a`, which keeps its
      last character unless nothing is left of it. */
  lemma AppendSuffix(a: string, b: string, s: string, j: nat)
    requires a != [] && s == a + b && j <= |a|
    ensures |a| <= |s| && s[0] == a[0] && forall i :: 0 <= i < |a| ==> s[i] == a[i]
    ensures s[j..] == a[j..] + b
    ensures a[j..] == [] || a[j..][|a[j..]| - 1] == a[|a| - 1]
  {
  }

  /** A digit run on its own is not a match. */
  lemma DigitsAlone(d: string)
    requires AllDigits(d)
    ensures Tokenize(d) == []
  {
    if d != [] {
      DigitRunIs(d, |d|);
      assert d[|d|..] == [];
    }
  }

  /** A character that is neither a digit nor a direction letter, anywhere
      in the path, separates the tokens before it from those after it: it
      yields no token, merges none and drops none. */
  lemma TokenizeSkip(a: string, c: char, b: string)
    requires !IsDigit(c) && !IsDirection(c)
    ensures Tokenize(a + [c] + b) == Tokenize(a) + Tokenize(b)
  {
    TokenizeAppend(a + [c], b);
    TokenizeAppendBlank(a, c);
  }

  /** The step of `TokenizeSkip` where `a` and `s` start with the same
      token. */
  lemma SkipTaken(a: string, s: string, tail: seq<Token>, k: nat)
    requires a != [] && IsDigit(a[0]) && k == DigitRun(a) && k < |a| && IsDirection(a[k])
    requires k < |s| && DigitRun(s) == k && s[0] == a[0] && s[..k] == a[..k] && s[k] == a[k]
    requires Tokenize(s[k + 1..]) == Tokenize(a[k + 1..]) + tail
    ensures Tokenize(s) == Tokenize(a) + tail
  {
    TokenizeTaken(a, k);
    TokenizeTaken(s, k);
    ConsAppend(Tokenize(a), Tokenize(s), Token(a[..k], a[k]), Tokenize(a[k + 1..]), Tokenize(s[k + 1..]), tail);
  }

  /** Two sequences with the same head whose tails differ by a suffix
      differ by that suffix. */
  lemma ConsAppend<T>(x: seq<T>, y: seq<T>, t: T, xs: seq<T>, ys: seq<T>, tail: seq<T>)
    requires x == [t] + xs && y == [t] + ys && ys == xs + tail
    ensures y == x + tail
  {
  }

  /** The step of `TokenizeSkip` where `a` and `s` start with the same `k`
      characters that yield no token. */
  lemma SkipSkipped(a: string, s: string, tail: seq<Token>, k: nat)
    requires a != [] && s != [] && s[0] == a[0]
    requires (k == 1 && !IsDigit(a[0]))
             || (IsDigit(a[0]) && k == DigitRun(a) == DigitRun(s) && !(k < |a| && IsDirection(a[k]))
                 && !(k < |s| && IsDirection(s[k])))
    requires Tokenize(s[k..]) == Tokenize(a[k..]) + tail
    ensures Tokenize(s) == Tokenize(a) + tail
  {
    TokenizeSkipped(a, k);
    TokenizeSkipped(s, k);
  }

  /** A string that starts with `a`, where `a` starts with a digit and
      ends with a non-digit, has the leading digit run of `a`, and the
      character after that run lies inside `a`. */
  lemma AppendRun(a: string, s: string)
    requires a != [] && IsDigit(a[0]) && !IsDigit(a[|a| - 1])
    requires |a| <= |s| && forall i :: 0 <= i < |a| ==> s[i] == a[i]
    ensures DigitRun(a) < |a|
    ensures DigitRun(s) == DigitRun(a) && s[0] == a[0] && s[..DigitRun(a)] == a[..DigitRun(a)]
    ensures s[DigitRun(a)] == a[DigitRun(a)]
  {
    var k := DigitRun(a);
    assert k < |a| by {
      assert a[..|a|] == a;
    }
    assert forall i :: 0 <= i < k ==> IsDigit(s[i]) by {
      assert forall i :: 0 <= i < k ==> a[..k][i] == a[i];
    }
    assert s[k] == a[k];
    DigitRunIs(s, k);
  }

  /** Whitespace at the end of a string yields no token. */
  lemma {:induction false} TokenizeSkipsTrailingSpace(x: string, w: string)
    requires AllSpace(w)
    ensures Tokenize(x + w) == Tokenize(x)
    decreases |w|
  {
    if w == [] {
      assert x + w == x;
    } else {
      var c := w[|w| - 1];
      assert x + w == (x + w[..|w| - 1]) + [c];
      TokenizeAppendBlank(x + w[..|w| - 1], c);
      TokenizeSkipsTrailingSpace(x, w[..|w| - 1]);
    }
  }

  /** Whitespace on both sides of a string yields no token. */
  lemma TokenizeSkipsSurroundingSpace(w: string, r: string, v: string)
    requires AllSpace(w) && AllSpace(v)
    ensures Tokenize(w + r + v) == Tokenize(r)
  {
    assert w + r + v == w + (r + v);
    TokenizeSkipsLeadingSpace(w, r + v);
    TokenizeSkipsTrailingSpace(r, v);
  }

  /** `strip()` does not change what the tokenizer finds. */
  lemma TokenizeStrip(s: string)
    ensures Tokenize(Strip(s)) == Tokenize(s)
  {
    var r := Strip(s);
    StripSpec(s);
    var k :| 0 <= k <= |s| - |r| && s[k..k + |r|] == r
             && AllSpace(s[..k]) && AllSpace(s[k + |r|..]);
    SplitAround(s, k, r);
    TokenizeSkipsSurroundingSpace(s[..k], r, s[k + |r|..]);
  }

  /** `s` is what comes before `r`, then `r`, then what comes after it. */
  lemma SplitAround(s: string, k: nat, r: string)
    requires k <= |s| - |r| && s[k..k + |r|] == r
    ensures s == s[..k] + r + s[k + |r|..]
  {
  }
}
