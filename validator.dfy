/** `validate_path`: the full match of `(?:\d+[FBRL])+` against the
    stripped, upper-cased path, and how it relates to the tokenizer. */
module Validator {
  import opened Text
  import opened Tokens

  /** Python's `Optional[str]`: `None` or a string. */
  datatype Option<T> = None | Some(value: T)

  /** `re.fullmatch(r'(?:\d+[FBRL])+', s)` succeeds. A digit run can only be
      followed by a letter, so the matcher has no choice to make: take the
      maximal run, then one upper-case direction letter, then either stop at
      the end or match the rest again. A match starts with a digit and ends
      with a direction letter. */
  predicate IsPath(s: string): (b: bool)
    ensures b ==> |s| > 1 && IsDigit(s[0]) && IsUpperDirection(s[|s| - 1])
    decreases |s|
  {
    var k := DigitRun(s);
    0 < k < |s| && IsUpperDirection(s[k]) && (k + 1 == |s| || IsPath(s[k + 1..]))
  }

  /** The language of the pattern, stated without a matcher: `s` is one or
      more canonical tokens written one after the other. */
  ghost predicate IsSpelling(s: string) {
    exists ts :: |ts| > 0 && AllCanonical(ts) && Spelled(ts) == s
  }

  /** A matched path is the spelling of its own tokens: the tokenizer finds
      at least one token, all of them upper-case, and accounts for every
      character in order. */
  lemma {:induction false} PathTokens(s: string)
    requires IsPath(s)
    ensures |Tokenize(s)| > 0 && AllCanonical(Tokenize(s)) && Spelled(Tokenize(s)) == s
    decreases |s|
  {
    var k := DigitRun(s);
    var t := Token(s[..k], s[k]);
    var rest := s[k + 1..];
    assert Tokenize(s) == [t] + Tokenize(rest);
    assert UpperChar(s[k]) == s[k];
    assert s == s[..k] + [s[k]] + rest;
    if k + 1 == |s| {
      assert rest == [];
      assert Spelled([t]) == Spell(t) + Spelled([]);
    } else {
      PathTokens(rest);
      var ts := Tokenize(rest);
      assert ([t] + ts)[1..] == ts;
      assert Spelled([t] + ts) == Spell(t) + Spelled(ts);
    }
  }

  /** Every spelling of one or more canonical tokens is matched. */
  lemma {:induction false} SpelledIsPath(ts: seq<Token>)
    requires |ts| > 0 && AllCanonical(ts)
    ensures IsPath(Spelled(ts))
  {
    var t := ts[0];
    var rest := Spelled(ts[1..]);
    var s := Spelled(ts);
    assert UpperChar(t.letter) == t.letter;
    assert s == t.digits + ([t.letter] + rest);
    DigitRunOfRun(t.digits, [t.letter] + rest);
    var k := |t.digits|;
    assert s[k] == t.letter;
    assert s[k + 1..] == rest;
    if |ts| > 1 {
      assert AllCanonical(ts[1..]) by {
        forall i | 0 <= i < |ts[1..]| ensures Canonical(ts[1..][i]) {
          assert ts[1..][i] == ts[i + 1];
        }
      }
      SpelledIsPath(ts[1..]);
      assert |Spell(ts[1..][0])| > 0;
    } else {
      assert ts[1..] == [];
    }
  }

  /** The matcher decides exactly the language of the pattern. */
  lemma IsPathIff(s: string)
    ensures IsPath(s) <==> IsSpelling(s)
  {
    if IsPath(s) {
      PathTokens(s);
    }
    if IsSpelling(s) {
      var ts :| |ts| > 0 && AllCanonical(ts) && Spelled(ts) == s;
      SpelledIsPath(ts);
    }
  }

  /** `validate_path(path)`: false for `None`; otherwise whether the
      stripped, upper-cased path is one or more `<digits><F|B|R|L>` tokens
      with nothing before, between or after them. */
  function ValidatePath(path: Option<string>): (ok: bool)
    ensures ok <==> path.Some? && IsSpelling(Upper(Strip(path.value)))
  {
    match path
    case None => false
    case Some(p) => IsPathIff(Upper(Strip(p))); IsPath(Upper(Strip(p)))
  }

  /** The validator accepts a path exactly when the tokenizer of the
      simulator, run on the raw path, finds at least one token and its tokens,
      spelled with upper-cased letters and in order, give back the whole
      stripped, upper-cased path. */
  lemma ValidateMeansTokenizerReadsAll(p: string)
    ensures ValidatePath(Some(p)) <==>
              |Tokenize(p)| > 0 && Spelled(Tokenize(p)) == Upper(Strip(p))
  {
    var u := Upper(Strip(p));
    var ts := Tokenize(p);
    TokenizeStrip(p);
    TokenizeUpper(Strip(p));
    SpelledUpper(ts);
    IsPathIff(u);
    if ValidatePath(Some(p)) {
      PathTokens(u);
    }
    if |ts| > 0 && Spelled(ts) == u {
      var us := UpperTokens(ts);
      assert AllCanonical(us) by {
        forall i | 0 <= i < |us| ensures Canonical(us[i]) {
          assert WellFormed(ts[i]);
          assert UpperChar(UpperChar(ts[i].letter)) == UpperChar(ts[i].letter);
        }
      }
      SpelledIsPath(us);
    }
  }
}
