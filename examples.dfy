/** The expectations of the repository's tests, proved of the model:
    which paths the validator accepts and where the walks end. */
module Examples {
  import opened Text
  import opened Tokens
  import opened Validator
  import opened Simulator

  // ---------------------------------------------------------------------
  // Proof steps for concrete paths

  /** The first token takes the walk to its next state; the rest of the
      walk goes on from there. */
  lemma FinalCons(turnThenMove: bool, w: Walker, ts: seq<Token>, k: nat, t: Token, next: Walker)
    requires k < |ts| && ValidTokens(ts) && ts[k] == t && Step(turnThenMove, w, t) == next
    ensures ValidTokens(ts[k..]) && ValidTokens(ts[k + 1..])
    ensures Final(turnThenMove, w, ts[k..]) == Final(turnThenMove, next, ts[k + 1..])
  {
    assert ts[k..] == [ts[k]] + ts[k + 1..];
    assert ValidTokens([ts[k]]);
    FinalAppend(turnThenMove, w, [ts[k]], ts[k + 1..]);
  }

  /** A walk over `ts` is the walk over its first `k` tokens followed by
      the walk over the rest. */
  lemma WalkHalves(turnThenMove: bool, w: Walker, ts: seq<Token>, k: nat, mid: Walker, end: Walker)
    requires k <= |ts| && ValidTokens(ts[..k]) && ValidTokens(ts[k..])
    requires Final(turnThenMove, w, ts[..k]) == mid && Final(turnThenMove, mid, ts[k..]) == end
    ensures ValidTokens(ts) && Final(turnThenMove, w, ts) == end
  {
    assert ts == ts[..k] + ts[k..];
    FinalAppend(turnThenMove, w, ts[..k], ts[k..]);
  }

  /** Where a walk over known tokens ends, and how far that is from the
      start. */
  lemma WalkEnds(s: string, turnThenMove: bool, start: (int, int), ts: seq<Token>, w: Walker)
    requires Tokenize(s) == ts
    requires Final(turnThenMove, Walker(start.0, start.1, 0), ts) == w
    ensures Last(PathCoords(s, turnThenMove, start)) == Render(w)
    ensures SquaredDistance(PathCoords(s, turnThenMove, start))
            == (w.x - start.0) * (w.x - start.0) + (w.y - start.1) * (w.y - start.1)
  {
  }

  /** `int()` of a two-digit run. */
  lemma TwoDigits(d: string)
    requires |d| == 2 && AllDigits(d)
    ensures DigitsValue(d) == (d[0] as int - '0' as int) * 10 + (d[1] as int - '0' as int)
  {
    var first := d[..1];
    assert first[..0] == [];
    assert DigitsValue(first) == d[0] as int - '0' as int;
  }

  lemma UpperAppend(a: string, b: string)
    ensures Upper(a + b) == Upper(a) + Upper(b)
  {
    assert forall i :: 0 <= i < |a + b| ==> Upper(a + b)[i] == (Upper(a) + Upper(b))[i];
  }

  /** Spelled tokens are already upper case. */
  lemma {:induction false} UpperSpelled(ts: seq<Token>)
    requires ValidTokens(ts)
    ensures Upper(Spelled(ts)) == Spelled(ts)
  {
    if ts != [] {
      var t := ts[0];
      UpperAppend(Spell(t), Spelled(ts[1..]));
      UpperAppend(t.digits, [UpperChar(t.letter)]);
      UpperDigits(t.digits);
      assert ValidTokens(ts[1..]) by {
        forall i | 0 <= i < |ts[1..]| ensures WellFormed(ts[1..][i]) {
          assert ts[1..][i] == ts[i + 1];
        }
      }
      UpperSpelled(ts[1..]);
    }
  }

  lemma StripUnchanged(s: string)
    requires s != [] && !IsSpace(s[0]) && !IsSpace(s[|s| - 1])
    ensures Strip(s) == s
  {
    assert LeadingSpace(s) == 0;
    assert TrailingSpace(s) == 0;
  }

  /** A path that is the spelling of canonical tokens is accepted. */
  lemma AcceptSpelled(p: string, ts: seq<Token>)
    requires |ts| > 0 && AllCanonical(ts) && Spelled(ts) == p
    ensures ValidatePath(Some(p))
  {
    SpelledIsPath(ts);
    UpperSpelled(ts);
    AcceptPath(p);
  }

  /** A matched path that is already upper case is accepted: it starts
      with a digit and ends with a letter, so `strip()` keeps it too. */
  lemma AcceptPath(p: string)
    requires IsPath(p) && Upper(p) == p
    ensures ValidatePath(Some(p))
  {
    StripUnchanged(p);
  }

  // ---------------------------------------------------------------------
  // The tokens of the paths the tests use

  /** The default path, tokenized in three parts. */
  const DefaultFirst: seq<Token> := [Token("15", 'F'), Token("6", 'B'), Token("6", 'B'), Token("5", 'L')]
  const DefaultSecond: seq<Token> := [Token("16", 'R'), Token("8", 'B'), Token("16", 'F'), Token("20", 'L')]
  const DefaultThird: seq<Token> := [Token("6", 'F'), Token("13", 'F'), Token("11", 'R')]
  const DefaultTokens: seq<Token> := DefaultFirst + DefaultSecond + DefaultThird

  lemma {:induction false} SpelledAppend(a: seq<Token>, b: seq<Token>)
    ensures Spelled(a + b) == Spelled(a) + Spelled(b)
  {
    if a == [] {
      assert a + b == b;
    } else {
      assert (a + b)[1..] == a[1..] + b;
      SpelledAppend(a[1..], b);
    }
  }

  lemma {:induction false} CanonicalAppend(a: seq<Token>, b: seq<Token>)
    requires AllCanonical(a) && AllCanonical(b)
    ensures AllCanonical(a + b)
  {
    var ts := a + b;
    forall i | 0 <= i < |ts| ensures Canonical(ts[i]) {
      if i < |a| { assert ts[i] == a[i]; } else { assert ts[i] == b[i - |a|]; }
    }
  }

  lemma DefaultFirstSpelled()
    ensures Spelled(DefaultFirst) == "15F6B6B5L"
  {
  }

  lemma DefaultFirstCanonical()
    ensures AllCanonical(DefaultFirst)
  {
  }

  lemma DefaultSecondSpelled()
    ensures Spelled(DefaultSecond) == "16R8B16F20L"
  {
  }

  lemma DefaultSecondCanonical()
    ensures AllCanonical(DefaultSecond)
  {
  }

  lemma DefaultThirdSpelled()
    ensures Spelled(DefaultThird) == "6F13F11R"
  {
  }

  lemma DefaultThirdCanonical()
    ensures AllCanonical(DefaultThird)
  {
  }

  lemma DefaultPathParts()
    ensures DefaultPath == "15F6B6B5L" + "16R8B16F20L" + "6F13F11R"
  {
  }

  lemma DefaultTokensCanonical()
    ensures AllCanonical(DefaultTokens)
  {
    DefaultFirstCanonical();
    DefaultSecondCanonical();
    DefaultThirdCanonical();
    CanonicalAppend(DefaultFirst, DefaultSecond);
    CanonicalAppend(DefaultFirst + DefaultSecond, DefaultThird);
  }

  lemma DefaultTokensSpelled()
    ensures Spelled(DefaultTokens) == DefaultPath
  {
    DefaultFirstSpelled();
    DefaultSecondSpelled();
    DefaultThirdSpelled();
    DefaultPathParts();
    SpelledAppend(DefaultFirst, DefaultSecond);
    SpelledAppend(DefaultFirst + DefaultSecond, DefaultThird);
  }

  lemma TokenizeDefaultPath()
    ensures Tokenize(DefaultPath) == DefaultTokens
  {
    DefaultTokensCanonical();
    DefaultTokensSpelled();
    TokenizeSpelled(DefaultTokens);
  }

  const MixedTokens: seq<Token> := [Token("1", 'F'), Token("2", 'B'), Token("3", 'L'), Token("4", 'R')]

  lemma MixedSpelled()
    ensures Spelled(MixedTokens) == "1F2B3L4R"
  {
  }

  lemma MixedCanonical()
    ensures AllCanonical(MixedTokens)
  {
  }

  lemma TokenizeMixed()
    ensures Tokenize("1F2B3L4R") == MixedTokens
  {
    MixedSpelled();
    MixedCanonical();
    TokenizeSpelled(MixedTokens);
  }

  const CornerTokens: seq<Token> := [Token("1", 'F'), Token("1", 'R'), Token("1", 'F')]

  lemma CornerSpelled()
    ensures Spelled(CornerTokens) == "1F1R1F"
  {
  }

  lemma CornerCanonical()
    ensures AllCanonical(CornerTokens)
  {
  }

  lemma TokenizeCorner()
    ensures Tokenize("1F1R1F") == CornerTokens
  {
    CornerSpelled();
    CornerCanonical();
    TokenizeSpelled(CornerTokens);
  }

  const SquareTokens: seq<Token> := [Token("1", 'R'), Token("1", 'R'), Token("1", 'R'), Token("1", 'R')]

  lemma SquareSpelled()
    ensures Spelled(SquareTokens) == "1R1R1R1R"
  {
  }

  lemma SquareCanonical()
    ensures AllCanonical(SquareTokens)
  {
  }

  lemma TokenizeSquare()
    ensures Tokenize("1R1R1R1R") == SquareTokens
  {
    SquareSpelled();
    SquareCanonical();
    TokenizeSpelled(SquareTokens);
  }

  const CancelTokens: seq<Token> := [Token("1", 'F'), Token("1", 'B'), Token("1", 'R'), Token("1", 'L')]

  lemma CancelSpelled()
    ensures Spelled(CancelTokens) == "1F1B1R1L"
  {
  }

  lemma CancelCanonical()
    ensures AllCanonical(CancelTokens)
  {
  }

  lemma TokenizeCancel()
    ensures Tokenize("1F1B1R1L") == CancelTokens
  {
    CancelSpelled();
    CancelCanonical();
    TokenizeSpelled(CancelTokens);
  }

  const LowerCaseTokens: seq<Token> := [Token("3", 'R'), Token("2", 'L')]

  lemma LowerCaseSpelled()
    ensures Spelled(LowerCaseTokens) == "3R2L"
  {
  }

  lemma LowerCaseCanonical()
    ensures AllCanonical(LowerCaseTokens)
  {
  }

  lemma TokenizeLowerCase()
    ensures Tokenize("3R2L") == LowerCaseTokens
  {
    LowerCaseSpelled();
    LowerCaseCanonical();
    TokenizeSpelled(LowerCaseTokens);
  }

  const ZeroTurnTokens: seq<Token> := [Token("0", 'L'), Token("4", 'F')]

  lemma ZeroTurnSpelled()
    ensures Spelled(ZeroTurnTokens) == "0L4F"
  {
  }

  lemma ZeroTurnCanonical()
    ensures AllCanonical(ZeroTurnTokens)
  {
  }

  lemma TokenizeZeroTurn()
    ensures Tokenize("0L4F") == ZeroTurnTokens
  {
    ZeroTurnSpelled();
    ZeroTurnCanonical();
    TokenizeSpelled(ZeroTurnTokens);
  }

  const ComplexTokens: seq<Token> := [Token("1", 'F'), Token("2", 'R'), Token("2", 'R'), Token("1", 'F'), Token("4", 'B')]

  lemma ComplexSpelled()
    ensures Spelled(ComplexTokens) == "1F2R2R1F4B"
  {
  }

  lemma ComplexCanonical()
    ensures AllCanonical(ComplexTokens)
  {
  }

  lemma TokenizeComplex()
    ensures Tokenize("1F2R2R1F4B") == ComplexTokens
  {
    ComplexSpelled();
    ComplexCanonical();
    TokenizeSpelled(ComplexTokens);
  }
  // ---------------------------------------------------------------------
  // Validation

  /** The default path is accepted. */
  lemma ValidateDefaultPath()
    ensures ValidatePath(Some(DefaultPath))
  {
    DefaultTokensCanonical();
    DefaultTokensSpelled();
    AcceptSpelled(DefaultPath, DefaultTokens);
  }

  /** All four direction letters are accepted. */
  lemma ValidateMixedPath()
    ensures ValidatePath(Some("1F2B3L4R"))
  {
    MixedSpelled();
    MixedCanonical();
    AcceptSpelled("1F2B3L4R", MixedTokens);
  }

  /** A path whose stripped, upper-cased form is not matched is rejected. */
  lemma RejectUnmatched(p: string)
    requires Strip(p) == p && Upper(p) == p && !IsPath(p)
    ensures !ValidatePath(Some(p))
  {
  }

  /** A path that normalises to the spelling of canonical tokens is
      accepted. */
  lemma AcceptNormalised(p: string, u: string, ts: seq<Token>)
    requires Upper(Strip(p)) == u
    requires |ts| > 0 && AllCanonical(ts) && Spelled(ts) == u
    ensures ValidatePath(Some(p))
  {
    SpelledIsPath(ts);
    IsPathIff(u);
  }

  lemma LeadingZeroLowerCaseStrip()
    ensures Strip("01f5R") == "01f5R"
  {
    StripUnchanged("01f5R");
  }

  lemma LeadingZeroLowerCaseUpper()
    ensures Upper("01f5R") == "01F5R"
  {
  }

  lemma LeadingZeroLowerCaseTokens()
    ensures AllCanonical([Token("01", 'F'), Token("5", 'R')])
    ensures Spelled([Token("01", 'F'), Token("5", 'R')]) == "01F5R"
  {
  }

  /** Leading zeros and lower-case letters are accepted. */
  lemma ValidateLeadingZeroLowerCase()
    ensures ValidatePath(Some("01f5R"))
  {
    LeadingZeroLowerCaseStrip();
    LeadingZeroLowerCaseUpper();
    LeadingZeroLowerCaseTokens();
    AcceptNormalised("01f5R", "01F5R", [Token("01", 'F'), Token("5", 'R')]);
  }

  /** The empty path and a missing path are rejected. */
  lemma ValidateEmptyAndNone()
    ensures !ValidatePath(Some(""))
    ensures !ValidatePath(None)
  {
    assert Strip("") == "" && Upper("") == "";
    assert !IsPath("");
  }

  lemma UnknownLetterStrip()
    ensures Strip("12X") == "12X"
  {
    StripUnchanged("12X");
  }

  lemma UnknownLetterUpper()
    ensures Upper("12X") == "12X"
  {
  }

  lemma UnknownLetterUnmatched()
    ensures !IsPath("12X")
  {
    assert DigitRun("12X") == 2;
  }

  /** A letter other than F, B, R and L is rejected. */
  lemma ValidateUnknownLetter()
    ensures !ValidatePath(Some("12X"))
  {
    UnknownLetterStrip();
    UnknownLetterUpper();
    UnknownLetterUnmatched();
    RejectUnmatched("12X");
  }

  lemma LetterFirstStrip()
    ensures Strip("F10") == "F10"
  {
    StripUnchanged("F10");
  }

  lemma LetterFirstUpper()
    ensures Upper("F10") == "F10"
  {
  }

  lemma LetterFirstUnmatched()
    ensures !IsPath("F10")
  {
    assert DigitRun("F10") == 0;
  }

  /** A path that starts with a letter is rejected. */
  lemma ValidateLetterFirst()
    ensures !ValidatePath(Some("F10"))
  {
    LetterFirstStrip();
    LetterFirstUpper();
    LetterFirstUnmatched();
    RejectUnmatched("F10");
  }

  /** The simulator does not reject what the validator rejects: it skips
      the unmatched text. A letter with no digits before it and a digit run
      with no letter after it yield nothing. */
  lemma TokenizeLetterFirst()
    ensures Tokenize("F10") == []
  {
    assert "F10" == "F" + "10";
    TokenizeAppend("F", "10");
    assert Tokenize("F") == Tokenize("F"[1..]);
    DigitsAlone("10");
  }

  lemma TokenizeFF()
    ensures Tokenize("1FF") == [Token("1", 'F')]
  {
    DigitRunIs("1FF", 1);
    TokenizeTaken("1FF", 1);
    assert "1FF"[..1] == "1" && "1FF"[2..] == "F";
    assert Tokenize("F") == Tokenize("F"[1..]);
  }

  lemma Tokenize2B()
    ensures Tokenize("2B") == [Token("2", 'B')]
  {
    DigitRunIs("2B", 1);
    TokenizeTaken("2B", 1);
    assert "2B"[..1] == "2" && "2B"[2..] == [];
  }

  /** A second letter after a token is skipped. */
  lemma TokenizeDoubledLetter()
    ensures Tokenize("1FF2B") == [Token("1", 'F'), Token("2", 'B')]
  {
    assert "1FF2B" == "1FF" + "2B";
    TokenizeAppend("1FF", "2B");
    TokenizeFF();
    Tokenize2B();
  }

  /** Digits at the end with no letter after them are dropped. */
  lemma TokenizeTrailingDigits()
    ensures Tokenize("1F2") == [Token("1", 'F')]
  {
    assert "1F2" == "1F" + "2";
    TokenizeAppend("1F", "2");
    DigitRunIs("1F", 1);
    TokenizeTaken("1F", 1);
    assert "1F"[..1] == "1" && "1F"[2..] == [];
    assert Tokenize("1F") == [Token("1", 'F')];
    DigitsAlone("2");
  }

  /** A step count of zero is accepted, although the docstring of
      `validate_path` speaks of positive numbers. */
  lemma ValidateZeroSteps()
    ensures ValidatePath(Some("0L4F"))
  {
    ZeroTurnSpelled();
    ZeroTurnCanonical();
    AcceptSpelled("0L4F", ZeroTurnTokens);
  }

  // ---------------------------------------------------------------------
  // Walks

  lemma DefaultFirstTurnThenMoveSteps(x: int, y: int)
    ensures Step(true, Walker(x, y, 0), Token("15", 'F')) == Walker(x, y + 15, 0)
    ensures Step(true, Walker(x, y + 15, 0), Token("6", 'B')) == Walker(x, y + 9, 2)
    ensures Step(true, Walker(x, y + 9, 2), Token("6", 'B')) == Walker(x, y + 15, 0)
    ensures Step(true, Walker(x, y + 15, 0), Token("5", 'L')) == Walker(x - 5, y + 15, 3)
  {
    TwoDigits("15");
  }

  lemma DefaultFirstTurnThenMoveWalk(x: int, y: int)
    ensures Final(true, Walker(x, y, 0), DefaultFirst) == Walker(x - 5, y + 15, 3)
  {
    var ts := DefaultFirst;
    DefaultFirstTurnThenMoveSteps(x, y);
    FinalCons(true, Walker(x, y, 0), ts, 0, Token("15", 'F'), Walker(x, y + 15, 0));
    FinalCons(true, Walker(x, y + 15, 0), ts, 1, Token("6", 'B'), Walker(x, y + 9, 2));
    FinalCons(true, Walker(x, y + 9, 2), ts, 2, Token("6", 'B'), Walker(x, y + 15, 0));
    FinalCons(true, Walker(x, y + 15, 0), ts, 3, Token("5", 'L'), Walker(x - 5, y + 15, 3));
    assert ts[0..] == ts && ts[4..] == [];
  }

  lemma DefaultSecondTurnThenMoveSteps(x: int, y: int)
    ensures Step(true, Walker(x - 5, y + 15, 3), Token("16", 'R')) == Walker(x - 5, y + 31, 0)
    ensures Step(true, Walker(x - 5, y + 31, 0), Token("8", 'B')) == Walker(x - 5, y + 23, 2)
    ensures Step(true, Walker(x - 5, y + 23, 2), Token("16", 'F')) == Walker(x - 5, y + 7, 2)
    ensures Step(true, Walker(x - 5, y + 7, 2), Token("20", 'L')) == Walker(x + 15, y + 7, 1)
  {
    TwoDigits("16");
    TwoDigits("20");
  }

  lemma DefaultSecondTurnThenMoveWalk(x: int, y: int)
    ensures Final(true, Walker(x - 5, y + 15, 3), DefaultSecond) == Walker(x + 15, y + 7, 1)
  {
    var ts := DefaultSecond;
    DefaultSecondTurnThenMoveSteps(x, y);
    FinalCons(true, Walker(x - 5, y + 15, 3), ts, 0, Token("16", 'R'), Walker(x - 5, y + 31, 0));
    FinalCons(true, Walker(x - 5, y + 31, 0), ts, 1, Token("8", 'B'), Walker(x - 5, y + 23, 2));
    FinalCons(true, Walker(x - 5, y + 23, 2), ts, 2, Token("16", 'F'), Walker(x - 5, y + 7, 2));
    FinalCons(true, Walker(x - 5, y + 7, 2), ts, 3, Token("20", 'L'), Walker(x + 15, y + 7, 1));
    assert ts[0..] == ts && ts[4..] == [];
  }

  lemma DefaultThirdTurnThenMoveSteps(x: int, y: int)
    ensures Step(true, Walker(x + 15, y + 7, 1), Token("6", 'F')) == Walker(x + 21, y + 7, 1)
    ensures Step(true, Walker(x + 21, y + 7, 1), Token("13", 'F')) == Walker(x + 34, y + 7, 1)
    ensures Step(true, Walker(x + 34, y + 7, 1), Token("11", 'R')) == Walker(x + 34, y - 4, 2)
  {
    TwoDigits("13");
    TwoDigits("11");
  }

  lemma DefaultThirdTurnThenMoveWalk(x: int, y: int)
    ensures Final(true, Walker(x + 15, y + 7, 1), DefaultThird) == Walker(x + 34, y - 4, 2)
  {
    var ts := DefaultThird;
    DefaultThirdTurnThenMoveSteps(x, y);
    FinalCons(true, Walker(x + 15, y + 7, 1), ts, 0, Token("6", 'F'), Walker(x + 21, y + 7, 1));
    FinalCons(true, Walker(x + 21, y + 7, 1), ts, 1, Token("13", 'F'), Walker(x + 34, y + 7, 1));
    FinalCons(true, Walker(x + 34, y + 7, 1), ts, 2, Token("11", 'R'), Walker(x + 34, y - 4, 2));
    assert ts[0..] == ts && ts[3..] == [];
  }

  lemma DefaultTurnThenMoveWalk(x: int, y: int)
    ensures ValidTokens(DefaultTokens) && Final(true, Walker(x, y, 0), DefaultTokens) == Walker(x + 34, y - 4, 2)
  {
    DefaultFirstCanonical();
    DefaultSecondCanonical();
    DefaultThirdCanonical();
    DefaultFirstTurnThenMoveWalk(x, y);
    DefaultSecondTurnThenMoveWalk(x, y);
    DefaultThirdTurnThenMoveWalk(x, y);
    FinalAppend(true, Walker(x, y, 0), DefaultFirst, DefaultSecond);
    FinalAppend(true, Walker(x, y, 0), DefaultFirst + DefaultSecond, DefaultThird);
  }

  /** The default path under turn-then-move ends at (34, -4) facing South;
      the squared distance is 1172. */
  lemma DefaultPathTurnThenMove()
    ensures Last(PathCoords(DefaultPath, true, DefaultStart)) == Coord(34, -4, "S")
    ensures SquaredDistance(PathCoords(DefaultPath, true, DefaultStart)) == 1172
  {
    TokenizeDefaultPath();
    DefaultTurnThenMoveWalk(0, 0);
    WalkEnds(DefaultPath, true, DefaultStart, DefaultTokens, Walker(34, -4, 2));
  }

  lemma DefaultFirstFixedAxesSteps(x: int, y: int)
    ensures Step(false, Walker(x, y, 0), Token("15", 'F')) == Walker(x, y + 15, 0)
    ensures Step(false, Walker(x, y + 15, 0), Token("6", 'B')) == Walker(x, y + 9, 0)
    ensures Step(false, Walker(x, y + 9, 0), Token("6", 'B')) == Walker(x, y + 3, 0)
    ensures Step(false, Walker(x, y + 3, 0), Token("5", 'L')) == Walker(x - 5, y + 3, 0)
  {
    TwoDigits("15");
  }

  lemma DefaultFirstFixedAxesWalk(x: int, y: int)
    ensures Final(false, Walker(x, y, 0), DefaultFirst) == Walker(x - 5, y + 3, 0)
  {
    var ts := DefaultFirst;
    DefaultFirstFixedAxesSteps(x, y);
    FinalCons(false, Walker(x, y, 0), ts, 0, Token("15", 'F'), Walker(x, y + 15, 0));
    FinalCons(false, Walker(x, y + 15, 0), ts, 1, Token("6", 'B'), Walker(x, y + 9, 0));
    FinalCons(false, Walker(x, y + 9, 0), ts, 2, Token("6", 'B'), Walker(x, y + 3, 0));
    FinalCons(false, Walker(x, y + 3, 0), ts, 3, Token("5", 'L'), Walker(x - 5, y + 3, 0));
    assert ts[0..] == ts && ts[4..] == [];
  }

  lemma DefaultSecondFixedAxesHeadSteps(x: int, y: int)
    ensures Step(false, Walker(x - 5, y + 3, 0), Token("16", 'R')) == Walker(x + 11, y + 3, 0)
    ensures Step(false, Walker(x + 11, y + 3, 0), Token("8", 'B')) == Walker(x + 11, y - 5, 0)
  {
    TwoDigits("16");
  }

  lemma DefaultSecondFixedAxesHeadWalk(x: int, y: int)
    ensures ValidTokens(DefaultSecond[..2])
    ensures Final(false, Walker(x - 5, y + 3, 0), DefaultSecond[..2]) == Walker(x + 11, y - 5, 0)
  {
    var ts := DefaultSecond[..2];
    DefaultSecondFixedAxesHeadSteps(x, y);
    FinalCons(false, Walker(x - 5, y + 3, 0), ts, 0, Token("16", 'R'), Walker(x + 11, y + 3, 0));
    FinalCons(false, Walker(x + 11, y + 3, 0), ts, 1, Token("8", 'B'), Walker(x + 11, y - 5, 0));
    assert ts[0..] == ts && ts[2..] == [];
  }

  lemma DefaultSecondFixedAxesTailSteps(x: int, y: int)
    ensures Step(false, Walker(x + 11, y - 5, 0), Token("16", 'F')) == Walker(x + 11, y + 11, 0)
    ensures Step(false, Walker(x + 11, y + 11, 0), Token("20", 'L')) == Walker(x - 9, y + 11, 0)
  {
    TwoDigits("16");
    TwoDigits("20");
  }

  lemma DefaultSecondFixedAxesTailWalk(x: int, y: int)
    ensures ValidTokens(DefaultSecond[2..])
    ensures Final(false, Walker(x + 11, y - 5, 0), DefaultSecond[2..]) == Walker(x - 9, y + 11, 0)
  {
    var ts := DefaultSecond[2..];
    DefaultSecondFixedAxesTailSteps(x, y);
    FinalCons(false, Walker(x + 11, y - 5, 0), ts, 0, Token("16", 'F'), Walker(x + 11, y + 11, 0));
    FinalCons(false, Walker(x + 11, y + 11, 0), ts, 1, Token("20", 'L'), Walker(x - 9, y + 11, 0));
    assert ts[0..] == ts && ts[2..] == [];
  }

  lemma DefaultSecondFixedAxesWalk(x: int, y: int)
    ensures Final(false, Walker(x - 5, y + 3, 0), DefaultSecond) == Walker(x - 9, y + 11, 0)
  {
    DefaultSecondFixedAxesHeadWalk(x, y);
    DefaultSecondFixedAxesTailWalk(x, y);
    WalkHalves(false, Walker(x - 5, y + 3, 0), DefaultSecond, 2, Walker(x + 11, y - 5, 0), Walker(x - 9, y + 11, 0));
  }

  lemma DefaultThirdFixedAxesSteps(x: int, y: int)
    ensures Step(false, Walker(x - 9, y + 11, 0), Token("6", 'F')) == Walker(x - 9, y + 17, 0)
    ensures Step(false, Walker(x - 9, y + 17, 0), Token("13", 'F')) == Walker(x - 9, y + 30, 0)
    ensures Step(false, Walker(x - 9, y + 30, 0), Token("11", 'R')) == Walker(x + 2, y + 30, 0)
  {
    TwoDigits("13");
    TwoDigits("11");
  }

  lemma DefaultThirdFixedAxesWalk(x: int, y: int)
    ensures Final(false, Walker(x - 9, y + 11, 0), DefaultThird) == Walker(x + 2, y + 30, 0)
  {
    var ts := DefaultThird;
    DefaultThirdFixedAxesSteps(x, y);
    FinalCons(false, Walker(x - 9, y + 11, 0), ts, 0, Token("6", 'F'), Walker(x - 9, y + 17, 0));
    FinalCons(false, Walker(x - 9, y + 17, 0), ts, 1, Token("13", 'F'), Walker(x - 9, y + 30, 0));
    FinalCons(false, Walker(x - 9, y + 30, 0), ts, 2, Token("11", 'R'), Walker(x + 2, y + 30, 0));
    assert ts[0..] == ts && ts[3..] == [];
  }

  lemma DefaultFixedAxesWalk(x: int, y: int)
    ensures ValidTokens(DefaultTokens) && Final(false, Walker(x, y, 0), DefaultTokens) == Walker(x + 2, y + 30, 0)
  {
    DefaultFirstCanonical();
    DefaultSecondCanonical();
    DefaultThirdCanonical();
    DefaultFirstFixedAxesWalk(x, y);
    DefaultSecondFixedAxesWalk(x, y);
    DefaultThirdFixedAxesWalk(x, y);
    FinalAppend(false, Walker(x, y, 0), DefaultFirst, DefaultSecond);
    FinalAppend(false, Walker(x, y, 0), DefaultFirst + DefaultSecond, DefaultThird);
  }

  /** The default path under fixed axes ends at (2, 30) facing North; the
      squared distance is 904. */
  lemma DefaultPathFixedAxes()
    ensures Last(PathCoords(DefaultPath, false, DefaultStart)) == Coord(2, 30, "N")
    ensures SquaredDistance(PathCoords(DefaultPath, false, DefaultStart)) == 904
  {
    TokenizeDefaultPath();
    DefaultFixedAxesWalk(0, 0);
    WalkEnds(DefaultPath, false, DefaultStart, DefaultTokens, Walker(2, 30, 0));
  }

  /** Turning right and walking on ends east of the first leg. */
  lemma CornerTurnThenMoveSteps(x: int, y: int)
    ensures Step(true, Walker(x, y, 0), Token("1", 'F')) == Walker(x, y + 1, 0)
    ensures Step(true, Walker(x, y + 1, 0), Token("1", 'R')) == Walker(x + 1, y + 1, 1)
    ensures Step(true, Walker(x + 1, y + 1, 1), Token("1", 'F')) == Walker(x + 2, y + 1, 1)
  {
  }

  lemma CornerTurnThenMoveWalk(x: int, y: int)
    ensures Final(true, Walker(x, y, 0), CornerTokens) == Walker(x + 2, y + 1, 1)
  {
    var ts := CornerTokens;
    CornerTurnThenMoveSteps(x, y);
    FinalCons(true, Walker(x, y, 0), ts, 0, Token("1", 'F'), Walker(x, y + 1, 0));
    FinalCons(true, Walker(x, y + 1, 0), ts, 1, Token("1", 'R'), Walker(x + 1, y + 1, 1));
    FinalCons(true, Walker(x + 1, y + 1, 1), ts, 2, Token("1", 'F'), Walker(x + 2, y + 1, 1));
    assert ts[0..] == ts && ts[3..] == [];
  }

  lemma CornerTurnThenMove()
    ensures Last(PathCoords("1F1R1F", true, DefaultStart)) == Coord(2, 1, "E")
  {
    TokenizeCorner();
    CornerTurnThenMoveWalk(0, 0);
    WalkEnds("1F1R1F", true, DefaultStart, CornerTokens, Walker(2, 1, 1));
  }

  /** Strafing: the R token moves east without turning. */
  lemma CornerFixedAxesSteps(x: int, y: int)
    ensures Step(false, Walker(x, y, 0), Token("1", 'F')) == Walker(x, y + 1, 0)
    ensures Step(false, Walker(x, y + 1, 0), Token("1", 'R')) == Walker(x + 1, y + 1, 0)
    ensures Step(false, Walker(x + 1, y + 1, 0), Token("1", 'F')) == Walker(x + 1, y + 2, 0)
  {
  }

  lemma CornerFixedAxesWalk(x: int, y: int)
    ensures Final(false, Walker(x, y, 0), CornerTokens) == Walker(x + 1, y + 2, 0)
  {
    var ts := CornerTokens;
    CornerFixedAxesSteps(x, y);
    FinalCons(false, Walker(x, y, 0), ts, 0, Token("1", 'F'), Walker(x, y + 1, 0));
    FinalCons(false, Walker(x, y + 1, 0), ts, 1, Token("1", 'R'), Walker(x + 1, y + 1, 0));
    FinalCons(false, Walker(x + 1, y + 1, 0), ts, 2, Token("1", 'F'), Walker(x + 1, y + 2, 0));
    assert ts[0..] == ts && ts[3..] == [];
  }

  lemma CornerFixedAxes()
    ensures Last(PathCoords("1F1R1F", false, DefaultStart)) == Coord(1, 2, "N")
  {
    TokenizeCorner();
    CornerFixedAxesWalk(0, 0);
    WalkEnds("1F1R1F", false, DefaultStart, CornerTokens, Walker(1, 2, 0));
  }

  /** Four right turns walk a square back to the start. */
  lemma SquareTurnThenMoveSteps(x: int, y: int)
    ensures Step(true, Walker(x, y, 0), Token("1", 'R')) == Walker(x + 1, y, 1)
    ensures Step(true, Walker(x + 1, y, 1), Token("1", 'R')) == Walker(x + 1, y - 1, 2)
    ensures Step(true, Walker(x + 1, y - 1, 2), Token("1", 'R')) == Walker(x, y - 1, 3)
    ensures Step(true, Walker(x, y - 1, 3), Token("1", 'R')) == Walker(x, y, 0)
  {
  }

  lemma SquareTurnThenMoveWalk(x: int, y: int)
    ensures Final(true, Walker(x, y, 0), SquareTokens) == Walker(x, y, 0)
  {
    var ts := SquareTokens;
    SquareTurnThenMoveSteps(x, y);
    FinalCons(true, Walker(x, y, 0), ts, 0, Token("1", 'R'), Walker(x + 1, y, 1));
    FinalCons(true, Walker(x + 1, y, 1), ts, 1, Token("1", 'R'), Walker(x + 1, y - 1, 2));
    FinalCons(true, Walker(x + 1, y - 1, 2), ts, 2, Token("1", 'R'), Walker(x, y - 1, 3));
    FinalCons(true, Walker(x, y - 1, 3), ts, 3, Token("1", 'R'), Walker(x, y, 0));
    assert ts[0..] == ts && ts[4..] == [];
  }

  lemma SquareTurnThenMove()
    ensures Last(PathCoords("1R1R1R1R", true, DefaultStart)) == Coord(0, 0, "N")
  {
    TokenizeSquare();
    SquareTurnThenMoveWalk(0, 0);
    WalkEnds("1R1R1R1R", true, DefaultStart, SquareTokens, Walker(0, 0, 0));
  }

  /** Four R tokens under fixed axes move four steps east. */
  lemma SquareFixedAxesSteps(x: int, y: int)
    ensures Step(false, Walker(x, y, 0), Token("1", 'R')) == Walker(x + 1, y, 0)
    ensures Step(false, Walker(x + 1, y, 0), Token("1", 'R')) == Walker(x + 2, y, 0)
    ensures Step(false, Walker(x + 2, y, 0), Token("1", 'R')) == Walker(x + 3, y, 0)
    ensures Step(false, Walker(x + 3, y, 0), Token("1", 'R')) == Walker(x + 4, y, 0)
  {
  }

  lemma SquareFixedAxesWalk(x: int, y: int)
    ensures Final(false, Walker(x, y, 0), SquareTokens) == Walker(x + 4, y, 0)
  {
    var ts := SquareTokens;
    SquareFixedAxesSteps(x, y);
    FinalCons(false, Walker(x, y, 0), ts, 0, Token("1", 'R'), Walker(x + 1, y, 0));
    FinalCons(false, Walker(x + 1, y, 0), ts, 1, Token("1", 'R'), Walker(x + 2, y, 0));
    FinalCons(false, Walker(x + 2, y, 0), ts, 2, Token("1", 'R'), Walker(x + 3, y, 0));
    FinalCons(false, Walker(x + 3, y, 0), ts, 3, Token("1", 'R'), Walker(x + 4, y, 0));
    assert ts[0..] == ts && ts[4..] == [];
  }

  lemma SquareFixedAxes()
    ensures Last(PathCoords("1R1R1R1R", false, DefaultStart)) == Coord(4, 0, "N")
  {
    TokenizeSquare();
    SquareFixedAxesWalk(0, 0);
    WalkEnds("1R1R1R1R", false, DefaultStart, SquareTokens, Walker(4, 0, 0));
  }

  /** Opposite tokens cancel under fixed axes. */
  lemma CancelFixedAxesHeadSteps(x: int, y: int)
    ensures Step(false, Walker(x, y, 0), Token("1", 'F')) == Walker(x, y + 1, 0)
    ensures Step(false, Walker(x, y + 1, 0), Token("1", 'B')) == Walker(x, y, 0)
  {
  }

  lemma CancelFixedAxesHeadWalk(x: int, y: int)
    ensures ValidTokens(CancelTokens[..2])
    ensures Final(false, Walker(x, y, 0), CancelTokens[..2]) == Walker(x, y, 0)
  {
    var ts := CancelTokens[..2];
    CancelFixedAxesHeadSteps(x, y);
    FinalCons(false, Walker(x, y, 0), ts, 0, Token("1", 'F'), Walker(x, y + 1, 0));
    FinalCons(false, Walker(x, y + 1, 0), ts, 1, Token("1", 'B'), Walker(x, y, 0));
    assert ts[0..] == ts && ts[2..] == [];
  }

  lemma CancelFixedAxesTailSteps(x: int, y: int)
    ensures Step(false, Walker(x, y, 0), Token("1", 'R')) == Walker(x + 1, y, 0)
    ensures Step(false, Walker(x + 1, y, 0), Token("1", 'L')) == Walker(x, y, 0)
  {
  }

  lemma CancelFixedAxesTailWalk(x: int, y: int)
    ensures ValidTokens(CancelTokens[2..])
    ensures Final(false, Walker(x, y, 0), CancelTokens[2..]) == Walker(x, y, 0)
  {
    var ts := CancelTokens[2..];
    CancelFixedAxesTailSteps(x, y);
    FinalCons(false, Walker(x, y, 0), ts, 0, Token("1", 'R'), Walker(x + 1, y, 0));
    FinalCons(false, Walker(x + 1, y, 0), ts, 1, Token("1", 'L'), Walker(x, y, 0));
    assert ts[0..] == ts && ts[2..] == [];
  }

  lemma CancelFixedAxesWalk(x: int, y: int)
    ensures Final(false, Walker(x, y, 0), CancelTokens) == Walker(x, y, 0)
  {
    CancelFixedAxesHeadWalk(x, y);
    CancelFixedAxesTailWalk(x, y);
    WalkHalves(false, Walker(x, y, 0), CancelTokens, 2, Walker(x, y, 0), Walker(x, y, 0));
  }

  lemma CancelFixedAxes()
    ensures Last(PathCoords("1F1B1R1L", false, DefaultStart)) == Coord(0, 0, "N")
  {
    TokenizeCancel();
    CancelFixedAxesWalk(0, 0);
    WalkEnds("1F1B1R1L", false, DefaultStart, CancelTokens, Walker(0, 0, 0));
  }

  /** Lower-case letters are read like upper-case ones. */
  lemma LowerCaseFixedAxesSteps(x: int, y: int)
    ensures Step(false, Walker(x, y, 0), Token("3", 'R')) == Walker(x + 3, y, 0)
    ensures Step(false, Walker(x + 3, y, 0), Token("2", 'L')) == Walker(x + 1, y, 0)
  {
  }

  lemma LowerCaseFixedAxesWalk(x: int, y: int)
    ensures Final(false, Walker(x, y, 0), LowerCaseTokens) == Walker(x + 1, y, 0)
  {
    var ts := LowerCaseTokens;
    LowerCaseFixedAxesSteps(x, y);
    FinalCons(false, Walker(x, y, 0), ts, 0, Token("3", 'R'), Walker(x + 3, y, 0));
    FinalCons(false, Walker(x + 3, y, 0), ts, 1, Token("2", 'L'), Walker(x + 1, y, 0));
    assert ts[0..] == ts && ts[2..] == [];
  }

  lemma LowerCaseStrip()
    ensures Strip("3r2l") == "3r2l"
  {
    StripUnchanged("3r2l");
  }

  lemma LowerCaseUpper()
    ensures Upper("3r2l") == "3R2L"
  {
  }

  lemma LowerCaseFixedAxes()
    ensures Last(PathCoords("3r2l", false, DefaultStart)) == Coord(1, 0, "N")
  {
    LowerCaseStrip();
    LowerCaseUpper();
    PathCoordsOfNormalisedPath("3r2l", false, DefaultStart);
    TokenizeLowerCase();
    LowerCaseFixedAxesWalk(0, 0);
    WalkEnds("3R2L", false, DefaultStart, LowerCaseTokens, Walker(1, 0, 0));
  }

  /** A zero-step left turn still turns: the next leg goes west. */
  lemma ZeroTurnTurnThenMoveSteps(x: int, y: int)
    ensures Step(true, Walker(x, y, 0), Token("0", 'L')) == Walker(x, y, 3)
    ensures Step(true, Walker(x, y, 3), Token("4", 'F')) == Walker(x - 4, y, 3)
  {
  }

  lemma ZeroTurnTurnThenMoveWalk(x: int, y: int)
    ensures Final(true, Walker(x, y, 0), ZeroTurnTokens) == Walker(x - 4, y, 3)
  {
    var ts := ZeroTurnTokens;
    ZeroTurnTurnThenMoveSteps(x, y);
    FinalCons(true, Walker(x, y, 0), ts, 0, Token("0", 'L'), Walker(x, y, 3));
    FinalCons(true, Walker(x, y, 3), ts, 1, Token("4", 'F'), Walker(x - 4, y, 3));
    assert ts[0..] == ts && ts[2..] == [];
  }

  lemma ZeroTurnTurnThenMove()
    ensures Last(PathCoords("0L4F", true, DefaultStart)) == Coord(-4, 0, "W")
  {
    TokenizeZeroTurn();
    ZeroTurnTurnThenMoveWalk(0, 0);
    WalkEnds("0L4F", true, DefaultStart, ZeroTurnTokens, Walker(-4, 0, 3));
  }

  /** The longer turn-then-move example ends at (2, 2). */
  lemma ComplexTurnThenMoveSteps(x: int, y: int)
    ensures Step(true, Walker(x, y, 0), Token("1", 'F')) == Walker(x, y + 1, 0)
    ensures Step(true, Walker(x, y + 1, 0), Token("2", 'R')) == Walker(x + 2, y + 1, 1)
    ensures Step(true, Walker(x + 2, y + 1, 1), Token("2", 'R')) == Walker(x + 2, y - 1, 2)
    ensures Step(true, Walker(x + 2, y - 1, 2), Token("1", 'F')) == Walker(x + 2, y - 2, 2)
    ensures Step(true, Walker(x + 2, y - 2, 2), Token("4", 'B')) == Walker(x + 2, y + 2, 0)
  {
  }

  lemma ComplexTurnThenMoveWalk(x: int, y: int)
    ensures Final(true, Walker(x, y, 0), ComplexTokens) == Walker(x + 2, y + 2, 0)
  {
    var ts := ComplexTokens;
    ComplexTurnThenMoveSteps(x, y);
    FinalCons(true, Walker(x, y, 0), ts, 0, Token("1", 'F'), Walker(x, y + 1, 0));
    FinalCons(true, Walker(x, y + 1, 0), ts, 1, Token("2", 'R'), Walker(x + 2, y + 1, 1));
    FinalCons(true, Walker(x + 2, y + 1, 1), ts, 2, Token("2", 'R'), Walker(x + 2, y - 1, 2));
    FinalCons(true, Walker(x + 2, y - 1, 2), ts, 3, Token("1", 'F'), Walker(x + 2, y - 2, 2));
    FinalCons(true, Walker(x + 2, y - 2, 2), ts, 4, Token("4", 'B'), Walker(x + 2, y + 2, 0));
    assert ts[0..] == ts && ts[5..] == [];
  }

  lemma ComplexTurnThenMove()
    ensures Last(PathCoords("1F2R2R1F4B", true, DefaultStart)) == Coord(2, 2, "N")
  {
    TokenizeComplex();
    ComplexTurnThenMoveWalk(0, 0);
    WalkEnds("1F2R2R1F4B", true, DefaultStart, ComplexTokens, Walker(2, 2, 0));
  }

  /** Under fixed axes the same path ends at (4, -2). */
  lemma ComplexFixedAxesSteps(x: int, y: int)
    ensures Step(false, Walker(x, y, 0), Token("1", 'F')) == Walker(x, y + 1, 0)
    ensures Step(false, Walker(x, y + 1, 0), Token("2", 'R')) == Walker(x + 2, y + 1, 0)
    ensures Step(false, Walker(x + 2, y + 1, 0), Token("2", 'R')) == Walker(x + 4, y + 1, 0)
    ensures Step(false, Walker(x + 4, y + 1, 0), Token("1", 'F')) == Walker(x + 4, y + 2, 0)
    ensures Step(false, Walker(x + 4, y + 2, 0), Token("4", 'B')) == Walker(x + 4, y - 2, 0)
  {
  }

  lemma ComplexFixedAxesWalk(x: int, y: int)
    ensures Final(false, Walker(x, y, 0), ComplexTokens) == Walker(x + 4, y - 2, 0)
  {
    var ts := ComplexTokens;
    ComplexFixedAxesSteps(x, y);
    FinalCons(false, Walker(x, y, 0), ts, 0, Token("1", 'F'), Walker(x, y + 1, 0));
    FinalCons(false, Walker(x, y + 1, 0), ts, 1, Token("2", 'R'), Walker(x + 2, y + 1, 0));
    FinalCons(false, Walker(x + 2, y + 1, 0), ts, 2, Token("2", 'R'), Walker(x + 4, y + 1, 0));
    FinalCons(false, Walker(x + 4, y + 1, 0), ts, 3, Token("1", 'F'), Walker(x + 4, y + 2, 0));
    FinalCons(false, Walker(x + 4, y + 2, 0), ts, 4, Token("4", 'B'), Walker(x + 4, y - 2, 0));
    assert ts[0..] == ts && ts[5..] == [];
  }

  lemma ComplexFixedAxes()
    ensures Last(PathCoords("1F2R2R1F4B", false, DefaultStart)) == Coord(4, -2, "N")
  {
    TokenizeComplex();
    ComplexFixedAxesWalk(0, 0);
    WalkEnds("1F2R2R1F4B", false, DefaultStart, ComplexTokens, Walker(4, -2, 0));
  }

}
