/** `get_path_coords`: the walk over the tokens of a path under the
    turn-then-move and the fixed-axes movement models. */
module Simulator {
  import opened Text
  import opened Tokens

  /** `DEFAULT_PATH` and `DEFAULT_START`. */
  const DefaultPath: string := "15F6B6B5L16R8B16F20L6F13F11R"
  const DefaultStart: (int, int) := (0, 0)

  /** An index into North, East, South, West, in clockwise order. */
  type Heading = h: int | 0 <= h < 4

  /** The unit vector of each heading (North is +y, East is +x). */
  const Directions: seq<(int, int)> := [(0, 1), (1, 0), (0, -1), (-1, 0)]

  /** The label reported for each heading. */
  const Labels: seq<string> := ["N", "E", "S", "W"]

  /** The loop state of `get_path_coords`: `x`, `y`, `current_direction`. */
  datatype Walker = Walker(x: int, y: int, heading: Heading)

  /** One element of the result: `(x, y, label)`. */
  datatype Coord = Coord(x: int, y: int, facing: string)

  /** The heading update of the turn-then-move model. Python's `%` and
      Dafny's agree here: the divisor is positive, so both give 0..3.
      `TurnIsRotation` states what the index arithmetic means. */
  function Turn(h: Heading, dir: char): Heading {
    if dir == 'L' then (h - 1) % 4
    else if dir == 'R' then (h + 1) % 4
    else if dir == 'B' then (h + 2) % 4
    else h
  }

  /** The effect of one token on the loop state. Under turn-then-move the
      walker turns and then moves `steps` cells along the new heading, which
      is spelled out per heading here; `Advance` computes the same move with
      the unit vectors of `Directions`, as the loop does. */
  function Step(turnThenMove: bool, w: Walker, t: Token): (r: Walker)
    requires WellFormed(t)
  {
    var steps := Steps(t);
    var dir := Direction(t);
    if turnThenMove then
      var h := Turn(w.heading, dir);
      if h == 0 then Walker(w.x, w.y + steps, h)
      else if h == 1 then Walker(w.x + steps, w.y, h)
      else if h == 2 then Walker(w.x, w.y - steps, h)
      else Walker(w.x - steps, w.y, h)
    else if dir == 'F' then w.(y := w.y + steps)
    else if dir == 'B' then w.(y := w.y - steps)
    else if dir == 'R' then w.(x := w.x + steps)
    else if dir == 'L' then w.(x := w.x - steps)
    else w
  }

  /** The loop states of the fold: the initial state, then one state after
      each token, each obtained from the one before by exactly that token. */
  function Trace(turnThenMove: bool, w: Walker, ts: seq<Token>): (r: seq<Walker>)
    requires ValidTokens(ts)
    ensures |r| == |ts| + 1 && r[0] == w
    ensures forall i {:trigger ts[i]} :: 0 <= i < |ts| ==> r[i + 1] == Step(turnThenMove, r[i], ts[i])
    decreases |ts|
  {
    if ts == [] then [w]
    else
      var prev := Trace(turnThenMove, w, ts[..|ts| - 1]);
      prev + [Step(turnThenMove, prev[|prev| - 1], ts[|ts| - 1])]
  }

  /** The state after all tokens. */
  function Final(turnThenMove: bool, w: Walker, ts: seq<Token>): Walker
    requires ValidTokens(ts)
  {
    Trace(turnThenMove, w, ts)[|ts|]
  }

  /** `(x, y, labels[current_direction])`. */
  function Render(w: Walker): Coord {
    Coord(w.x, w.y, Labels[w.heading])
  }

  /** The labels tell the four headings apart, so a reported element loses
      nothing of the loop state. */
  lemma RenderInjective(v: Walker, w: Walker)
    ensures Render(v) == Render(w) <==> v == w
  {
  }

  function Rendered(ws: seq<Walker>): (cs: seq<Coord>)
    ensures |cs| == |ws|
    ensures forall i :: 0 <= i < |ws| ==> cs[i] == Render(ws[i])
  {
    seq(|ws|, i requires 0 <= i < |ws| => Render(ws[i]))
  }

  /** The value `get_path_coords(s, turnThenMove, start)` returns: one
      element more than there are tokens, the first being the start facing
      North, whatever the path. */
  function PathCoords(s: string, turnThenMove: bool, start: (int, int)): (r: seq<Coord>)
    ensures |r| == |Tokenize(s)| + 1
    ensures r[0] == Coord(start.0, start.1, "N")
  {
    Rendered(Trace(turnThenMove, Walker(start.0, start.1, 0), Tokenize(s)))
  }

  /** `get_path_coords`: tokenize, then update `x`, `y` and
      `current_direction` token by token, appending each new state. */
  method GetPathCoords(s: string, turnThenMove: bool, start: (int, int)) returns (coords: seq<Coord>)
    ensures coords == PathCoords(s, turnThenMove, start)
  {
    var tokens := Tokenize(s);
    var currentDirection: Heading := 0;
    var x, y := start.0, start.1;
    coords := [Coord(x, y, Labels[currentDirection])];
    ghost var w0 := Walker(x, y, 0);
    assert tokens[..0] == [];
    for i := 0 to |tokens|
      invariant Trace(turnThenMove, w0, tokens[..i])[i] == Walker(x, y, currentDirection)
      invariant coords == Rendered(Trace(turnThenMove, w0, tokens[..i]))
    {
      x, y, currentDirection := Advance(turnThenMove, x, y, currentDirection, tokens[i]);
      LoopStep(turnThenMove, w0, tokens, i, coords, Walker(x, y, currentDirection));
      coords := coords + [Coord(x, y, Labels[currentDirection])];
    }
    assert tokens[..|tokens|] == tokens;
  }

  /** The body of the loop of `get_path_coords`: the new `x`, `y` and
      `current_direction` after one token; exactly one step of the fold. */
  method Advance(turnThenMove: bool, x: int, y: int, currentDirection: Heading, token: Token)
    returns (x': int, y': int, direction': Heading)
    requires WellFormed(token)
    ensures Walker(x', y', direction') == Step(turnThenMove, Walker(x, y, currentDirection), token)
  {
    var steps := DigitsValue(token.digits);
    var direction := UpperChar(token.letter);
    x', y', direction' := x, y, currentDirection;
    if turnThenMove {
      if direction == 'L' {
        direction' := (currentDirection - 1) % 4;
      } else if direction == 'R' {
        direction' := (currentDirection + 1) % 4;
      } else if direction == 'B' {
        direction' := (currentDirection + 2) % 4;
      }
      var (dx, dy) := Directions[direction'];
      x' := x + dx * steps;
      y' := y + dy * steps;
    } else {
      if direction == 'F' {
        y' := y + steps;
      } else if direction == 'B' {
        y' := y - steps;
      } else if direction == 'R' {
        x' := x + steps;
      } else if direction == 'L' {
        x' := x - steps;
      }
    }
  }

  /** The last token takes the walk from the end of the shorter trace to
      its own end. */
  lemma FinalSnoc(turnThenMove: bool, w: Walker, ts: seq<Token>)
    requires ValidTokens(ts) && ts != []
    ensures ValidTokens(ts[..|ts| - 1])
    ensures Final(turnThenMove, w, ts) == Step(turnThenMove, Final(turnThenMove, w, ts[..|ts| - 1]), ts[|ts| - 1])
  {
    TraceSnoc(turnThenMove, w, ts, |ts| - 1);
    assert ts[..|ts|] == ts;
  }

  /** Walking `a + b` is walking `a`, then walking `b` from where `a` ends. */
  lemma {:induction false} FinalAppend(turnThenMove: bool, w: Walker, a: seq<Token>, b: seq<Token>)
    requires ValidTokens(a) && ValidTokens(b)
    ensures ValidTokens(a + b)
    ensures Final(turnThenMove, w, a + b) == Final(turnThenMove, Final(turnThenMove, w, a), b)
    decreases |b|
  {
    var c := a + b;
    assert ValidTokens(c) by {
      forall i | 0 <= i < |c| ensures WellFormed(c[i]) {
        if i < |a| { assert c[i] == a[i]; } else { assert c[i] == b[i - |a|]; }
      }
    }
    if b == [] {
      assert c == a;
    } else {
      var b' := b[..|b| - 1];
      assert c[..|c| - 1] == a + b';
      assert c[|c| - 1] == b[|b| - 1];
      FinalSnoc(turnThenMove, w, c);
      FinalSnoc(turnThenMove, Final(turnThenMove, w, a), b);
      FinalAppend(turnThenMove, w, a, b');
    }
  }

  /** What one iteration of the loop of `GetPathCoords` keeps. */
  lemma LoopStep(turnThenMove: bool, w0: Walker, ts: seq<Token>, i: nat, coords: seq<Coord>, next: Walker)
    requires ValidTokens(ts) && i < |ts|
    requires ValidTokens(ts[..i]) && coords == Rendered(Trace(turnThenMove, w0, ts[..i]))
    requires next == Step(turnThenMove, Trace(turnThenMove, w0, ts[..i])[i], ts[i])
    ensures ValidTokens(ts[..i + 1])
    ensures Trace(turnThenMove, w0, ts[..i + 1])[i + 1] == next
    ensures coords + [Render(next)] == Rendered(Trace(turnThenMove, w0, ts[..i + 1]))
  {
    TraceSnoc(turnThenMove, w0, ts, i);
  }

  /** One more token extends the trace by the state that token leads to. */
  lemma TraceSnoc(turnThenMove: bool, w: Walker, ts: seq<Token>, i: nat)
    requires ValidTokens(ts) && i < |ts|
    ensures ValidTokens(ts[..i]) && ValidTokens(ts[..i + 1])
    ensures Trace(turnThenMove, w, ts[..i + 1])
            == Trace(turnThenMove, w, ts[..i]) + [Step(turnThenMove, Trace(turnThenMove, w, ts[..i])[i], ts[i])]
  {
    assert ts[..i + 1][..i] == ts[..i];
  }

  /** `coords[-1]`. */
  function Last(coords: seq<Coord>): Coord
    requires |coords| > 0
  {
    coords[|coords| - 1]
  }

  /** The displacement from the first to the last element. */
  function Displacement(coords: seq<Coord>): (d: (int, int))
    requires |coords| > 0
    ensures coords[0].x + d.0 == Last(coords).x && coords[0].y + d.1 == Last(coords).y
  {
    (Last(coords).x - coords[0].x, Last(coords).y - coords[0].y)
  }

  /** The square of the straight-line distance from the first to the last
      element, `dx * dx + dy * dy`. */
  function SquaredDistance(coords: seq<Coord>): (d: int)
    requires |coords| > 0
    ensures d >= 0
    ensures d == 0 <==> Last(coords).x == coords[0].x && Last(coords).y == coords[0].y
  {
    var (dx, dy) := Displacement(coords);
    dx * dx + dy * dy
  }

  // ---------------------------------------------------------------------
  // Turn-then-move

  /** The unit vector rotated the way a direction letter turns the walker:
      R clockwise, L counter-clockwise, B half way round, F not at all. */
  function Rotated(v: (int, int), dir: char): (int, int) {
    if dir == 'R' then (v.1, -v.0)
    else if dir == 'L' then (-v.1, v.0)
    else if dir == 'B' then (-v.0, -v.1)
    else v
  }

  /** The index arithmetic of `Turn` is the geometric rotation of the
      heading's unit vector. */
  lemma TurnIsRotation(h: Heading, dir: char)
    ensures Directions[Turn(h, dir)] == Rotated(Directions[h], dir)
  {
  }

  /** The quarter turns clockwise one token makes: R 1, B 2, L 3, F 0. */
  function QuarterTurns(t: Token): nat
    requires WellFormed(t)
  {
    var dir := Direction(t);
    if dir == 'R' then 1 else if dir == 'B' then 2 else if dir == 'L' then 3 else 0
  }

  function TotalTurns(ts: seq<Token>): nat
    requires ValidTokens(ts)
    decreases |ts|
  {
    if ts == [] then 0 else TotalTurns(ts[..|ts| - 1]) + QuarterTurns(ts[|ts| - 1])
  }

  /** Under turn-then-move the final heading is the start heading plus all
      quarter turns, modulo 4: a turn by a zero-step token counts as much as
      any other. */
  lemma {:induction false} TurnThenMoveHeading(w: Walker, ts: seq<Token>)
    requires ValidTokens(ts)
    ensures Final(true, w, ts).heading == (w.heading + TotalTurns(ts)) % 4
    decreases |ts|
  {
    if ts == [] {
      NoTurns(w);
    } else {
      var n := |ts| - 1;
      FinalHeadingSnoc(w, ts);
      TurnThenMoveHeading(w, ts[..n]);
      QuarterTurnsAdd(w.heading, TotalTurns(ts[..n]), QuarterTurns(ts[n]), TotalTurns(ts),
                      Final(true, w, ts[..n]).heading, Final(true, w, ts).heading);
    }
  }

  /** With no tokens there is no turn. */
  lemma NoTurns(w: Walker)
    ensures Final(true, w, []).heading == (w.heading + TotalTurns([])) % 4
  {
    assert Final(true, w, []) == w;
  }

  /** The last token adds its quarter turns to the heading the shorter
      walk ends with. */
  lemma FinalHeadingSnoc(w: Walker, ts: seq<Token>)
    requires ValidTokens(ts) && ts != []
    ensures ValidTokens(ts[..|ts| - 1])
    ensures Final(true, w, ts).heading
            == (Final(true, w, ts[..|ts| - 1]).heading + QuarterTurns(ts[|ts| - 1])) % 4
  {
    FinalSnoc(true, w, ts);
    StepTurnsHeading(Final(true, w, ts[..|ts| - 1]), ts[|ts| - 1]);
  }

  /** One token adds its quarter turns to the heading. */
  lemma StepTurnsHeading(w: Walker, t: Token)
    requires WellFormed(t)
    ensures Step(true, w, t).heading == (w.heading + QuarterTurns(t)) % 4
  {
    TurnIsQuarterTurns(w.heading, t);
  }

  lemma TurnIsQuarterTurns(h: Heading, t: Token)
    requires WellFormed(t)
    ensures Turn(h, Direction(t)) == (h + QuarterTurns(t)) % 4
  {
  }

  /** Adding quarter turns one token at a time, reducing modulo 4 after
      each, is adding them all and reducing once. */
  lemma QuarterTurnsAdd(h: int, turns: int, q: int, total: int, mid: int, end: int)
    requires mid == (h + turns) % 4 && end == (mid + q) % 4 && total == turns + q
    ensures end == (h + total) % 4
  {
  }

  /** Under turn-then-move each token moves the walker `steps` times the
      unit vector of the heading it has just turned to, so a zero-step token
      turns without moving. */
  lemma TurnThenMoveMoves(w: Walker, t: Token)
    requires WellFormed(t)
    ensures Step(true, w, t).heading == Turn(w.heading, Direction(t))
    ensures Step(true, w, t).x - w.x == Steps(t) * Directions[Step(true, w, t).heading].0
    ensures Step(true, w, t).y - w.y == Steps(t) * Directions[Step(true, w, t).heading].1
    ensures Steps(t) == 0 ==> Step(true, w, t) == w.(heading := Turn(w.heading, Direction(t)))
  {
  }

  // ---------------------------------------------------------------------
  // Fixed axes

  /** The steps one token contributes to direction `dir`. */
  function Contribution(t: Token, dir: char): nat
    requires WellFormed(t)
  {
    if Direction(t) == dir then Steps(t) else 0
  }

  /** The steps of all tokens with direction `dir`. */
  function Total(ts: seq<Token>, dir: char): nat
    requires ValidTokens(ts)
    decreases |ts|
  {
    if ts == [] then 0 else Total(ts[..|ts| - 1], dir) + Contribution(ts[|ts| - 1], dir)
  }

  /** Under fixed axes the heading is never changed. */
  lemma {:induction false} FixedAxesKeepsHeading(w: Walker, ts: seq<Token>)
    requires ValidTokens(ts)
    ensures forall i :: 0 <= i <= |ts| ==> Trace(false, w, ts)[i].heading == w.heading
    decreases |ts|
  {
    if ts != [] {
      var n := |ts| - 1;
      assert ts[..n + 1][..n] == ts[..n];
      FixedAxesKeepsHeading(w, ts[..n]);
      assert forall i :: 0 <= i <= n ==> Trace(false, w, ts)[i] == Trace(false, w, ts[..n])[i];
    }
  }

  /** Under fixed axes every element of the result is labelled North. */
  lemma FixedAxesAllNorth(s: string, start: (int, int))
    ensures forall i :: 0 <= i < |PathCoords(s, false, start)| ==>
              PathCoords(s, false, start)[i].facing == "N"
  {
    FixedAxesKeepsHeading(Walker(start.0, start.1, 0), Tokenize(s));
  }

  /** Under fixed axes the walk ends at the start plus the R steps minus the
      L steps on x and the F steps minus the B steps on y. */
  lemma {:induction false} FixedAxesEnd(w: Walker, ts: seq<Token>)
    requires ValidTokens(ts)
    ensures Final(false, w, ts) ==
              Walker(w.x + Total(ts, 'R') - Total(ts, 'L'), w.y + Total(ts, 'F') - Total(ts, 'B'), w.heading)
    decreases |ts|
  {
    if ts != [] {
      FinalSnoc(false, w, ts);
      FixedAxesEnd(w, ts[..|ts| - 1]);
    }
  }

  lemma {:induction false} TotalAppend(a: seq<Token>, b: seq<Token>, dir: char)
    requires ValidTokens(a) && ValidTokens(b)
    ensures ValidTokens(a + b) && Total(a + b, dir) == Total(a, dir) + Total(b, dir)
    decreases |b|
  {
    if b == [] {
      assert a + b == a;
    } else {
      var n := |b| - 1;
      assert (a + b)[..|a + b| - 1] == a + b[..n];
      TotalAppend(a, b[..n], dir);
    }
  }

  /** Taking one token out of the sequence takes its contribution out of
      the total. */
  lemma TotalRemove(b: seq<Token>, j: nat, dir: char)
    requires ValidTokens(b) && j < |b|
    ensures ValidTokens(b[..j] + b[j + 1..])
    ensures Total(b, dir) == Total(b[..j] + b[j + 1..], dir) + Contribution(b[j], dir)
  {
    var t := b[j];
    assert b == b[..j] + ([t] + b[j + 1..]);
    assert [t][..0] == [];
    TotalAppend(b[..j], [t] + b[j + 1..], dir);
    TotalAppend([t], b[j + 1..], dir);
    TotalAppend(b[..j], b[j + 1..], dir);
  }

  /** Removing the last element of `a` and one equal element of `b` keeps
      the two sequences permutations of each other. */
  lemma RemoveMatching<T>(a: seq<T>, b: seq<T>, j: nat)
    requires a != [] && j < |b| && b[j] == a[|a| - 1]
    requires multiset(a) == multiset(b)
    ensures multiset(b[..j] + b[j + 1..]) == multiset(a[..|a| - 1])
  {
    var t := b[j];
    assert a == a[..|a| - 1] + [t];
    assert b == b[..j] + [t] + b[j + 1..];
    assert multiset(b) == multiset(b[..j]) + multiset{t} + multiset(b[j + 1..]);
    assert multiset(a) == multiset(a[..|a| - 1]) + multiset{t};
    assert multiset(b[..j] + b[j + 1..]) == multiset(b[..j]) + multiset(b[j + 1..]);
    assert multiset(b[..j]) + multiset(b[j + 1..]) == multiset(b) - multiset{t};
    assert multiset(a[..|a| - 1]) == multiset(a) - multiset{t};
  }

  /** `Total` depends only on which tokens there are, not on their order. */
  lemma {:induction false} TotalPermutation(a: seq<Token>, b: seq<Token>, dir: char)
    requires ValidTokens(a) && ValidTokens(b)
    requires multiset(a) == multiset(b)
    ensures Total(a, dir) == Total(b, dir)
    decreases |a|
  {
    if a == [] {
      assert |b| == |multiset(b)| == 0;
    } else {
      var n := |a| - 1;
      assert a[n] in multiset(b);
      var j :| 0 <= j < |b| && b[j] == a[n];
      TotalRemove(b, j, dir);
      RemoveMatching(a, b, j);
      TotalPermutation(a[..n], b[..j] + b[j + 1..], dir);
    }
  }

  /** Under fixed axes the end of the walk does not depend on the order of
      the tokens. */
  lemma FixedAxesOrderIndependent(w: Walker, a: seq<Token>, b: seq<Token>)
    requires ValidTokens(a) && ValidTokens(b)
    requires multiset(a) == multiset(b)
    ensures Final(false, w, a) == Final(false, w, b)
  {
    FixedAxesEnd(w, a);
    FixedAxesEnd(w, b);
    TotalPermutation(a, b, 'R');
    TotalPermutation(a, b, 'L');
    TotalPermutation(a, b, 'F');
    TotalPermutation(a, b, 'B');
  }

  // ---------------------------------------------------------------------
  // Both models

  function Shift(w: Walker, dx: int, dy: int): Walker {
    w.(x := w.x + dx, y := w.y + dy)
  }

  /** Moving a walker moves where its next step lands by the same amount. */
  lemma StepTranslates(turnThenMove: bool, w: Walker, t: Token, dx: int, dy: int)
    requires WellFormed(t)
    ensures Step(turnThenMove, Shift(w, dx, dy), t) == Shift(Step(turnThenMove, w, t), dx, dy)
  {
  }

  /** Moving the start moves every state of the walk by the same amount. */
  lemma {:induction false} TraceTranslates(turnThenMove: bool, w: Walker, ts: seq<Token>, dx: int, dy: int)
    requires ValidTokens(ts)
    ensures forall i :: 0 <= i <= |ts| ==>
              Trace(turnThenMove, Shift(w, dx, dy), ts)[i] == Shift(Trace(turnThenMove, w, ts)[i], dx, dy)
    decreases |ts|
  {
    if ts != [] {
      var n := |ts| - 1;
      var init := ts[..n];
      TraceSnoc(turnThenMove, w, ts, n);
      TraceSnoc(turnThenMove, Shift(w, dx, dy), ts, n);
      assert ts[..n + 1] == ts;
      TraceTranslates(turnThenMove, w, init, dx, dy);
      StepTranslates(turnThenMove, Trace(turnThenMove, w, init)[n], ts[n], dx, dy);
    }
  }

  /** The displacement of a walk, and so its distance, does not depend on
      where it starts, under either model. */
  lemma DisplacementIndependentOfStart(s: string, turnThenMove: bool, p: (int, int), q: (int, int))
    ensures Displacement(PathCoords(s, turnThenMove, p)) == Displacement(PathCoords(s, turnThenMove, q))
    ensures SquaredDistance(PathCoords(s, turnThenMove, p)) == SquaredDistance(PathCoords(s, turnThenMove, q))
  {
    var ts := Tokenize(s);
    var wp := Walker(p.0, p.1, 0);
    var wq := Walker(q.0, q.1, 0);
    assert wq == Shift(wp, q.0 - p.0, q.1 - p.1);
    TraceTranslates(turnThenMove, wp, ts, q.0 - p.0, q.1 - p.1);
  }

  // ---------------------------------------------------------------------
  // The path the simulator walks

  /** `direction.upper()` makes the letter's case irrelevant to a step. */
  lemma StepIgnoresCase(turnThenMove: bool, w: Walker, t: Token)
    requires WellFormed(t)
    ensures WellFormed(Token(t.digits, UpperChar(t.letter)))
    ensures Step(turnThenMove, w, Token(t.digits, UpperChar(t.letter))) == Step(turnThenMove, w, t)
  {
    assert UpperChar(UpperChar(t.letter)) == UpperChar(t.letter);
  }

  /** The walk over the tokens with upper-cased letters is the same walk. */
  lemma {:induction false} TraceIgnoresCase(turnThenMove: bool, w: Walker, ts: seq<Token>)
    requires ValidTokens(ts)
    ensures ValidTokens(UpperTokens(ts))
    ensures Trace(turnThenMove, w, UpperTokens(ts)) == Trace(turnThenMove, w, ts)
    decreases |ts|
  {
    var us := UpperTokens(ts);
    forall i | 0 <= i < |ts| ensures WellFormed(us[i]) {
      StepIgnoresCase(turnThenMove, w, ts[i]);
    }
    if ts != [] {
      var n := |ts| - 1;
      assert us[..n] == UpperTokens(ts[..n]);
      TraceIgnoresCase(turnThenMove, w, ts[..n]);
      var before := Trace(turnThenMove, w, ts[..n]);
      StepIgnoresCase(turnThenMove, before[n], ts[n]);
    }
  }

  /** The simulator walks the very string the validator checks: stripping
      and upper-casing the path first changes no element of the result. */
  lemma PathCoordsOfNormalisedPath(s: string, turnThenMove: bool, start: (int, int))
    ensures PathCoords(Upper(Strip(s)), turnThenMove, start) == PathCoords(s, turnThenMove, start)
  {
    TokenizeStrip(s);
    TokenizeUpper(Strip(s));
    TraceIgnoresCase(turnThenMove, Walker(start.0, start.1, 0), Tokenize(s));
  }
}
