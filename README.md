# Adventurer distance, modelled in Dafny

`adventurer_distance.py` reads a path such as `15F6B6B5L16R8B16F20L6F13F11R`,
a sequence of `<steps><letter>` tokens with letters F (forward), B (back),
R (right) and L (left). It checks the path with `validate_path` and walks it
on the integer lattice with `get_path_coords`, which returns the start and
then the state after every token as `(x, y, label)`. There are two movement
models. Under *turn-then-move* the walker turns (R a quarter turn clockwise,
L counter-clockwise, B half way round) and then moves `steps` cells along
its new heading. Under *fixed axes* F/B/R/L add to or subtract from y or x
directly, and the heading stays North.

The project has five modules:

- `Text` (`text.dfy`): ASCII digits and whitespace, `str.upper()` and
  `str.strip()`.
- `Tokens` (`tokens.dfy`): the tokenizer, i.e. the matches of
  `re.findall(r'(\d+)([FBRL])', s, re.IGNORECASE)`. It is a left-to-right
  scan over maximal digit runs. The module proves that the tokenizer reads
  back what `Spelled` writes, ignores case, ignores surrounding
  whitespace, and skips unmatched text anywhere in the path: a letter
  with no digits before it, a digit run with no letter after it, or any
  other character.
- `Validator` (`validator.dfy`): `validate_path`. The regular expression
  `(?:\d+[FBRL])+` becomes the recursive matcher `IsPath`, which is proved
  equal to the language "one or more canonical tokens written one after
  the other" (`IsSpelling`). The module also proves that the validator
  accepts a path exactly when the tokenizer accounts for every character of
  its stripped, upper-cased form.
- `Simulator` (`simulator.dfy`): `get_path_coords`, as the method
  `GetPathCoords` with the source's loop. Its loop body is the method
  `Advance`. Both are proved against the pure fold `Trace`, over the step
  function `Step`. The properties of both movement models are lemmas about
  `Trace`.
- `Examples` (`examples.dfy`): the expectations of
  `tests/test_adventurer_distance.py`, proved of the model. These are the
  accepted and rejected paths and the end points of the test walks.

## Model

| member | source | states |
|---|---|---|
| Validator.ValidatePath | adventurer_distance.py:30-39 | `None` is rejected. A string is accepted iff its stripped, upper-cased form is one or more upper-case `<digits><F/B/R/L>` tokens with nothing before, between or after them. |
| Validator.IsPath | adventurer_distance.py:39 | A string the pattern matches is at least two characters long, starts with a digit and ends with an upper-case direction letter. |
| Validator.IsPathIff | adventurer_distance.py:39 | The matcher `IsPath` holds exactly of the language of `(?:\d+[FBRL])+`: the spellings of one or more canonical tokens. |
| Validator.PathTokens | adventurer_distance.py:39 | On a matched string the tokenizer finds at least one token. All tokens are upper case, and spelled in order they give back the string. |
| Validator.SpelledIsPath | adventurer_distance.py:39 | Every spelling of one or more canonical tokens is matched. |
| Validator.ValidateMeansTokenizerReadsAll | adventurer_distance.py:38-43 | The validator accepts a path iff the tokenizer, run on the raw path, finds a token and its tokens spell exactly `path.strip().upper()`. |
| Text.StripSpec | adventurer_distance.py:38 | `strip()` yields a string that does not start or end with whitespace, and the input is whitespace, then that string, then whitespace. |
| Text.Strip | adventurer_distance.py:38 | The stripped string sits in `s` right after its leading whitespace, only whitespace follows it, and it neither starts nor ends with whitespace. |
| Text.SpaceCharacters | adventurer_distance.py:38 | The characters `strip()` removes are exactly tab, line feed, vertical tab, form feed, carriage return, 0x1C-0x1F and the space. |
| Text.UpperChar | adventurer_distance.py:38 | A lower-case ASCII letter becomes its upper-case letter (32 code points lower), every other character is kept, and no result is a lower-case letter. |
| Text.Upper | adventurer_distance.py:38 | `upper()` keeps the length and upper-cases each character in place. |
| Text.UpperSlice | adventurer_distance.py:38 | Upper-casing commutes with slicing. |
| Tokens.DigitRun | adventurer_distance.py:43 | The leading run of `\d+` is all digits and is maximal, followed by a non-digit or the end of the string. |
| Tokens.Tokenize | adventurer_distance.py:43 | Every match has a non-empty digit run and a direction letter in either case. |
| Tokens.TokenizeSpelled | adventurer_distance.py:43 | Tokenizing the spelling of canonical tokens gives back the same tokens in the same order. |
| Tokens.TokenizeUpper | adventurer_distance.py:43 | Because of `re.IGNORECASE`, the upper-cased string yields the same tokens with upper-cased letters. |
| Tokens.TokenizeStrip | adventurer_distance.py:38-43 | Whitespace around the path does not change the tokens. |
| Tokens.TokenizeAppendBlank | adventurer_distance.py:43 | A trailing character that is neither a digit nor a direction letter neither adds a token nor cuts one short. |
| Tokens.TokenizeSkip | adventurer_distance.py:43 | A character that is neither a digit nor a direction letter, anywhere in the string, yields no token and splits the matches: those of the text before it, then those of the text after it. |
| Tokens.TokenizeAppend | adventurer_distance.py:43 | When `a` does not end in a digit, the matches of `a + b` are those of `a` followed by those of `b`: unmatched text in `a` is skipped, and no match spans the seam. |
| Tokens.DigitsAlone | adventurer_distance.py:43 | A run of digits alone has no matches. |
| Tokens.DigitsValue | adventurer_distance.py:54 | `int(n_str)` is 0 exactly when every digit of the run is `0`. |
| Tokens.SpelledUpper | adventurer_distance.py:55 | The spelling of a token does not depend on its letter's case. |
| Tokens.LeadingZero | adventurer_distance.py:54 | A leading zero does not change `int(n_str)`. |
| Tokens.Direction | adventurer_distance.py:55 | `direction.upper()` of a match is always one of F, B, R, L. |
| Simulator.GetPathCoords | adventurer_distance.py:41-78 | The loop returns exactly the rendered fold `PathCoords` of the tokens from the start heading North. |
| Simulator.Advance | adventurer_distance.py:53-74 | One iteration of the loop body, with its unit vectors and `dx * steps`, computes exactly one `Step` of the fold. |
| Simulator.PathCoords | adventurer_distance.py:48-51 | The result has one element more than there are tokens. Element 0 is `(start.x, start.y, "N")`, even for a path without tokens. |
| Simulator.Trace | adventurer_distance.py:53-76 | State 0 is the start. Every later state is the one before it after exactly one token, in token order. |
| Simulator.FinalAppend | adventurer_distance.py:53-76 | Walking `a + b` is walking `a`, then walking `b` from where `a` ends. |
| Simulator.RenderInjective | adventurer_distance.py:76 | `(x, y, labels[current_direction])` tells apart any two loop states: two states render alike iff they are equal. |
| Simulator.Displacement | adventurer_distance.py:101-102 | `dx`, `dy` are the offsets that take the first element's position to the last one's. |
| Simulator.SquaredDistance | adventurer_distance.py:101-103 | `dx * dx + dy * dy` is never negative, and it is 0 iff the walk ends where it started. |
| Simulator.TurnIsRotation | adventurer_distance.py:57-65 | The index arithmetic `(h ± 1) % 4`, `(h + 2) % 4` rotates the heading's unit vector. R rotates it clockwise, L counter-clockwise and B half way round; F leaves it alone. |
| Simulator.StepTurnsHeading | adventurer_distance.py:57-63 | Under turn-then-move one token adds its quarter turns to the heading, modulo 4: R 1, B 2, L 3, F 0. |
| Simulator.TurnThenMoveHeading | adventurer_distance.py:57-63 | Under turn-then-move the final heading is the start heading plus the quarter turns of all tokens, modulo 4. Zero-step tokens count too. |
| Simulator.TurnThenMoveMoves | adventurer_distance.py:57-67 | Under turn-then-move the walker first takes the new heading, then moves `steps` times that heading's unit vector. A zero-step token only turns. |
| Simulator.FixedAxesKeepsHeading | adventurer_distance.py:69-74 | Under fixed axes no state changes the heading. |
| Simulator.FixedAxesAllNorth | adventurer_distance.py:69-76 | Under fixed axes every element of the result is labelled `"N"`. |
| Simulator.FixedAxesEnd | adventurer_distance.py:69-74 | Under fixed axes the walk ends at `(x + ΣR − ΣL, y + ΣF − ΣB)`. |
| Simulator.TotalPermutation | adventurer_distance.py:69-74 | The steps per direction depend only on the multiset of tokens. |
| Simulator.FixedAxesOrderIndependent | adventurer_distance.py:69-74 | Under fixed axes any reordering of the tokens ends at the same state. |
| Simulator.TraceTranslates | adventurer_distance.py:65-74 | Moving the start moves every state of the walk by the same amount, under both models. |
| Simulator.DisplacementIndependentOfStart | adventurer_distance.py:101-103 | The displacement from the first to the last element does not depend on `start`, so neither does the squared distance. |
| Simulator.StepIgnoresCase | adventurer_distance.py:55 | `direction.upper()` makes a step independent of the letter's case. |
| Simulator.TraceIgnoresCase | adventurer_distance.py:55 | The walk over upper-cased tokens is the same walk. |
| Simulator.PathCoordsOfNormalisedPath | adventurer_distance.py:38-78 | The simulator gives the same result for the raw path and for the stripped, upper-cased path the validator checks. |
| Examples.ValidateDefaultPath | tests/test_adventurer_distance.py:12 | `DEFAULT_PATH` is accepted. |
| Examples.ValidateMixedPath | tests/test_adventurer_distance.py:13 | `"1F2B3L4R"` is accepted. |
| Examples.ValidateLeadingZeroLowerCase | tests/test_adventurer_distance.py:14 | `"01f5R"` is accepted: it has a leading zero and a lower-case letter. |
| Examples.ValidateEmptyAndNone | tests/test_adventurer_distance.py:15-16 | `""` and `None` are rejected. |
| Examples.ValidateUnknownLetter | tests/test_adventurer_distance.py:17 | `"12X"` is rejected. |
| Examples.ValidateLetterFirst | tests/test_adventurer_distance.py:18 | `"F10"` is rejected. |
| Examples.TokenizeLetterFirst | tests/test_adventurer_distance.py:18 | The rejected path `"F10"` has no matches, so the simulator would skip all of it. |
| Examples.TokenizeDoubledLetter | adventurer_distance.py:43 | In `"1FF2B"` the second `F` is skipped, leaving `[1F, 2B]`. |
| Examples.TokenizeTrailingDigits | adventurer_distance.py:43 | In `"1F2"` the trailing `2` is dropped, leaving `[1F]`. |
| Examples.ValidateZeroSteps | adventurer_distance.py:32-39 | A zero step count (`"0L4F"`) is accepted. |
| Examples.TokenizeDefaultPath | adventurer_distance.py:27 | `DEFAULT_PATH` yields its eleven tokens in order. |
| Examples.TokenizeMixed | tests/test_adventurer_distance.py:13 | `"1F2B3L4R"` yields four tokens in order. |
| Examples.DefaultPathTurnThenMove | tests/test_adventurer_distance.py:25-28 | Under turn-then-move the default path ends at `(34, -4, "S")`, at squared distance 1172 (√1172 ≈ 34.234). |
| Examples.DefaultPathFixedAxes | tests/test_adventurer_distance.py:30-33 | Under fixed axes the default path ends at `(2, 30, "N")`, at squared distance 904 (√904 ≈ 30.067). |
| Examples.CornerTurnThenMove | tests/test_adventurer_distance.py:39 | Under turn-then-move `"1F1R1F"` ends at `(2, 1, "E")`. |
| Examples.CornerFixedAxes | tests/test_adventurer_distance.py:40 | Under fixed axes `"1F1R1F"` ends at `(1, 2, "N")`. |
| Examples.SquareTurnThenMove | tests/test_adventurer_distance.py:41 | Under turn-then-move `"1R1R1R1R"` ends back at `(0, 0, "N")`. |
| Examples.SquareFixedAxes | tests/test_adventurer_distance.py:42 | Under fixed axes `"1R1R1R1R"` ends at `(4, 0, "N")`. |
| Examples.CancelFixedAxes | tests/test_adventurer_distance.py:43 | Under fixed axes `"1F1B1R1L"` ends back at `(0, 0, "N")`. |
| Examples.LowerCaseFixedAxes | tests/test_adventurer_distance.py:44 | Under fixed axes `"3r2l"` ends at `(1, 0, "N")`. |
| Examples.ComplexTurnThenMove | tests/test_adventurer_distance.py:45 | Under turn-then-move `"1F2R2R1F4B"` ends at `(2, 2, "N")`. |
| Examples.ComplexFixedAxes | adventurer_distance.py:69-74 | Under fixed axes `"1F2R2R1F4B"` ends at `(4, -2, "N")`. |
| Examples.ZeroTurnTurnThenMove | tests/test_adventurer_distance.py:53-56 | Under turn-then-move `"0L4F"` turns without moving, then ends at `(-4, 0, "W")`. |

Where the docstring and the code disagree, the model follows the code:

- The docstring of `validate_path` (adventurer_distance.py:32) speaks of
  positive step counts, but `\d+` also accepts `0`. The tests rely on zero
  steps (`"0L4F"`), and `Examples.ValidateZeroSteps` proves the code's
  behaviour.
- The test row at tests/test_adventurer_distance.py:46 expects fixed axes
  to take `"1F2R2R1F4B"` to `(2, 2)`. The code at adventurer_distance.py:69-74
  gives `(4, -2)`, which is what `Examples.ComplexFixedAxes` proves.
- Lines 45 and 46 of that file also have no comma between them, so Python
  reads the two tuples as one call expression. The test list cannot be
  built as written. The model takes line 45's turn-then-move expectation,
  which agrees with the code.

## Left out

- `main` (adventurer_distance.py:80-114): argument parsing, printing, the
  exit status, and the "validate, then abort" flow that calls
  `validate_path` and `get_path_coords`. This is I/O plumbing.
- The float distance: `math.hypot` (adventurer_distance.py:101-103) and the
  tests' `pytest.approx`. The model states the exact integer squared
  distance `dx * dx + dy * dy` (`Simulator.SquaredDistance`) instead.
- Unicode: `\d` and `int()` accept non-ASCII decimal digits. `strip()` also
  removes non-ASCII whitespace. `upper()` upper-cases non-ASCII letters and
  can change a string's length. The model uses ASCII digits, the ASCII
  characters `str.isspace()` holds of, and ASCII case folding.
- The regex engine itself. `Tokens.Tokenize` is a scan over maximal digit
  runs; it is not a general backtracking search. For the pattern
  `(\d+)([FBRL])` the two find the same matches. A digit run with no letter
  after it cannot match from any later start inside the run either, since
  the next character would still follow the run. This equivalence is argued
  here, not proved against a regex semantics.
- Tokens.DigitsValue: does not model the `ValueError` that `int(n_str)`
  raises at adventurer_distance.py:54, on CPython versions that limit
  integer-string conversion, for a digit run longer than
  `sys.get_int_max_str_digits()` (4300 by default). The model returns the
  value of a run of any length instead.
- `Tokens.Steps`, `Simulator.Turn`, `Simulator.Step`, `Simulator.Render` and
  `Text.IsSpace` carry no `ensures` of their own. What they mean is stated
  by `Tokens.DigitsValue`, `Simulator.TurnIsRotation`,
  `Simulator.StepTurnsHeading` and `Simulator.TurnThenMoveMoves`,
  `Simulator.RenderInjective` and `Text.SpaceCharacters`.
- The constants `DEFAULT_PATH`, `DEFAULT_START`, `directions` and `labels`
  (adventurer_distance.py:27-28, 46-47) are `Simulator.DefaultPath`,
  `Simulator.DefaultStart`, `Simulator.Directions` and `Simulator.Labels`.
  They are stated through `Examples.TokenizeDefaultPath`,
  `Examples.DefaultPathTurnThenMove`, `Simulator.TurnIsRotation` and
  `Simulator.RenderInjective`.
- The default arguments of `get_path_coords` (`turn_then_move=True`,
  `start=DEFAULT_START`) are passed explicitly.
