# Mnemonica trainer: the quiz session state machine

Mnemonica is a Dash app for memorising a stack, which is a fixed order of the
52 playing cards (Tamariz, Aronson). The app shows either a position, and the
user types the card, or a card, and the user types its position. Everything
the quiz does on each event of the main tab happens in one "mega callback".
This model covers that callback and the helper that draws a problem. They appear twice,
with the same text: in `mnemonica.py` and in `app.py`. The model also covers
the forward/backward/clamp rule of the loci tab.

On every cycle the callback receives:
- the reload button's click count;
- the answer box's Enter count;
- the question-type radio (0 position, 1 card, 2 either);
- the stack dropdown value;
- the stack data, the answer text, the stored problem and the `log` store.

The callback then runs these steps in order:
1. Three independent change checks. Each one redraws the problem when it fires:
   - the radio differs from the log;
   - the dropdown differs from the log;
   - the click count is exactly one past the log's count.
2. A submit check. It fires when the Enter count is exactly one past the log's
   count. It counts the attempt and grades the upper-cased answer. A correct
   answer counts a win and draws a new problem. Either way the answer box is
   cleared.
3. The outputs: the prompt image path and the rolling score.

## Layout

- `wrappers.dfy`, module `Wrappers`: `Option`, for Dash properties that may be unset (`None`).
- `text.dfy`, module `Text`: Python's `str()` on ints (`NatToString`, `IntToString`) with its
  inverse `ParseNat`, and `str.upper()` (`Upper`).
- `problems.dfy`, module `Problems`:
  - stacks as `seq<(int, string)>` and the problem record;
  - `_problem_setup` as `ProblemSetup`;
  - grading (`Grade`) and the prompt image path (`PromptImageRef`).
- `session.dfy`, module `Session`:
  - the `log` dict as class `Log`, which the callback updates in place;
  - the cycle as a spec function `Cycle`, built from `ChangeChecks` and `SubmitCheck`;
  - the in-place callback `MegaCallback`. It is split into `UpdateProblem` and
    `TestSolution`, following the source's "problem updating" and "solutions
    testing" sections. Each part is proved equal to its spec function.
  - the rolling score;
  - whole sessions (`Run`) and their invariants.
- `loci.dfy`, module `Loci`: the loci tab's step/clamp rule.

The random draws of `_problem_setup` are parameters:
- a `Draw` is one row index plus one coin for the "either" type;
- a `Draws` record holds one `Draw` for each of the four places where a cycle
  can call `_problem_setup`: the mode change, the stack change, the reload,
  and the win.

`app.py:323-455` has the same text as `mnemonica.py:392-524`, so the model
contains one copy. The table below cites `mnemonica.py` for the definitions.
It cites `app.py` for the properties stated about that copy.

Some behaviour of the code that the model keeps as written:
- **No trimming.** Answers are upper-cased but not trimmed. `GradeNoTrimming`
  and `GradePositionExact` show that `" 7"` and `"07"` are refused.
- **Grading is never skipped.** The callback has no path that skips grading.
  The initial problem store (`{'posn': 0, 'type': 0}`) is replaced by the
  first cycle before anything reads it (`FirstCycleDrawsProblem`).
- **Clearing the answer.** The answer box is cleared after every counted
  submission, wrong ones included.
- **Empty stacks raise.** An empty stack or an empty card code makes
  `_problem_setup` raise. The model requires a stack that has rows and whose
  card codes are non-empty (`ValidStack`).

## Model

| member | source | states |
|---|---|---|
| Text.NatToString | mnemonica.py:508 | `str(n)` of a non-negative int is a non-empty string of digits with no leading zero; it starts with `'0'` only for 0 |
| Text.IntToString | mnemonica.py:481 | `str(i)` is non-empty; canonical digits for `i >= 0`, a `'-'` followed by canonical digits for `i < 0` |
| Text.ParseNatToString | mnemonica.py:481 | reading back the numeral that `str()` writes gives the number again |
| Text.NatToStringOfParse | mnemonica.py:481 | every canonical numeral is the `str()` of its value |
| Text.NatToStringExact | mnemonica.py:481 | a string equals `str(n)` if and only if it is a canonical numeral whose value is `n` |
| Text.IntToStringInjective | mnemonica.py:508 | different ints never print alike |
| Text.Upper | mnemonica.py:479 | `upper()` keeps the length and every character that is not a lower-case letter, maps each lower-case letter to its capital, and leaves no lower-case letter |
| Text.UpperIdempotent | mnemonica.py:481 | upper-casing twice equals upper-casing once |
| Text.UpperKeepsUpper | mnemonica.py:479 | a string with no lower-case letter, such as a card code or a numeral, is its own upper case |
| Problems.SplitCard | mnemonica.py:400-401 | `suit` is one character, the card's last one, and `value + suit == card` |
| Problems.EffectiveType | mnemonica.py:398 | the effective type is 0 or 1; a radio value of 0 or 1 is kept |
| Problems.ProblemSetup | mnemonica.py:392-401 | `posn` and `card` come from the one drawn row (index in `[0, rows-1]`); value and suit split the card; the type is `pType` when that is 0 or 1 and the coin otherwise |
| Problems.ProblemSetupInStack | mnemonica.py:395 | a drawn `(posn, card)` is a row of the stack, so its position lies in [1, 52] when all of the stack's positions do |
| Problems.ProblemSetupSplitsCard | app.py:331-332 | `suit == card[-1]` and `value == card[:-1]` |
| Problems.Grade | mnemonica.py:479-484 | a correct answer belongs to a type 0 or 1 problem and is as long as the card (type 0) or as `str(posn)` (type 1); `GradeExact` gives the full rule |
| Problems.GradeExact | mnemonica.py:479-484 | for a type 0 or 1 problem, an answer is correct if and only if its upper case equals the card (type 0) or `str(posn)` (type 1) |
| Problems.GradeCaseInsensitive | app.py:410-412 | an answer and its upper case always get the same verdict |
| Problems.GradePositionExact | app.py:412 | a position question accepts exactly the canonical numeral of the position, so `"07"` is refused |
| Problems.GradeNoTrimming | mnemonica.py:479-484 | an answer containing a blank is wrong whenever the card has no blank, because nothing is trimmed |
| Problems.GradeEmptyAnswer | mnemonica.py:441 | the empty answer, which an unset box becomes, is wrong for every drawn problem |
| Problems.PromptImageRef | mnemonica.py:505-508 | the path is non-empty and starts with `c` exactly when the card is shown (type 1); `PromptImageRefShape` gives the full shape |
| Problems.PromptImageRefShape | mnemonica.py:505-508 | the path is a `.png` file under `cards/` exactly when the card is shown (type 1) and under `numbers/` otherwise |
| Problems.PromptImageRefDeterminesPrompt | app.py:436-440 | the image path determines the prompt: equal paths mean the same shown half, and the same card (type 1) or the same position (otherwise) |
| Session.Log.constructor | app.py:109-114 | the log store starts with all counters 0, stack `'tamariz'` and radio value 99 |
| Session.Edge | mnemonica.py:467 | a counter fires exactly when the incoming count is set and is one past the count the log has seen; `RepeatedSignalsAreNoOp` shows it fires once per count |
| Session.AnswerText | mnemonica.py:441 | an unset answer box reads as `""` and a set one as its text; `UnsetAnswerNeverWins` shows an unset box never wins |
| Session.ModeCheck | mnemonica.py:459-461 | the log afterwards records the radio value and nothing else changes in it; the problem is a fresh draw when the radio changed and is kept otherwise |
| Session.StackCheck | mnemonica.py:463-465 | the log afterwards records the dropdown value and nothing else changes in it; the problem is a fresh draw when the dropdown changed and is kept otherwise |
| Session.ReloadCheck | mnemonica.py:467-469 | the log's click count grows by one exactly on a reload edge and nothing else changes in it; the problem is a fresh draw on the edge and is kept otherwise |
| Session.ChangeChecks | mnemonica.py:459-469 | the change checks record the radio and dropdown values, advance the click count by one exactly on a reload edge, and leave the attempt and win counts alone |
| Session.RoundedPercent | mnemonica.py:516 | the percentage is within half a unit of `wins/n*100`, and lies in [0, 100] when `0 <= wins <= n` |
| Session.RollingScore | mnemonica.py:513-517 | the score is `''` if and only if there are no attempts; otherwise it ends with `" of <n> attempts"` |
| Session.RollingScoreHalf | app.py:444-448 | 2 wins in 4 attempts read `"50% of 4 attempts"` |
| Session.Finish | mnemonica.py:504-517 | the outputs keep the log and the problem; the score is `''` exactly when there are no attempts; the image path starts with `c` exactly for a type 1 problem |
| Session.SubmitCheck | mnemonica.py:472-502 | a submit edge adds exactly one attempt; a win is added exactly when that answer is correct; nothing else in the log changes; `wins <= n_submits` is kept |
| Session.Cycle | mnemonica.py:423-524 | one cycle keeps `wins <= n_submits`, never decreases a counter, and leaves the log mirroring the radio and dropdown values |
| Session.UpdateProblem | app.py:389-400 | the in-place change checks leave the log and the problem exactly as `ChangeChecks` says |
| Session.TestSolution | app.py:403-448 | the in-place submit check and the outputs leave the log, the problem and the view exactly as `SubmitCheck` says |
| Session.MegaCallback | app.py:354-455 | the in-place callback leaves the log, the problem and the outputs exactly as `Cycle` says |
| Session.ChangeChecksEffect | mnemonica.py:459-469 | after the change checks the log mirrors `pType` and `stack_dropdown` and the counters other than clicks are untouched; the problem is kept when no check fires, and is otherwise the one drawn by the last check that fired |
| Session.ChangeDetectionIgnoresStackData | mnemonica.py:463-465 | which checks fire depends on the dropdown value, not on the stack data |
| Session.StackSwitchKeepsScore | app.py:390-396 | a stack switch with no reload or submit edge redraws the problem and leaves every counter and the score as they were |
| Session.ReloadEdgeCounts | app.py:398-400 | `n_clicks` in the log grows by one exactly when the incoming count is the old one plus one; otherwise it stays |
| Session.SubmitEdgeCounts | app.py:403-421 | `n_submits` grows by one exactly on a submit edge; `wins` grows by one exactly when that answer is graded correct against the problem the change checks left |
| Session.SubmitOutcome | mnemonica.py:489-502 | a correct submission says `CORRECT` and draws a new problem; a wrong one says `YOU ARE A FAILURE` and keeps the problem; both clear the answer box and show the reward image; without an edge the result is `'...'` and the answer passes through |
| Session.RepeatedSignalsAreNoOp | mnemonica.py:467-472 | a second cycle on the same signals changes neither the log nor the problem, whatever it would draw |
| Session.InitialSession | mnemonica.py:123-128 | the initial stores satisfy the session invariant, the counters start at 0, and 99 is not a radio value |
| Session.FirstCycleDrawsProblem | app.py:390-392 | with the initial log, the first cycle's mode check always fires and replaces the placeholder with a drawn problem |
| Session.ChangeChecksValid | mnemonica.py:459-469 | once the radio has one of its own values, the problem that the change checks leave is a drawn one |
| Session.CycleKeepsSession | app.py:329 | every cycle keeps the session invariant; the stored type is never 2 and the stored problem is a drawn one |
| Session.UnsetAnswerNeverWins | app.py:372 | an unset answer box never adds a win |
| Session.CorrectAnswerScenario | mnemonica.py:479-492 | position 7, card `AS`, shown by position and answered `"as"`: correct, one more attempt, one more win, and a new problem |
| Session.Run | mnemonica.py:489-490 | along any sequence of cycles, `wins <= n_submits` holds |
| Session.RunMonotone | mnemonica.py:467-490 | along a session no counter decreases, and each cycle adds at most one attempt and at most one win |
| Session.RunKeepsSession | app.py:390-440 | along a session driven by the radio's values, the session invariant holds throughout |
| Session.SkippedSubmitStalls | mnemonica.py:472-474 | while the incoming Enter count is never exactly one past the log's count, no attempt and no win is recorded, however many cycles run |
| Loci.LociStep | mnemonica.py:542-549 | forward adds 1 and backward subtracts 1; the result is clamped into [1, 52] |
| Loci.StepsUndo | mnemonica.py:542-545 | inside the palace, backward undoes forward and forward undoes backward |
| Loci.ReenterIsNoOp | mnemonica.py:547-549 | re-entering the shown position changes nothing |
| Loci.EndsAreSticky | mnemonica.py:548-549 | forward at 52 and backward at 1 stay put |

## Left out

- The Dash layout and styling are UI only. The model keeps only the initial values of the stores and inputs that the callback reads.
- The Giphy fetches and the GIF lists are network I/O. The random GIF pick on a win or a loss is cosmetic and has no effect on scoring. The model keeps only the flag that shows the reward image.
- `stack2store` and the JSON, pandas and asset loading are left out. A stack is given directly as a sequence of (position, card) rows. The `loci` column of a row, and so the problem's `loci` key, is not modelled, because grading and the prompt never read it.
- `jsoning.py` holds only data literals and a `json.dump`.
- The `random` module is left out. Its row index and coin are the `Draw` parameters.
- `app.get_asset_url` is a framework call. Image references are the relative paths.
- `dash.callback_context` is a framework call. Which loci button fired is the `Trigger` parameter. The loci image path, the loci title lookup and `modalCallback` are left out as presentation.
- `HIDDEN_STR` and `DEBUG_CODE` are debug output only.
- Python exceptions are not modelled: an empty stack (`random.randint(0, -1)`), an empty card code (`card[-1]`), or a loci value that is unset or not an int. The model requires a `ValidStack` and an integer loci position. The `KeyError` that grading the initial placeholder problem would raise is not modelled either: the placeholder's missing card reads as `""`, so the model would accept the empty answer for it. No cycle grades it, because the first cycle always draws a problem (`FirstCycleDrawsProblem`).
- Dash sends the `log` store as a fresh copy on every request. The model keeps it as one object that the callback updates in place. Requests that overlap in the browser are not modelled. `SkippedSubmitStalls` shows what happens if a count is skipped.
- Session.RoundedPercent: it rounds the exact ratio to the nearest integer, ties to even. Python formats the binary float `wins/n_submits*100`: the quotient is rounded to a float, multiplied by 100 and rounded again. That can round differently at some ties.
- Text.Upper: it upper-cases ASCII letters only. Python's `str.upper()` also maps other Unicode letters, some of them to more than one character.
