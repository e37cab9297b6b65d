/**
 * The quiz session: the log store, the reaction cycle of the mega callback
 * that reconciles the reload counter, the submit counter, the question-type
 * radio and the stack dropdown with it, and what a cycle shows.
 */
module Session {
  import opened Wrappers
  import opened Text
  import opened Problems

  /**
   * The log store: the last seen reload and submit counts, the wins, and the
   * dropdown and radio values the current problem was drawn for.
   */
  datatype LogState = LogState(nClicks: int, nSubmits: int, wins: int, stack: Option<string>, pTypeRadio: int)

  /** The log store as the layout creates it; 99 is no radio value, so the first cycle draws a problem. */
  const InitialLog := LogState(0, 0, 0, Some("tamariz"), 99)

  /** Wins never exceed attempts. */
  predicate LogInvariant(s: LogState) {
    0 <= s.wins <= s.nSubmits
  }

  /** The log dict that the callback receives and updates in place. */
  class Log {
    var nClicks: int
    var nSubmits: int
    var wins: int
    var stack: Option<string>
    var pTypeRadio: int

    constructor ()
      ensures State() == InitialLog
    {
      nClicks, nSubmits, wins := 0, 0, 0;
      stack := Some("tamariz");
      pTypeRadio := 99;
    }

    function State(): LogState
      reads this
    {
      LogState(nClicks, nSubmits, wins, stack, pTypeRadio)
    }
  }

  /**
   * The inputs of one cycle: the reload button's click count and the answer
   * box's Enter count (both unset until first used), the radio value (0
   * position, 1 card, 2 either), the dropdown value and the answer box text.
   */
  datatype Signals = Signals(
    nClicks: Option<int>,
    nSubmit: Option<int>,
    pType: int,
    stackDropdown: Option<string>,
    answer: Option<string>)

  /** The values the radio offers. */
  predicate RadioValue(pType: int) {
    0 <= pType <= 2
  }

  /** The draws of the four places where a cycle may call _problem_setup. */
  datatype Draws = Draws(mode: Draw, stack: Draw, reload: Draw, win: Draw)

  predicate DrawsFit(d: Draws, stack: Stack) {
    DrawFits(d.mode, stack) && DrawFits(d.stack, stack) && DrawFits(d.reload, stack) && DrawFits(d.win, stack)
  }

  /** The log and the problem between two checks of a cycle. */
  datatype Stage = Stage(log: LogState, prob: Problem)

  /**
   * What a cycle shows: the prompt image, the result text, the new content of
   * the answer box, whether the reward image is displayed, and the rolling score.
   */
  datatype View = View(imageRef: string, resultText: string, answer: string, rewardShown: bool, rollingScore: string)

  datatype CycleResult = CycleResult(log: LogState, prob: Problem, view: View)

  /** A counter edge: the incoming count is exactly one past the last one seen. */
  function Edge(count: Option<int>, seen: int): (e: bool)
    ensures e <==> count.Some? && count.value - seen == 1
  {
    count == Some(seen + 1)
  }

  /** An unset answer box counts as the empty answer. */
  function AnswerText(answer: Option<string>): (s: string)
    ensures answer.None? ==> s == ""
    ensures answer.Some? ==> s == answer.value
  {
    match answer
    case None => ""
    case Some(s) => s
  }

  predicate ModeChanged(log: LogState, sig: Signals) {
    log.pTypeRadio != sig.pType
  }

  predicate StackChanged(log: LogState, sig: Signals) {
    log.stack != sig.stackDropdown
  }

  /** The radio differs from the recorded one: record it and draw a new problem. */
  function ModeCheck(st: Stage, sig: Signals, stack: Stack, d: Draw): (r: Stage)
    requires ValidStack(stack) && DrawFits(d, stack)
    ensures r.log == st.log.(pTypeRadio := sig.pType)
    ensures ModeChanged(st.log, sig) ==> r.prob == ProblemSetup(stack, sig.pType, d)
    ensures !ModeChanged(st.log, sig) ==> r.prob == st.prob
  {
    if ModeChanged(st.log, sig) then
      Stage(st.log.(pTypeRadio := sig.pType), ProblemSetup(stack, sig.pType, d))
    else st
  }

  /** The dropdown differs from the recorded one: record it and draw a new problem. */
  function StackCheck(st: Stage, sig: Signals, stack: Stack, d: Draw): (r: Stage)
    requires ValidStack(stack) && DrawFits(d, stack)
    ensures r.log == st.log.(stack := sig.stackDropdown)
    ensures StackChanged(st.log, sig) ==> r.prob == ProblemSetup(stack, sig.pType, d)
    ensures !StackChanged(st.log, sig) ==> r.prob == st.prob
  {
    if StackChanged(st.log, sig) then
      Stage(st.log.(stack := sig.stackDropdown), ProblemSetup(stack, sig.pType, d))
    else st
  }

  /** One new reload click: count it and draw a new problem. */
  function ReloadCheck(st: Stage, sig: Signals, stack: Stack, d: Draw): (r: Stage)
    requires ValidStack(stack) && DrawFits(d, stack)
    ensures r.log == st.log.(nClicks := st.log.nClicks + (if Edge(sig.nClicks, st.log.nClicks) then 1 else 0))
    ensures Edge(sig.nClicks, st.log.nClicks) ==> r.prob == ProblemSetup(stack, sig.pType, d)
    ensures !Edge(sig.nClicks, st.log.nClicks) ==> r.prob == st.prob
  {
    if Edge(sig.nClicks, st.log.nClicks) then
      Stage(st.log.(nClicks := st.log.nClicks + 1), ProblemSetup(stack, sig.pType, d))
    else st
  }

  /** The three change checks, each evaluated on its own, in the callback's order. */
  function ChangeChecks(st: Stage, sig: Signals, stack: Stack, d: Draws): (r: Stage)
    requires ValidStack(stack) && DrawsFit(d, stack)
    ensures r.log.nSubmits == st.log.nSubmits && r.log.wins == st.log.wins
    ensures r.log.nClicks == st.log.nClicks + (if Edge(sig.nClicks, st.log.nClicks) then 1 else 0)
    ensures r.log.pTypeRadio == sig.pType && r.log.stack == sig.stackDropdown
  {
    var afterMode := ModeCheck(st, sig, stack, d.mode);
    var afterStack := StackCheck(afterMode, sig, stack, d.stack);
    ReloadCheck(afterStack, sig, stack, d.reload)
  }

  /**
   * The percentage of wins/attempts as "{0:.0%}" writes it, on the exact
   * ratio: nearest integer, ties to even.
   */
  function RoundedPercent(wins: int, n: int): (r: int)
    requires n > 0
    ensures -n <= 2 * (100 * wins - r * n) <= n
    ensures 0 <= wins <= n ==> 0 <= r <= 100
  {
    var q, m := (100 * wins) / n, (100 * wins) % n;
    QuotientBounds(100 * wins, n);
    if 2 * m < n then q
    else if 2 * m > n then q + 1
    else if q % 2 == 0 then q
    else q + 1
  }

  /** Quotient and remainder of p by n, and where the quotient lies when 0 <= p <= 100 * n. */
  lemma QuotientBounds(p: int, n: int)
    requires n > 0
    ensures p == (p / n) * n + p % n && 0 <= p % n < n
    ensures (p / n + 1) * n == (p / n) * n + n
    ensures 0 <= p <= 100 * n ==> 0 <= p / n <= 100 && (p / n == 100 ==> p % n == 0)
  {
    var q, m := p / n, p % n;
    assert (q + 1) * n == q * n + n;
    if 0 <= p <= 100 * n {
      assert (q + 1) * n == p - m + n > 0;
      SignOfFactor(q + 1, n);
      assert (q - 100) * n == q * n - 100 * n;
      SignOfFactor(q - 100, n);
    }
  }

  /** With a positive n, a * n has the sign of a. */
  lemma SignOfFactor(a: int, n: int)
    requires n > 0
    ensures a * n > 0 <==> a > 0
    ensures a * n <= 0 <==> a <= 0
  {
    if a > 0 {
      assert a * n >= n;
    } else {
      assert a * n <= 0;
    }
  }

  /** The rolling score: nothing before the first attempt, then "<pct>% of <n> attempts". */
  function RollingScore(wins: int, n: int): (r: string)
    requires n >= 0
    ensures r == "" <==> n == 0
    ensures n > 0 ==> EndsWith(r, " of " + IntToString(n) + " attempts")
  {
    if n == 0 then ""
    else
      var tail := " of " + IntToString(n) + " attempts";
      var r := IntToString(RoundedPercent(wins, n)) + "%" + tail;
      assert r[|r| - |tail|..] == tail;
      r
  }

  /** Two wins in four attempts read "50% of 4 attempts". */
  lemma RollingScoreHalf()
    ensures RollingScore(2, 4) == "50% of 4 attempts"
  {
    assert RoundedPercent(2, 4) == 50;
    assert IntToString(50) == NatToString(5) + [DigitChar(0)] == "50";
    assert IntToString(4) == "4";
  }

  /** The outputs computed from the final log and problem of a cycle. */
  function Finish(log: LogState, prob: Problem, resultText: string, answer: string, rewardShown: bool): (r: CycleResult)
    requires log.nSubmits >= 0
    ensures r.log == log && r.prob == prob
    ensures r.view.rollingScore == "" <==> log.nSubmits == 0
    ensures |r.view.imageRef| > 0 && (r.view.imageRef[0] == 'c' <==> prob.ptype == 1)
  {
    CycleResult(log, prob, View(PromptImageRef(prob), resultText, answer, rewardShown,
                                RollingScore(log.wins, log.nSubmits)))
  }

  /**
   * The submit check: on a submit edge it counts the attempt and grades the
   * answer against the problem the change checks left; a correct answer
   * counts a win and draws a new problem. Then the outputs are derived.
   */
  function SubmitCheck(ch: Stage, sig: Signals, stack: Stack, d: Draw): (r: CycleResult)
    requires ValidStack(stack) && DrawFits(d, stack) && LogInvariant(ch.log)
    ensures LogInvariant(r.log)
    ensures r.log.nSubmits == ch.log.nSubmits + (if Edge(sig.nSubmit, ch.log.nSubmits) then 1 else 0)
    ensures r.log.wins == ch.log.wins +
      (if Edge(sig.nSubmit, ch.log.nSubmits) && Grade(ch.prob, AnswerText(sig.answer)) then 1 else 0)
    ensures r.log.(nSubmits := ch.log.nSubmits, wins := ch.log.wins) == ch.log
  {
    var soln := AnswerText(sig.answer);
    if Edge(sig.nSubmit, ch.log.nSubmits) then
      var attempted := ch.log.(nSubmits := ch.log.nSubmits + 1);
      if Grade(ch.prob, soln) then
        Finish(attempted.(wins := attempted.wins + 1), ProblemSetup(stack, sig.pType, d), "CORRECT", "", true)
      else
        Finish(attempted, ch.prob, "YOU ARE A FAILURE", "", true)
    else
      Finish(ch.log, ch.prob, "...", soln, false)
  }

  /** One reaction cycle: the three change checks, then the submit check. */
  function Cycle(log: LogState, prob: Problem, sig: Signals, stack: Stack, d: Draws): (r: CycleResult)
    requires ValidStack(stack) && DrawsFit(d, stack) && LogInvariant(log)
    ensures LogInvariant(r.log)
    ensures log.nClicks <= r.log.nClicks && log.nSubmits <= r.log.nSubmits && log.wins <= r.log.wins
    ensures r.log.pTypeRadio == sig.pType && r.log.stack == sig.stackDropdown
  {
    SubmitCheck(ChangeChecks(Stage(log, prob), sig, stack, d), sig, stack, d.win)
  }

  /** The problem-updating part of mega_callback: the three change checks on the log in place. */
  method UpdateProblem(log: Log, prob: Problem, sig: Signals, stack: Stack, d: Draws) returns (newProb: Problem)
    requires ValidStack(stack) && DrawsFit(d, stack)
    modifies log
    ensures Stage(log.State(), newProb) == ChangeChecks(Stage(old(log.State()), prob), sig, stack, d)
  {
    newProb := prob;
    if log.pTypeRadio != sig.pType {
      log.pTypeRadio := sig.pType;
      newProb := ProblemSetup(stack, sig.pType, d.mode);
    }
    ghost var afterMode := Stage(log.State(), newProb);
    if log.stack != sig.stackDropdown {
      log.stack := sig.stackDropdown;
      newProb := ProblemSetup(stack, sig.pType, d.stack);
    }
    ghost var afterStack := Stage(log.State(), newProb);
    if sig.nClicks == Some(log.nClicks + 1) {
      log.nClicks := log.nClicks + 1;
      newProb := ProblemSetup(stack, sig.pType, d.reload);
    }
    assert afterMode == ModeCheck(Stage(old(log.State()), prob), sig, stack, d.mode);
    assert afterStack == StackCheck(afterMode, sig, stack, d.stack);
  }

  /**
   * The solution-testing part of mega_callback and the outputs: the submit
   * check on the log in place, then the prompt image and the rolling score.
   */
  method TestSolution(log: Log, prob: Problem, sig: Signals, stack: Stack, d: Draw)
    returns (newProb: Problem, view: View)
    requires ValidStack(stack) && DrawFits(d, stack) && LogInvariant(log.State())
    modifies log
    ensures var r := SubmitCheck(Stage(old(log.State()), prob), sig, stack, d);
      log.State() == r.log && newProb == r.prob && view == r.view
  {
    var soln := AnswerText(sig.answer);
    var resultText := "...";
    var rewardShown := false;
    newProb := prob;
    if sig.nSubmit == Some(log.nSubmits + 1) {
      log.nSubmits := log.nSubmits + 1;
      if Grade(newProb, soln) {
        log.wins := log.wins + 1;
        resultText := "CORRECT";
        newProb := ProblemSetup(stack, sig.pType, d);
      } else {
        resultText := "YOU ARE A FAILURE";
      }
      soln := "";
      rewardShown := true;
    }
    view := Finish(log.State(), newProb, resultText, soln, rewardShown).view;
  }

  /** mega_callback: updates the log in place and returns the problem and what to show. */
  method MegaCallback(log: Log, prob: Problem, sig: Signals, stack: Stack, d: Draws)
    returns (newProb: Problem, view: View)
    requires ValidStack(stack) && DrawsFit(d, stack) && LogInvariant(log.State())
    modifies log
    ensures var r := Cycle(old(log.State()), prob, sig, stack, d);
      log.State() == r.log && newProb == r.prob && view == r.view
  {
    var p := UpdateProblem(log, prob, sig, stack, d);
    newProb, view := TestSolution(log, p, sig, stack, d.win);
  }

  /**
   * After the change checks the log records the radio and dropdown values and
   * any reload click; the attempt and win counts are untouched. The problem is
   * kept when no check fires and is otherwise the one drawn by the last check
   * that fired.
   */
  lemma ChangeChecksEffect(st: Stage, sig: Signals, stack: Stack, d: Draws)
    requires ValidStack(stack) && DrawsFit(d, stack)
    ensures var ch := ChangeChecks(st, sig, stack, d);
      var reload := Edge(sig.nClicks, st.log.nClicks);
      && ch.log.pTypeRadio == sig.pType
      && ch.log.stack == sig.stackDropdown
      && ch.log.nClicks == (if reload then st.log.nClicks + 1 else st.log.nClicks)
      && ch.log.nSubmits == st.log.nSubmits && ch.log.wins == st.log.wins
      && (!ModeChanged(st.log, sig) && !StackChanged(st.log, sig) && !reload ==> ch.prob == st.prob)
      && (reload ==> ch.prob == ProblemSetup(stack, sig.pType, d.reload))
      && (StackChanged(st.log, sig) && !reload ==> ch.prob == ProblemSetup(stack, sig.pType, d.stack))
      && (ModeChanged(st.log, sig) && !StackChanged(st.log, sig) && !reload ==>
            ch.prob == ProblemSetup(stack, sig.pType, d.mode))
  {
  }

  /**
   * The stack check compares the dropdown value, not the stack data: the same
   * signals on different stack data fire the same checks and leave the same
   * log, and when no check fires the problem stays whatever the data.
   */
  lemma ChangeDetectionIgnoresStackData(st: Stage, sig: Signals, stack1: Stack, d1: Draws, stack2: Stack, d2: Draws)
    requires ValidStack(stack1) && DrawsFit(d1, stack1) && ValidStack(stack2) && DrawsFit(d2, stack2)
    ensures ChangeChecks(st, sig, stack1, d1).log == ChangeChecks(st, sig, stack2, d2).log
    ensures !ModeChanged(st.log, sig) && !StackChanged(st.log, sig) && !Edge(sig.nClicks, st.log.nClicks) ==>
      ChangeChecks(st, sig, stack1, d1).prob == st.prob == ChangeChecks(st, sig, stack2, d2).prob
  {
  }

  /** Switching mode or stack never resets a counter; a pure stack switch only redraws. */
  lemma StackSwitchKeepsScore(log: LogState, prob: Problem, sig: Signals, stack: Stack, d: Draws)
    requires ValidStack(stack) && DrawsFit(d, stack) && LogInvariant(log)
    requires StackChanged(log, sig)
    requires !Edge(sig.nClicks, log.nClicks) && !Edge(sig.nSubmit, log.nSubmits)
    ensures var r := Cycle(log, prob, sig, stack, d);
      && r.log == log.(stack := sig.stackDropdown, pTypeRadio := sig.pType)
      && r.prob == ProblemSetup(stack, sig.pType, d.stack)
      && r.view.rollingScore == RollingScore(log.wins, log.nSubmits)
  {
  }

  /** The reload counter advances by one exactly on a reload edge, and otherwise stays. */
  lemma ReloadEdgeCounts(log: LogState, prob: Problem, sig: Signals, stack: Stack, d: Draws)
    requires ValidStack(stack) && DrawsFit(d, stack) && LogInvariant(log)
    ensures Cycle(log, prob, sig, stack, d).log.nClicks ==
      if Edge(sig.nClicks, log.nClicks) then log.nClicks + 1 else log.nClicks
  {
    var ch := ChangeChecks(Stage(log, prob), sig, stack, d);
    assert Cycle(log, prob, sig, stack, d) == SubmitCheck(ch, sig, stack, d.win);
  }

  /**
   * The attempt count advances by one exactly on a submit edge, and the win
   * count exactly when that attempt is graded correct against the problem the
   * change checks left.
   */
  lemma SubmitEdgeCounts(log: LogState, prob: Problem, sig: Signals, stack: Stack, d: Draws)
    requires ValidStack(stack) && DrawsFit(d, stack) && LogInvariant(log)
    ensures var r := Cycle(log, prob, sig, stack, d);
      var edge := Edge(sig.nSubmit, log.nSubmits);
      var graded := ChangeChecks(Stage(log, prob), sig, stack, d).prob;
      && r.log.nSubmits == (if edge then log.nSubmits + 1 else log.nSubmits)
      && r.log.wins == (if edge && Grade(graded, AnswerText(sig.answer)) then log.wins + 1 else log.wins)
  {
    var ch := ChangeChecks(Stage(log, prob), sig, stack, d);
    assert Cycle(log, prob, sig, stack, d) == SubmitCheck(ch, sig, stack, d.win);
  }

  /**
   * What a cycle shows: a correct submission says CORRECT and draws a new
   * problem, a wrong one says YOU ARE A FAILURE and keeps the problem, and
   * both clear the answer box and show the reward image; without a submit
   * edge the result is "..." and the answer box keeps its text.
   */
  lemma SubmitOutcome(log: LogState, prob: Problem, sig: Signals, stack: Stack, d: Draws)
    requires ValidStack(stack) && DrawsFit(d, stack) && LogInvariant(log)
    ensures var r := Cycle(log, prob, sig, stack, d);
      var ch := ChangeChecks(Stage(log, prob), sig, stack, d);
      var edge := Edge(sig.nSubmit, log.nSubmits);
      var correct := Grade(ch.prob, AnswerText(sig.answer));
      && (edge && correct ==> r.view.resultText == "CORRECT" && r.prob == ProblemSetup(stack, sig.pType, d.win))
      && (edge && !correct ==> r.view.resultText == "YOU ARE A FAILURE" && r.prob == ch.prob)
      && (edge ==> r.view.answer == "" && r.view.rewardShown)
      && (!edge ==> r.view.resultText == "..." && r.view.answer == AnswerText(sig.answer)
                    && !r.view.rewardShown && r.prob == ch.prob)
      && r.view.imageRef == PromptImageRef(r.prob)
  {
  }

  /**
   * Idempotence of the edge detectors: a second cycle on the same signals
   * fires no check, so it changes neither the log nor the problem, whatever
   * it would draw.
   */
  lemma RepeatedSignalsAreNoOp(log: LogState, prob: Problem, sig: Signals, stack: Stack, d: Draws, d2: Draws)
    requires ValidStack(stack) && DrawsFit(d, stack) && DrawsFit(d2, stack) && LogInvariant(log)
    ensures var r1 := Cycle(log, prob, sig, stack, d);
      var r2 := Cycle(r1.log, r1.prob, sig, stack, d2);
      r2.log == r1.log && r2.prob == r1.prob
  {
  }

  /**
   * The session invariant: wins never exceed attempts, the stored problem's
   * type is 0 or 1 (never the radio's 2), and the problem is a drawn one
   * unless the recorded radio value is none the radio offers (the initial 99).
   */
  predicate SessionInvariant(log: LogState, prob: Problem) {
    && LogInvariant(log)
    && (prob.ptype == 0 || prob.ptype == 1)
    && (ValidProblem(prob) || !RadioValue(log.pTypeRadio))
  }

  /** The initial stores satisfy the invariant, and every counter starts at 0. */
  lemma InitialSession()
    ensures SessionInvariant(InitialLog, InitialProblem)
    ensures InitialLog.nClicks == 0 && InitialLog.nSubmits == 0 && InitialLog.wins == 0
    ensures !RadioValue(InitialLog.pTypeRadio)
  {
  }

  /** The first cycle always replaces the placeholder problem before anything reads it. */
  lemma FirstCycleDrawsProblem(sig: Signals, stack: Stack, d: Draws)
    requires ValidStack(stack) && DrawsFit(d, stack) && RadioValue(sig.pType)
    ensures var ch := ChangeChecks(Stage(InitialLog, InitialProblem), sig, stack, d);
      ModeChanged(InitialLog, sig) && ValidProblem(ch.prob) && ch.prob != InitialProblem
  {
  }

  /** The problem the change checks leave is a drawn one once the radio has a real value. */
  lemma ChangeChecksValid(log: LogState, prob: Problem, sig: Signals, stack: Stack, d: Draws)
    requires ValidStack(stack) && DrawsFit(d, stack)
    requires SessionInvariant(log, prob) && RadioValue(sig.pType)
    ensures ValidProblem(ChangeChecks(Stage(log, prob), sig, stack, d).prob)
  {
  }

  /** Every cycle driven by a radio value keeps the session invariant and leaves a drawn problem. */
  lemma CycleKeepsSession(log: LogState, prob: Problem, sig: Signals, stack: Stack, d: Draws)
    requires ValidStack(stack) && DrawsFit(d, stack)
    requires SessionInvariant(log, prob) && RadioValue(sig.pType)
    ensures var r := Cycle(log, prob, sig, stack, d);
      SessionInvariant(r.log, r.prob) && ValidProblem(r.prob)
  {
    ChangeChecksValid(log, prob, sig, stack, d);
  }

  /** An unset answer box is graded as the empty answer, which never wins. */
  lemma UnsetAnswerNeverWins(log: LogState, prob: Problem, sig: Signals, stack: Stack, d: Draws)
    requires ValidStack(stack) && DrawsFit(d, stack)
    requires SessionInvariant(log, prob) && RadioValue(sig.pType) && sig.answer == None
    ensures Cycle(log, prob, sig, stack, d).log.wins == log.wins
  {
    ChangeChecksValid(log, prob, sig, stack, d);
    GradeEmptyAnswer(ChangeChecks(Stage(log, prob), sig, stack, d).prob);
  }

  /**
   * A position-7 "AS" problem shown by position, answered "as" on a submit
   * edge with nothing else changing: correct, one more attempt and one more
   * win, and a new problem.
   */
  lemma CorrectAnswerScenario(log: LogState, sig: Signals, stack: Stack, d: Draws)
    requires ValidStack(stack) && DrawsFit(d, stack) && LogInvariant(log)
    requires log.pTypeRadio == 0 == sig.pType && log.stack == sig.stackDropdown
    requires !Edge(sig.nClicks, log.nClicks) && Edge(sig.nSubmit, log.nSubmits)
    requires sig.answer == Some("as")
    ensures var r := Cycle(log, Problem(7, "AS", "S", "A", 0), sig, stack, d);
      && r.log.nSubmits == log.nSubmits + 1 && r.log.wins == log.wins + 1
      && r.view.resultText == "CORRECT" && r.prob == ProblemSetup(stack, 0, d.win)
  {
    assert Upper("as") == "AS";
  }

  /** One cycle of a session: its signals, the stack data and its draws. */
  datatype Step = Step(sig: Signals, stack: Stack, draws: Draws)

  predicate StepFits(s: Step) {
    ValidStack(s.stack) && DrawsFit(s.draws, s.stack)
  }

  /** A session: cycles run one after another, each on the stores the previous one left. */
  function Run(st: Stage, steps: seq<Step>): (r: Stage)
    requires LogInvariant(st.log)
    requires forall i :: 0 <= i < |steps| ==> StepFits(steps[i])
    ensures LogInvariant(r.log)
    decreases |steps|
  {
    if steps == [] then st
    else
      var s0 := steps[0];
      assert StepFits(s0);
      var c := Cycle(st.log, st.prob, s0.sig, s0.stack, s0.draws);
      Run(Stage(c.log, c.prob), steps[1..])
  }

  /**
   * Over a whole session no counter decreases, and each cycle adds at most
   * one attempt and at most one win.
   */
  lemma {:induction false} RunMonotone(st: Stage, steps: seq<Step>)
    requires LogInvariant(st.log)
    requires forall i :: 0 <= i < |steps| ==> StepFits(steps[i])
    ensures var r := Run(st, steps);
      && st.log.nClicks <= r.log.nClicks
      && st.log.nSubmits <= r.log.nSubmits <= st.log.nSubmits + |steps|
      && st.log.wins <= r.log.wins <= st.log.wins + |steps|
    decreases |steps|
  {
    if steps != [] {
      var s0 := steps[0];
      assert StepFits(s0);
      var c := Cycle(st.log, st.prob, s0.sig, s0.stack, s0.draws);
      SubmitEdgeCounts(st.log, st.prob, s0.sig, s0.stack, s0.draws);
      RunMonotone(Stage(c.log, c.prob), steps[1..]);
    }
  }

  /** A session whose radio only offers its own values keeps the session invariant throughout. */
  lemma {:induction false} RunKeepsSession(st: Stage, steps: seq<Step>)
    requires SessionInvariant(st.log, st.prob)
    requires forall i :: 0 <= i < |steps| ==> StepFits(steps[i]) && RadioValue(steps[i].sig.pType)
    ensures var r := Run(st, steps);
      SessionInvariant(r.log, r.prob)
    decreases |steps|
  {
    if steps != [] {
      var s0 := steps[0];
      assert StepFits(s0) && RadioValue(s0.sig.pType);
      var c := Cycle(st.log, st.prob, s0.sig, s0.stack, s0.draws);
      CycleKeepsSession(st.log, st.prob, s0.sig, s0.stack, s0.draws);
      RunKeepsSession(Stage(c.log, c.prob), steps[1..]);
    }
  }

  /**
   * The submit detector only fires on a count exactly one past the log: while
   * the answer box's count never equals that, no attempt and no win is ever
   * recorded, however many cycles run.
   */
  lemma {:induction false} SkippedSubmitStalls(st: Stage, steps: seq<Step>)
    requires LogInvariant(st.log)
    requires forall i :: 0 <= i < |steps| ==> StepFits(steps[i])
    requires forall i :: 0 <= i < |steps| ==> steps[i].sig.nSubmit != Some(st.log.nSubmits + 1)
    ensures Run(st, steps).log.nSubmits == st.log.nSubmits
    ensures Run(st, steps).log.wins == st.log.wins
    decreases |steps|
  {
    if steps != [] {
      var s0 := steps[0];
      assert StepFits(s0) && s0.sig.nSubmit != Some(st.log.nSubmits + 1);
      var c := Cycle(st.log, st.prob, s0.sig, s0.stack, s0.draws);
      SubmitEdgeCounts(st.log, st.prob, s0.sig, s0.stack, s0.draws);
      SkippedSubmitStalls(Stage(c.log, c.prob), steps[1..]);
    }
  }
}
