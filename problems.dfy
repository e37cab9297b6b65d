/**
 * Stacks, quiz problems, and the problem-level operations of the mega callback:
 * drawing a problem from a stack (_problem_setup), grading an answer and
 * naming the prompt image.
 */
module Problems {
  import opened Text

  /** One row of a stack: a position and a card code such as "AS" or "10H". */
  type Row = (int, string)

  /** A stack, in the order of its rows. */
  type Stack = seq<Row>

  /**
   * A stack _problem_setup can draw from: indexing a row needs at least one row,
   * and splitting a card into value and suit needs a non-empty card code.
   */
  predicate ValidStack(stack: Stack) {
    |stack| > 0 && forall i :: 0 <= i < |stack| ==> |stack[i].1| > 0
  }

  /**
   * The problem record. ptype 0: the position is shown and the card is asked;
   * ptype 1: the card is shown and the position is asked.
   */
  datatype Problem = Problem(posn: int, card: string, suit: string, value: string, ptype: int)

  /**
   * The problem store before the first cycle holds only a position 0 and a
   * type 0; its missing keys are the empty strings here. Grading it would
   * raise KeyError in the source, where the model would accept the empty
   * answer; no cycle grades it, as the first cycle always draws a problem.
   */
  const InitialProblem := Problem(0, "", "", "", 0)

  /** A problem as _problem_setup builds one. */
  predicate ValidProblem(p: Problem) {
    (p.ptype == 0 || p.ptype == 1) && |p.suit| == 1 && p.value + p.suit == p.card
  }

  /**
   * The two random draws of one _problem_setup call: the row index and the
   * coin that decides the type when the radio asks for either.
   */
  datatype Draw = Draw(row: nat, coin: int)

  /** What random.randint(0, rows - 1) and random.randint(0, 1) can return. */
  predicate DrawFits(d: Draw, stack: Stack) {
    d.row < |stack| && 0 <= d.coin <= 1
  }

  /** Splits a card code into its value token and its one-letter suit token. */
  function SplitCard(card: string): (r: (string, string))
    requires |card| > 0
    ensures |r.1| == 1 && r.1[0] == card[|card| - 1]
    ensures r.0 + r.1 == card
  {
    var value, suit := card[..|card| - 1], [card[|card| - 1]];
    assert value + suit == card;
    (value, suit)
  }

  /** The radio's 0 or 1 is kept; any other value (2 means either) takes the coin. */
  function EffectiveType(pType: int, coin: int): (t: int)
    requires 0 <= coin <= 1
    ensures t == 0 || t == 1
    ensures pType == 0 || pType == 1 ==> t == pType
  {
    if pType == 0 || pType == 1 then pType else coin
  }

  /** _problem_setup: the problem for the drawn row, with the effective type. */
  function ProblemSetup(stack: Stack, pType: int, d: Draw): (p: Problem)
    requires ValidStack(stack) && DrawFits(d, stack)
    ensures (p.posn, p.card) == stack[d.row]
    ensures ValidProblem(p)
    ensures pType == 0 || pType == 1 ==> p.ptype == pType
    ensures !(pType == 0 || pType == 1) ==> p.ptype == d.coin
  {
    var (posn, card) := stack[d.row];
    var (value, suit) := SplitCard(card);
    Problem(posn, card, suit, value, EffectiveType(pType, d.coin))
  }

  /** Every drawn problem is a row of the stack, so its position is one of the stack's. */
  lemma ProblemSetupInStack(stack: Stack, pType: int, d: Draw)
    requires ValidStack(stack) && DrawFits(d, stack)
    requires forall i :: 0 <= i < |stack| ==> 1 <= stack[i].0 <= 52
    ensures var p := ProblemSetup(stack, pType, d);
      (p.posn, p.card) in stack && 1 <= p.posn <= 52
  {
    var p := ProblemSetup(stack, pType, d);
    assert stack[d.row] == (p.posn, p.card);
  }

  /** The suit is the card's last character and the value everything before it. */
  lemma ProblemSetupSplitsCard(stack: Stack, pType: int, d: Draw)
    requires ValidStack(stack) && DrawFits(d, stack)
    ensures var p := ProblemSetup(stack, pType, d);
      |p.card| > 0 && p.suit == [p.card[|p.card| - 1]] && p.value == p.card[..|p.card| - 1]
  {
    var p := ProblemSetup(stack, pType, d);
    assert p.card[..|p.card| - 1] == (p.value + p.suit)[..|p.value|];
  }

  /**
   * Grading: the upper-cased answer must equal the card (type 0) or the
   * position's numeral (type 1). Nothing is trimmed.
   */
  function Grade(p: Problem, answer: string): (ok: bool)
    ensures ok ==> p.ptype == 0 || p.ptype == 1
    ensures ok && p.ptype == 0 ==> |answer| == |p.card|
    ensures ok && p.ptype == 1 ==> |answer| == |IntToString(p.posn)|
  {
    if p.ptype == 0 && Upper(answer) == p.card then true
    else if p.ptype == 1 && Upper(answer) == IntToString(p.posn) then true
    else false
  }

  /**
   * A stored problem accepts exactly the answers that upper-case to the card
   * (type 0) or to str(posn) (type 1).
   */
  lemma GradeExact(p: Problem, answer: string)
    requires p.ptype == 0 || p.ptype == 1
    ensures Grade(p, answer) <==> Upper(answer) == (if p.ptype == 0 then p.card else IntToString(p.posn))
  {
  }

  /** Grading ignores letter case: "as" and "AS" get the same verdict. */
  lemma GradeCaseInsensitive(p: Problem, answer: string)
    ensures Grade(p, answer) == Grade(p, Upper(answer))
  {
    UpperIdempotent(answer);
  }

  /**
   * For a position question the accepted answers are exactly the canonical
   * numeral of the position: "07" and " 7" are refused for position 7.
   */
  lemma GradePositionExact(p: Problem, answer: string)
    requires p.ptype == 1 && p.posn >= 0
    ensures Grade(p, answer) <==> Canonical(Upper(answer)) && ParseNat(Upper(answer)) == p.posn
  {
    NatToStringExact(p.posn, Upper(answer));
  }

  /**
   * No trimming: an answer with a blank is wrong whenever the expected string
   * has none, as no card code or numeral does.
   */
  lemma GradeNoTrimming(p: Problem, answer: string, k: nat)
    requires k < |answer| && answer[k] == ' '
    requires forall i :: 0 <= i < |p.card| ==> p.card[i] != ' '
    ensures !Grade(p, answer)
  {
    var u := Upper(answer);
    assert u[k] == ' ';
  }

  /** The empty answer (what an unset input box becomes) is wrong for every drawn problem. */
  lemma GradeEmptyAnswer(p: Problem)
    requires ValidProblem(p)
    ensures !Grade(p, "")
  {
  }

  /** The prompt image: the card's picture for type 1, the position's number otherwise. */
  function PromptImageRef(p: Problem): (r: string)
    ensures |r| > 0 && (p.ptype == 1 <==> r[0] == 'c')
  {
    if p.ptype == 1 then "cards/" + p.card + ".png" else "numbers/" + IntToString(p.posn) + ".png"
  }

  /**
   * The prompt image path: "cards/" for a shown card and "numbers/" for a
   * shown position, and always a ".png" file.
   */
  lemma PromptImageRefShape(p: Problem)
    ensures var r := PromptImageRef(p);
      && EndsWith(r, ".png")
      && (p.ptype == 1 <==> |r| >= 6 && r[..6] == "cards/")
      && (p.ptype != 1 <==> |r| >= 8 && r[..8] == "numbers/")
  {
    var r := PromptImageRef(p);
    if p.ptype == 1 {
      assert r[..6] == "cards/";
      assert r[|r| - 4..] == ".png";
      assert r[0] == 'c';
    } else {
      assert r[..8] == "numbers/";
      assert r[|r| - 4..] == ".png";
      assert r[0] == 'n';
    }
  }

  /**
   * The image path determines the prompt: equal paths mean the same shown
   * half (card picture or number) and the same card, or the same position.
   */
  lemma PromptImageRefDeterminesPrompt(p: Problem, q: Problem)
    requires PromptImageRef(p) == PromptImageRef(q)
    ensures p.ptype == 1 <==> q.ptype == 1
    ensures p.ptype == 1 ==> p.card == q.card
    ensures p.ptype != 1 ==> p.posn == q.posn
  {
    var r := PromptImageRef(p);
    if p.ptype == 1 {
      assert r[0] == 'c';
      assert q.ptype == 1;
      assert p.card == r[6..|r| - 4] == q.card;
    } else {
      assert r[0] == 'n';
      assert q.ptype != 1;
      assert IntToString(p.posn) == r[8..|r| - 4] == IntToString(q.posn);
      IntToStringInjective(p.posn, q.posn);
    }
  }
}
