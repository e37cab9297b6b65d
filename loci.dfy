/**
 * The loci tab's position control: the forward and backward buttons step the
 * shown position by one, and every update is clamped to the 52 places of the
 * memory palace.
 */
module Loci {

  const FirstLocus := 1
  const LastLocus := 52

  /** The input that fired the loci callback; Other is the typed-in value or the initial call. */
  datatype Trigger = Forward | Backward | Other

  function Delta(t: Trigger): int {
    match t
    case Forward => 1
    case Backward => -1
    case Other => 0
  }

  /** The new position: one step for the buttons, then clamped into [1, 52]. */
  function LociStep(t: Trigger, n: int): (r: int)
    ensures FirstLocus <= r <= LastLocus
    ensures FirstLocus <= n + Delta(t) <= LastLocus ==> r == n + Delta(t)
    ensures n + Delta(t) < FirstLocus ==> r == FirstLocus
    ensures n + Delta(t) > LastLocus ==> r == LastLocus
  {
    var m := match t
      case Forward => n + 1
      case Backward => n - 1
      case Other => n;
    if m <= 1 then 1
    else if m >= 52 then 52
    else m
  }

  /** Inside the palace, backward undoes forward and forward undoes backward. */
  lemma StepsUndo(n: int)
    requires FirstLocus <= n <= LastLocus
    ensures n < LastLocus ==> LociStep(Backward, LociStep(Forward, n)) == n
    ensures n > FirstLocus ==> LociStep(Forward, LociStep(Backward, n)) == n
  {
  }

  /** Re-entering the shown position changes nothing. */
  lemma ReenterIsNoOp(t: Trigger, n: int)
    ensures LociStep(Other, LociStep(t, n)) == LociStep(t, n)
  {
  }

  /** The ends are sticky: forward at the last place and backward at the first stay put. */
  lemma EndsAreSticky()
    ensures LociStep(Forward, LastLocus) == LastLocus
    ensures LociStep(Backward, FirstLocus) == FirstLocus
  {
  }
}
