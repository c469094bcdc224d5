/**
 * The bounded cursor that both the table of contents (chapter index) and the
 * card deck (card index) move: "next" steps on only while the cursor is before
 * the last item, "previous" steps back only while it is after the first.
 */
module Cursor {

  /** The "next" move over `n` items. */
  function Forward(i: int, n: int): (j: int)
    ensures j == i || j == i + 1
    ensures j == i + 1 <==> i < n - 1
  {
    if i < n - 1 then i + 1 else i
  }

  /** The "previous" move. */
  function Backward(i: int): (j: int)
    ensures j == i || j == i - 1
    ensures j == i - 1 <==> i > 0
  {
    if i > 0 then i - 1 else i
  }

  predicate InRange(i: int, n: int) {
    0 <= i < n
  }

  /** The first-item flag that disables "previous". */
  predicate AtFirst(i: int) {
    i == 0
  }

  /** The last-item flag that disables (or, for cards, replaces) "next". */
  predicate AtLast(i: int, n: int) {
    i == n - 1
  }

  /** Both moves keep a cursor that starts on an item on an item. */
  lemma MovesStayInRange(i: int, n: int)
    requires InRange(i, n)
    ensures InRange(Forward(i, n), n) && InRange(Backward(i), n)
  {
  }

  /** On an item, a button is disabled exactly when its move would leave the cursor where it is. */
  lemma DisabledExactlyWhenStuck(i: int, n: int)
    requires InRange(i, n)
    ensures AtFirst(i) <==> Backward(i) == i
    ensures AtLast(i, n) <==> Forward(i, n) == i
  {
  }

  /** Stepping on and then back returns to the same item, unless the first step was blocked. */
  lemma ForwardThenBackward(i: int, n: int)
    requires 0 <= i < n - 1
    ensures Backward(Forward(i, n)) == i
  {
  }

  /** Stepping back and then on returns to the same item, unless the first step was blocked. */
  lemma BackwardThenForward(i: int, n: int)
    requires 0 < i < n
    ensures Forward(Backward(i), n) == i
  {
  }

  /** `k` presses of "next". */
  function ForwardTimes(i: int, n: int, k: nat): int {
    if k == 0 then i else Forward(ForwardTimes(i, n, k - 1), n)
  }

  /** `k` presses of "previous". */
  function BackwardTimes(i: int, k: nat): int {
    if k == 0 then i else Backward(BackwardTimes(i, k - 1))
  }

  /** Repeated "next" from an item stops at the last item and never overshoots it. */
  lemma {:induction false} ForwardTimesClamps(i: int, n: int, k: nat)
    requires InRange(i, n)
    ensures ForwardTimes(i, n, k) == if i + k < n then i + k else n - 1
  {
    if k > 0 {
      ForwardTimesClamps(i, n, k - 1);
    }
  }

  /** Repeated "previous" from a non-negative index stops at the first item. */
  lemma {:induction false} BackwardTimesClamps(i: int, k: nat)
    requires i >= 0
    ensures BackwardTimes(i, k) == if k <= i then i - k else 0
  {
    if k > 0 {
      BackwardTimesClamps(i, k - 1);
    }
  }
}
