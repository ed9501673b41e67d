/**
 * The cyclic index arithmetic shared by the hero slider, the quote rotator
 * and the wellness-journey stepper: `(i + 1) % n` forward and
 * `(i - 1 + n) % n` back. Indices are never negative, so the source's
 * truncating remainder and Dafny's agree here.
 */
module Rotation {

  /** One step forward, wrapping from the last index to 0. */
  function Next(i: nat, n: nat): (r: nat)
    requires n > 0
    ensures r < n
    ensures i < n - 1 ==> r == i + 1
    ensures i == n - 1 ==> r == 0
  {
    (i + 1) % n
  }

  /** One step back, wrapping from 0 to the last index. */
  function Prev(i: nat, n: nat): (r: nat)
    requires n > 0
    ensures r < n
    ensures 0 < i < n ==> r == i - 1
    ensures i == 0 ==> r == n - 1
  {
    (i - 1 + n) % n
  }

  /** Back undoes forward. */
  lemma PrevAfterNext(i: nat, n: nat)
    requires i < n
    ensures Prev(Next(i, n), n) == i
  {
  }

  /** Forward undoes back. */
  lemma NextAfterPrev(i: nat, n: nat)
    requires i < n
    ensures Next(Prev(i, n), n) == i
  {
  }

  /** `k` steps forward from `i`. */
  function Advance(i: nat, n: nat, k: nat): (r: nat)
    requires n > 0
    ensures r < n || (k == 0 && r == i)
  {
    if k == 0 then i else Next(Advance(i, n, k - 1), n)
  }

  /** Short of the end, `k` steps forward add `k`. */
  lemma {:induction false} AdvanceBelowEnd(i: nat, n: nat, k: nat)
    requires i + k < n
    ensures Advance(i, n, k) == i + k
  {
    if k > 0 {
      AdvanceBelowEnd(i, n, k - 1);
    }
  }

  /** `a` steps then `b` steps are `a + b` steps. */
  lemma {:induction false} AdvanceCompose(i: nat, n: nat, a: nat, b: nat)
    requires n > 0
    ensures Advance(i, n, a + b) == Advance(Advance(i, n, a), n, b)
  {
    if b > 0 {
      AdvanceCompose(i, n, a, b - 1);
    }
  }

  /** `n` steps forward go all the way round. */
  lemma {:induction false} FullCycle(i: nat, n: nat)
    requires i < n
    ensures Advance(i, n, n) == i
  {
    AdvanceBelowEnd(i, n, n - i - 1);
    assert Advance(i, n, n - i) == 0;
    AdvanceCompose(i, n, n - i, i);
    if i > 0 {
      AdvanceBelowEnd(0, n, i);
    }
  }
}
