/**
 * The plans carousel of the home page. One index, `currentIndex`, moves over
 * the `planCount` plans: the "next" arrow (button, ArrowRight key, autoplay
 * tick) wraps forward, the "previous" arrow wraps backward, a navigation dot
 * jumps straight to its plan, and three consecutive plans are on screen.
 */
module Carousel {

  /** Number of plan cards on screen at once. */
  const VisibleCount: nat := 3

  /** The index the "next" arrow moves to. */
  function Next(i: int, n: nat): (r: int)
    requires 0 <= i < n
    ensures 0 <= r < n
    ensures i < n - 1 ==> r == i + 1
    ensures i == n - 1 ==> r == 0
  {
    (i + 1) % n
  }

  /** The index the "previous" arrow moves to: the one whose "next" is `i`. */
  function Prev(i: int, n: nat): (r: int)
    requires 0 <= i < n
    ensures 0 <= r < n
    ensures Next(r, n) == i
  {
    if i == 0 then n - 1 else i - 1
  }

  /** `Prev` undoes `Next`. */
  lemma PrevUndoesNext(i: int, n: nat)
    requires 0 <= i < n
    ensures Prev(Next(i, n), n) == i
  {
  }

  /** The index reached by pressing "next" `k` times. */
  function NextTimes(i: int, k: nat, n: nat): (r: int)
    requires 0 <= i < n
    ensures 0 <= r < n
  {
    if k == 0 then i else Next(NextTimes(i, k - 1, n), n)
  }

  /** Euclidean division is unique: `x == q * n + r` with `0 <= r < n` fixes `x % n`. */
  lemma ModUnique(x: int, q: int, r: int, n: int)
    requires n > 0 && 0 <= r < n && x == q * n + r
    ensures x % n == r
  {
    var m, d := x % n, x / n - q;
    assert x == (x / n) * n + m;
    assert d * n == r - m;
    assert d == 0 by {
      if d >= 1 {
        AtLeastOnce(d, n);
      } else if d <= -1 {
        AtLeastOnce(-d, n);
      }
    }
  }

  /** A positive multiple of `b` is at least `b`. */
  lemma AtLeastOnce(a: int, b: int)
    requires a >= 1 && b > 0
    ensures a * b >= b
  {
    assert a * b == (a - 1) * b + b;
  }

  /** Pressing "next" once more from the index reached after `x` presses. */
  lemma ModStep(x: int, n: int)
    requires n > 0
    ensures (x + 1) % n == if x % n < n - 1 then x % n + 1 else 0
  {
    var p, q := x % n, x / n;
    assert x == q * n + p;
    if p < n - 1 {
      ModUnique(x + 1, q, p + 1, n);
    } else {
      assert x + 1 == (q + 1) * n;
      ModUnique(x + 1, q + 1, 0, n);
    }
  }

  /** Pressing "next" `k` times advances the index by `k` modulo `n`. */
  lemma {:induction false} NextTimesAdvances(i: int, k: nat, n: nat)
    requires 0 <= i < n
    ensures NextTimes(i, k, n) == (i + k) % n
  {
    if k > 0 {
      NextTimesAdvances(i, k - 1, n);
      ModStep(i + k - 1, n);
    }
  }

  /** A full round of `n` "next" presses comes back to where it started. */
  lemma FullRound(i: int, n: nat)
    requires 0 <= i < n
    ensures NextTimes(i, n, n) == i
  {
    NextTimesAdvances(i, n, n);
    ModUnique(i + n, 1, i, n);
  }

  /** The indices of the cards on screen, left to right: three valid indices. */
  function Window(i: int, n: nat): (r: seq<int>)
    requires 0 <= i < n
    ensures |r| == VisibleCount
    ensures forall k :: 0 <= k < |r| ==> 0 <= r[k] < n
  {
    seq(VisibleCount, k requires 0 <= k => (i + k) % n)
  }

  /** The window starts at the current index and each next card is the one "next" would move to. */
  lemma WindowShape(i: int, n: nat)
    requires 0 <= i < n
    ensures Window(i, n)[0] == i
    ensures forall k :: 0 <= k < VisibleCount - 1 ==> Window(i, n)[k + 1] == Next(Window(i, n)[k], n)
  {
    var w := Window(i, n);
    NextTimesAdvances(i, 0, n);
    NextTimesAdvances(i, 1, n);
    NextTimesAdvances(i, 2, n);
    assert w[0] == NextTimes(i, 0, n) && w[1] == NextTimes(i, 1, n) && w[2] == NextTimes(i, 2, n);
  }

  /**
   * The three cards are distinct plans exactly when there are at least three
   * plans; with one or two plans the window repeats a plan.
   */
  lemma WindowDistinctIff(i: int, n: nat)
    requires 0 <= i < n
    ensures (forall k, l :: 0 <= k < l < VisibleCount ==> Window(i, n)[k] != Window(i, n)[l]) <==> n >= VisibleCount
  {
    var w := Window(i, n);
    if n >= VisibleCount {
      forall k, l | 0 <= k < l < VisibleCount
        ensures w[k] != w[l]
      {
        NextTimesAdvances(i, k, n);
        NextTimesAdvances(i, l, n);
        NextTimesAdvances(NextTimes(i, k, n), l - k, n);
        NextTimesCompose(i, k, l - k, n);
        NoShortCycle(w[k], l - k, n);
      }
    } else if n == 1 {
      assert w[0] == w[1];
    } else {
      ModUnique(i, 0, i, n);
      ModUnique(i + 2, 1, i, n);
      assert w[0] == w[2];
    }
  }

  /** Pressing "next" `a` times and then `b` times is pressing it `a + b` times. */
  lemma {:induction false} NextTimesCompose(i: int, a: nat, b: nat, n: nat)
    requires 0 <= i < n
    ensures NextTimes(NextTimes(i, a, n), b, n) == NextTimes(i, a + b, n)
  {
    if b > 0 {
      NextTimesCompose(i, a, b - 1, n);
    }
  }

  /** Fewer than `n` presses of "next" never come back to the start. */
  lemma NoShortCycle(i: int, k: nat, n: nat)
    requires 0 <= i < n && 0 < k < n
    ensures NextTimes(i, k, n) != i
  {
    NextTimesAdvances(i, k, n);
    if i + k < n {
      ModUnique(i + k, 0, i + k, n);
    } else {
      ModUnique(i + k, 1, i + k - n, n);
    }
  }

  /** After "next" the window slides one card to the left. */
  lemma WindowSlides(i: int, n: nat)
    requires 0 <= i < n
    ensures Window(Next(i, n), n)[..VisibleCount - 1] == Window(i, n)[1..]
  {
    var w, v := Window(i, n), Window(Next(i, n), n);
    WindowShape(i, n);
    WindowShape(Next(i, n), n);
    assert v[0] == w[1];
    assert v[1] == w[2];
  }

  /** The carousel component's state. */
  class PlansCarousel {
    const planCount: nat
    var currentIndex: int

    ghost predicate Valid()
      reads this
    {
      0 <= currentIndex < planCount
    }

    /** A carousel over `planCount` plans starts at the first plan. */
    constructor (planCount: nat)
      requires planCount > 0
      ensures Valid()
      ensures this.planCount == planCount && currentIndex == 0
    {
      this.planCount := planCount;
      currentIndex := 0;
    }

    /** The "next" button, the ArrowRight key and the autoplay tick. */
    method NextSlide()
      requires Valid()
      modifies this
      ensures Valid()
      ensures currentIndex == Next(old(currentIndex), planCount)
    {
      currentIndex := (currentIndex + 1) % planCount;
    }

    /** The "previous" button and the ArrowLeft key. */
    method PrevSlide()
      requires Valid()
      modifies this
      ensures Valid()
      ensures currentIndex == Prev(old(currentIndex), planCount)
    {
      currentIndex := if currentIndex == 0 then planCount - 1 else currentIndex - 1;
    }

    /** A click on navigation dot `idx`; there is one dot per plan. */
    method GoToSlide(idx: int)
      requires Valid() && 0 <= idx < planCount
      modifies this
      ensures Valid()
      ensures currentIndex == idx
    {
      currentIndex := idx;
    }

    /** The window keydown listener: the two arrow keys navigate, others do nothing. */
    method HandleKeyPress(key: string)
      requires Valid()
      modifies this
      ensures Valid()
      ensures currentIndex == if key == "ArrowRight" then Next(old(currentIndex), planCount)
                              else if key == "ArrowLeft" then Prev(old(currentIndex), planCount)
                              else old(currentIndex)
    {
      if key == "ArrowRight" {
        NextSlide();
      }
      if key == "ArrowLeft" {
        PrevSlide();
      }
    }

    /** The indices of the plans on screen, built one card at a time. */
    method GetVisibleIndices() returns (indices: seq<int>)
      requires Valid()
      ensures |indices| == VisibleCount
      ensures forall k :: 0 <= k < VisibleCount ==> 0 <= indices[k] < planCount
      ensures indices == Window(currentIndex, planCount)
    {
      indices := [];
      var i := 0;
      while i < VisibleCount
        invariant 0 <= i <= VisibleCount
        invariant indices == Window(currentIndex, planCount)[..i]
      {
        indices := indices + [(currentIndex + i) % planCount];
        i := i + 1;
      }
    }
  }
}
