/**
 * The home page carousel: a current slide index moved by the arrow buttons (each
 * locking the buttons until a 500 ms timer releases them), by a 10-second interval,
 * and by the dots under the slides. Timers are explicit events.
 */
module Carousel {

  /** The index `goToNext` moves to: from the last slide back to the first. */
  function NextIndex(i: int, n: int): (j: int)
    ensures 0 <= i < n ==> 0 <= j < n
    ensures 0 <= i < n ==> j == (i + 1) % n
  {
    if i == n - 1 then 0 else i + 1
  }

  /** The index `goToPrevious` moves to: from the first slide round to the last. */
  function PrevIndex(i: int, n: int): (j: int)
    ensures 0 <= i < n ==> 0 <= j < n
    ensures 0 <= i < n ==> j == (i + n - 1) % n
  {
    if i == 0 then n - 1 else i - 1
  }

  /** Back undoes forward, and forward undoes back. */
  lemma NextPrevInverse(i: int, n: int)
    requires 0 <= i < n
    ensures PrevIndex(NextIndex(i, n), n) == i
    ensures NextIndex(PrevIndex(i, n), n) == i
  {
  }

  /** Up to `n` steps forward wrap round past the last slide at most once. */
  lemma {:induction false} AdvanceWraps(i: int, n: int, k: nat)
    requires 0 <= i < n && k <= n
    ensures Advance(i, n, k) == if i + k < n then i + k else i + k - n
  {
    if k > 0 {
      AdvanceWraps(i, n, k - 1);
    }
  }

  /** `n` steps forward come back to the start. */
  lemma FullCycle(i: int, n: int)
    requires 0 <= i < n
    ensures Advance(i, n, n) == i
  {
    AdvanceWraps(i, n, n);
  }

  /** `k` forward steps from `i`. */
  function Advance(i: int, n: int, k: nat): (j: int)
    requires 0 <= i < n
    ensures 0 <= j < n
  {
    if k == 0 then i else NextIndex(Advance(i, n, k - 1), n)
  }

  class Slides {
    /** `slides.length` */
    const n: nat
    var currentIndex: int
    var isTransitioning: bool

    predicate Valid()
      reads this
    {
      n > 0 ==> 0 <= currentIndex < n
    }

    constructor (n: nat)
      ensures this.n == n && currentIndex == 0 && !isTransitioning && Valid()
    {
      this.n := n;
      currentIndex := 0;
      isTransitioning := false;
    }

    /** The track is shifted left by one slide width per index. */
    function TrackOffsetPercent(): (offset: int)
      reads this
      requires Valid() && n > 0
      ensures 0 <= offset <= (n - 1) * 100
      ensures offset % 100 == 0
    {
      currentIndex * 100
    }

    /** `goToPrevious`: ignored while a move is in progress. */
    method GoToPrevious()
      requires Valid()
      modifies this
      ensures Valid() && isTransitioning
      ensures old(isTransitioning) ==> currentIndex == old(currentIndex)
      ensures !old(isTransitioning) ==> currentIndex == PrevIndex(old(currentIndex), n)
    {
      if isTransitioning {
        return;
      }
      isTransitioning := true;
      currentIndex := PrevIndex(currentIndex, n);
    }

    /** `goToNext`: ignored while a move is in progress. */
    method GoToNext()
      requires Valid()
      modifies this
      ensures Valid() && isTransitioning
      ensures old(isTransitioning) ==> currentIndex == old(currentIndex)
      ensures !old(isTransitioning) ==> currentIndex == NextIndex(old(currentIndex), n)
    {
      if isTransitioning {
        return;
      }
      isTransitioning := true;
      currentIndex := NextIndex(currentIndex, n);
    }

    /** The 500 ms timer after an arrow press. */
    method TransitionEnded()
      modifies this
      ensures !isTransitioning && currentIndex == old(currentIndex)
    {
      isTransitioning := false;
    }

    /** A 10-second tick: `(prevIndex + 1) % slides.length`, whatever the arrows are doing. */
    method AutoAdvance()
      requires Valid() && n > 0
      modifies this
      ensures Valid() && currentIndex == NextIndex(old(currentIndex), n)
      ensures isTransitioning == old(isTransitioning)
    {
      currentIndex := (currentIndex + 1) % n;
    }

    /** A click on dot `index` under the slides. */
    method SetIndex(index: int)
      requires 0 <= index < n
      modifies this
      ensures Valid() && currentIndex == index && isTransitioning == old(isTransitioning)
    {
      currentIndex := index;
    }
  }

  /** Forward, then the release timer, then back returns to the starting slide. */
  method NextThenPrevious(c: Slides)
    requires c.Valid() && !c.isTransitioning
    modifies c
    ensures c.currentIndex == old(c.currentIndex) && c.isTransitioning
  {
    c.GoToNext();
    c.TransitionEnded();
    c.GoToPrevious();
    if c.n > 0 {
      NextPrevInverse(old(c.currentIndex), c.n);
    }
  }
}
