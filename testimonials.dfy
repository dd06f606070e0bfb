/** The landing page's testimonial carousel (`project/src/components/Testimonials.tsx`):
    five testimonials, a current index that the arrows and dots move, and an autoplay that
    the timer advances until the visitor first touches a control. */
module Testimonials {
  /** How many testimonials the carousel shows. */
  const Count: nat := 5

  /** The index after `i`, wrapping from the last back to the first. */
  function NextIndex(i: nat): (j: nat)
    requires i < Count
    ensures j < Count
    ensures i + 1 < Count ==> j == i + 1
    ensures i + 1 == Count ==> j == 0
  {
    (i + 1) % Count
  }

  /** The index before `i`, wrapping from the first to the last. */
  function PrevIndex(i: nat): (j: nat)
    requires i < Count
    ensures j < Count
    ensures i > 0 ==> j == i - 1
    ensures i == 0 ==> j == Count - 1
  {
    (i - 1 + Count) % Count
  }

  /** The two arrows undo each other. */
  lemma PrevUndoesNext(i: nat)
    requires i < Count
    ensures PrevIndex(NextIndex(i)) == i
    ensures NextIndex(PrevIndex(i)) == i
  {
  }

  /** The index after k forward steps. */
  function Advance(i: nat, k: nat): (j: nat)
    requires i < Count
    ensures j < Count
    decreases k
  {
    if k == 0 then i else Advance(NextIndex(i), k - 1)
  }

  /** k forward steps land on (i + k) mod 5. */
  lemma {:induction false} AdvanceIsModular(i: nat, k: nat)
    requires i < Count
    ensures Advance(i, k) == (i + k) % Count
    decreases k
  {
    if k > 0 {
      AdvanceIsModular(NextIndex(i), k - 1);
    }
  }

  /** A full round of autoplay returns to the start, and every testimonial is reached
      within one round. */
  lemma FullRoundReturns(i: nat, j: nat)
    requires i < Count && j < Count
    ensures Advance(i, Count) == i
    ensures j >= i ==> Advance(i, j - i) == j
    ensures j < i ==> Advance(i, j + Count - i) == j
  {
    AdvanceIsModular(i, Count);
    if j >= i {
      AdvanceIsModular(i, j - i);
    } else {
      AdvanceIsModular(i, j + Count - i);
    }
  }

  /** The dot row: exactly the current testimonial's dot is active. */
  function ActiveDots(current: nat): (dots: seq<bool>)
    requires current < Count
    ensures |dots| == Count
    ensures forall k :: 0 <= k < Count ==> (dots[k] <==> k == current)
  {
    seq(Count, k => k == current)
  }

  class Carousel {
    var currentIndex: nat
    var isAutoPlaying: bool

    ghost predicate Valid()
      reads this
    {
      currentIndex < Count
    }

    /** The first testimonial, playing automatically. */
    constructor ()
      ensures Valid() && currentIndex == 0 && isAutoPlaying
    {
      currentIndex := 0;
      isAutoPlaying := true;
    }

    /** The timer's tick: advances only while autoplay is on (the timer is cleared once it
        is off). */
    method Tick()
      requires Valid()
      modifies this
      ensures Valid() && isAutoPlaying == old(isAutoPlaying)
      ensures old(isAutoPlaying) ==> currentIndex == NextIndex(old(currentIndex))
      ensures !old(isAutoPlaying) ==> currentIndex == old(currentIndex)
    {
      if isAutoPlaying {
        currentIndex := NextIndex(currentIndex);
      }
    }

    /** The right arrow: the next testimonial, and autoplay stops for good. */
    method Next()
      requires Valid()
      modifies this
      ensures Valid() && !isAutoPlaying
      ensures currentIndex == NextIndex(old(currentIndex))
    {
      currentIndex := NextIndex(currentIndex);
      isAutoPlaying := false;
    }

    /** The left arrow: the previous testimonial, and autoplay stops for good. */
    method Prev()
      requires Valid()
      modifies this
      ensures Valid() && !isAutoPlaying
      ensures currentIndex == PrevIndex(old(currentIndex))
    {
      currentIndex := PrevIndex(currentIndex);
      isAutoPlaying := false;
    }

    /** A dot: that testimonial, and autoplay stops for good. */
    method GoTo(index: nat)
      requires Valid() && index < Count
      modifies this
      ensures Valid() && !isAutoPlaying
      ensures currentIndex == index
    {
      currentIndex := index;
      isAutoPlaying := false;
    }
  }
}
