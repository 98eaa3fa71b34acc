/**
 * The portfolio carousel of js/portfolio.js, reduced to its index
 * arithmetic: `currentSlide` moved by "go to", "next" (wrapping to 0) and
 * "previous" (wrapping to the last position), where the last position
 * depends on how many slides the viewport width shows at once. The width is
 * passed to each step, standing for `window.innerWidth` at that moment.
 */
module Portfolio {

  /** `getSlidesPerView`: 1 below 768 pixels, 2 below 1024, otherwise 3. */
  function SlidesPerView(width: int): (n: int)
    ensures 1 <= n <= 3
    ensures n == 1 <==> width < 768
    ensures n == 2 <==> 768 <= width < 1024
    ensures n == 3 <==> 1024 <= width
  {
    if width < 768 then 1 else if width < 1024 then 2 else 3
  }

  /** `getMaxSlide`: the last start position, `max(0, slideCount - perView)`. */
  function MaxSlide(slideCount: nat, perView: int): (m: int)
    ensures m >= 0 && m >= slideCount - perView
    ensures m == 0 || m == slideCount - perView
  {
    if slideCount - perView > 0 then slideCount - perView else 0
  }

  /** `goToSlide`: `min(max(0, index), maxSlide)`. */
  function Clamped(index: int, maxSlide: int): (r: int)
    requires maxSlide >= 0
    ensures 0 <= r <= maxSlide
    ensures 0 <= index <= maxSlide ==> r == index
    ensures index < 0 ==> r == 0
    ensures index > maxSlide ==> r == maxSlide
  {
    var low := if index > 0 then index else 0;
    if low < maxSlide then low else maxSlide
  }

  /** `nextSlide`: back to 0 from the last position or beyond, otherwise one on. */
  function NextIndex(current: int, maxSlide: int): int {
    if current >= maxSlide then 0 else current + 1
  }

  /** `prevSlide`: to the last position from 0 or below, otherwise one back. */
  function PrevIndex(current: int, maxSlide: int): int {
    if current <= 0 then maxSlide else current - 1
  }

  /** "next" lands in range from any index that is not below -1. */
  lemma NextInRange(current: int, maxSlide: int)
    requires maxSlide >= 0
    ensures 0 <= NextIndex(current, maxSlide) <= maxSlide <==> current >= -1
  {
  }

  /**
   * "previous" is never negative, and lands in range exactly when it starts at
   * most one past the last position. An index left high by a resize that
   * lowered the last position therefore stays out of range.
   */
  lemma PrevInRange(current: int, maxSlide: int)
    requires maxSlide >= 0
    ensures PrevIndex(current, maxSlide) >= 0
    ensures PrevIndex(current, maxSlide) <= maxSlide <==> current <= maxSlide + 1
  {
  }

  /**
   * Five slides shown one at a time can stand at index 4; once the window is
   * widened to three per view the last position is 2, and "previous" from 4
   * gives 3, still out of range.
   */
  lemma PrevAfterShrink()
    ensures MaxSlide(5, SlidesPerView(500)) == 4
    ensures MaxSlide(5, SlidesPerView(1200)) == 2
    ensures PrevIndex(4, MaxSlide(5, SlidesPerView(1200))) == 3
  {
  }

  /** `n` "next" steps in a row. */
  function NextTimes(current: int, maxSlide: int, n: nat): int
    decreases n
  {
    if n == 0 then current else NextTimes(NextIndex(current, maxSlide), maxSlide, n - 1)
  }

  lemma {:induction false} NextTimesClimbs(start: int, maxSlide: int, n: nat)
    requires 0 <= start && start + n <= maxSlide
    ensures NextTimes(start, maxSlide, n) == start + n
    decreases n
  {
    if n > 0 {
      NextTimesClimbs(start + 1, maxSlide, n - 1);
    }
  }

  /** From 0, `maxSlide + 1` "next" steps visit every position once and come back to 0. */
  lemma NextCycle(maxSlide: int)
    requires maxSlide >= 0
    ensures forall k :: 0 <= k <= maxSlide ==> NextTimes(0, maxSlide, k) == k
    ensures NextTimes(0, maxSlide, maxSlide + 1) == 0
  {
    forall k | 0 <= k <= maxSlide
      ensures NextTimes(0, maxSlide, k) == k
    {
      NextTimesClimbs(0, maxSlide, k);
    }
    NextTimesSplit(0, maxSlide, maxSlide, 1);
  }

  lemma {:induction false} NextTimesSplit(current: int, maxSlide: int, a: nat, b: nat)
    ensures NextTimes(current, maxSlide, a + b) == NextTimes(NextTimes(current, maxSlide, a), maxSlide, b)
    decreases a
  {
    if a > 0 {
      NextTimesSplit(NextIndex(current, maxSlide), maxSlide, a - 1, b);
    }
  }

  /** The number of pagination dots `createDots` makes: `slideCount - (perView - 1)`, or none. */
  function DotCount(slideCount: nat, perView: int): int {
    if slideCount - (perView - 1) > 0 then slideCount - (perView - 1) else 0
  }

  /**
   * The dots are counted with the initial three slides per view, so they match
   * the positions 0..maxSlide only on wide viewports (for three slides or more).
   */
  lemma DotsMatchPositionsOnlyWhenWide(slideCount: nat, width: int)
    requires slideCount >= 3
    ensures DotCount(slideCount, 3) == MaxSlide(slideCount, SlidesPerView(width)) + 1 <==> width >= 1024
  {
  }

  /** One pagination dot: the position it jumps to, and whether it starts active. */
  datatype Dot = Dot(target: int, active: bool)

  class PortfolioCarousel {
    var currentSlide: int
    var slidesPerView: int
    const slideCount: nat

    /** Every step keeps the index non-negative. */
    predicate Valid()
      reads this
    {
      currentSlide >= 0
    }

    constructor (slideCount: nat)
      ensures Valid()
      ensures currentSlide == 0 && slidesPerView == 3 && this.slideCount == slideCount
    {
      currentSlide := 0;
      slidesPerView := 3;
      this.slideCount := slideCount;
    }

    /** `getMaxSlide`, which also records the current slides-per-view. */
    method GetMaxSlide(width: int) returns (maxSlide: int)
      modifies this`slidesPerView
      ensures slidesPerView == SlidesPerView(width)
      ensures maxSlide == MaxSlide(slideCount, slidesPerView)
    {
      slidesPerView := SlidesPerView(width);
      maxSlide := if slideCount - slidesPerView > 0 then slideCount - slidesPerView else 0;
    }

    method GoToSlide(index: int, width: int)
      modifies this
      ensures slidesPerView == SlidesPerView(width)
      ensures currentSlide == Clamped(index, MaxSlide(slideCount, slidesPerView))
      ensures 0 <= currentSlide <= MaxSlide(slideCount, slidesPerView)
      ensures 0 <= index <= MaxSlide(slideCount, slidesPerView) ==> currentSlide == index
    {
      var maxSlide := GetMaxSlide(width);
      var low := if index > 0 then index else 0;
      currentSlide := if low < maxSlide then low else maxSlide;
    }

    method NextSlide(width: int)
      modifies this
      ensures slidesPerView == SlidesPerView(width)
      ensures currentSlide == NextIndex(old(currentSlide), MaxSlide(slideCount, slidesPerView))
      ensures old(Valid()) ==> Valid() && currentSlide <= MaxSlide(slideCount, slidesPerView)
    {
      var maxSlide := GetMaxSlide(width);
      if currentSlide >= maxSlide {
        currentSlide := 0;
      } else {
        currentSlide := currentSlide + 1;
      }
    }

    method PrevSlide(width: int)
      modifies this
      ensures slidesPerView == SlidesPerView(width)
      ensures currentSlide == PrevIndex(old(currentSlide), MaxSlide(slideCount, slidesPerView))
      ensures Valid()
      ensures currentSlide <= MaxSlide(slideCount, slidesPerView) <==> old(currentSlide) <= MaxSlide(slideCount, slidesPerView) + 1
    {
      var maxSlide := GetMaxSlide(width);
      if currentSlide <= 0 {
        currentSlide := maxSlide;
      } else {
        currentSlide := currentSlide - 1;
      }
    }

    /** The dots `createDots` appends: one per start position it counts, the first active. */
    method CreateDots() returns (dots: seq<Dot>)
      ensures |dots| == DotCount(slideCount, slidesPerView)
      ensures forall i :: 0 <= i < |dots| ==> dots[i] == Dot(i, i == 0)
    {
      var maxSlide := slideCount - (slidesPerView - 1);
      dots := [];
      var i := 0;
      while i < maxSlide
        invariant 0 <= i <= DotCount(slideCount, slidesPerView)
        invariant |dots| == i
        invariant forall j :: 0 <= j < i ==> dots[j] == Dot(j, j == 0)
      {
        dots := dots + [Dot(i, i == 0)];
        i := i + 1;
      }
    }
  }
}
