/** The `useCarousel` hook (client/src/hooks/use-carousel.ts): the index of the visible slide and a
    pause flag, changed by the callbacks the hook returns. */
module UseCarousel {

  /** The slide index as a JavaScript number: an integer, or NaN once `x % 0` has been taken. */
  datatype Slide = At(index: int) | NaN

  const DefaultAutoplayInterval := 5000

  function Abs(x: int): nat
  {
    if x < 0 then -x else x
  }

  /** The quotient of `a / b` truncated toward zero. */
  function JsQuot(a: int, b: int): int
    requires b != 0
  {
    var m := Abs(b);
    var q := if a >= 0 then a / m else -((-a) / m);
    if b > 0 then q else -q
  }

  /** JavaScript's `a % b` on integers: the remainder of division truncated toward zero,
      so it takes the sign of `a`. */
  function JsRem(a: int, b: int): (r: int)
    requires b != 0
    ensures a == JsQuot(a, b) * b + r
    ensures a >= 0 ==> 0 <= r < Abs(b)
    ensures a < 0 ==> r <= 0 && -r < Abs(b)
  {
    if a >= 0 then a % Abs(b) else -((-a) % Abs(b))
  }

  /** A non-negative dividend smaller than the divisor is its own remainder. */
  lemma JsRemSmall(a: int, b: int)
    requires b != 0 && 0 <= a < Abs(b)
    ensures JsRem(a, b) == a
  {
    var m := Abs(b);
    assert a % m == a;
  }

  /** `(prev + 1) % totalSlides`. */
  function NextIndex(s: Slide, total: int): (r: Slide)
    ensures r.NaN? <==> s.NaN? || total == 0
    ensures r.At? ==> s.index + 1 == JsQuot(s.index + 1, total) * total + r.index
    ensures r.At? && s.index + 1 >= 0 ==> 0 <= r.index < Abs(total)
  {
    match s
    case NaN => NaN
    case At(n) => if total == 0 then NaN else At(JsRem(n + 1, total))
  }

  /** `(prev - 1 + totalSlides) % totalSlides`. */
  function PrevIndex(s: Slide, total: int): (r: Slide)
    ensures r.NaN? <==> s.NaN? || total == 0
    ensures r.At? ==> s.index - 1 + total == JsQuot(s.index - 1 + total, total) * total + r.index
    ensures r.At? && s.index - 1 + total >= 0 ==> 0 <= r.index < Abs(total)
  {
    match s
    case NaN => NaN
    case At(n) => if total == 0 then NaN else At(JsRem(n - 1 + total, total))
  }

  /** On a valid index, next moves one forward and wraps from the last slide to the first. */
  lemma NextWraps(n: int, total: int)
    requires 0 <= n < total
    ensures NextIndex(At(n), total) == At(if n + 1 == total then 0 else n + 1)
  {
    if n + 1 == total {
      assert (n + 1) % total == 0;
    } else {
      assert (n + 1) % total == n + 1;
    }
  }

  /** On a valid index, prev moves one back and wraps from the first slide to the last. */
  lemma PrevWraps(n: int, total: int)
    requires 0 <= n < total
    ensures PrevIndex(At(n), total) == At(if n == 0 then total - 1 else n - 1)
  {
    if n == 0 {
      assert (total - 1) % total == total - 1;
    } else {
      assert (n - 1 + total) % total == n - 1;
    }
  }

  /** Why prev adds `totalSlides` before taking the remainder: from the first slide, JavaScript's
      `(0 - 1) % totalSlides` would be -1, which names no slide. */
  lemma PrevNeedsOffset(total: int)
    requires total > 1
    ensures JsRem(0 - 1, total) == -1
  {
    assert 1 % total == 1;
  }

  /** Next and prev keep a valid index valid and undo each other. */
  lemma NextPrevInverse(n: int, total: int)
    requires 0 <= n < total
    ensures NextIndex(At(n), total).At? && 0 <= NextIndex(At(n), total).index < total
    ensures PrevIndex(At(n), total).At? && 0 <= PrevIndex(At(n), total).index < total
    ensures PrevIndex(NextIndex(At(n), total), total) == At(n)
    ensures NextIndex(PrevIndex(At(n), total), total) == At(n)
  {
    NextWraps(n, total);
    PrevWraps(n, total);
    var next := if n + 1 == total then 0 else n + 1;
    var prev := if n == 0 then total - 1 else n - 1;
    PrevWraps(next, total);
    NextWraps(prev, total);
  }

  /** With no slides the index becomes NaN, and NaN stays NaN under next and prev. */
  lemma NoSlidesGivesNaN(s: Slide, total: int)
    ensures NextIndex(s, 0) == NaN && PrevIndex(s, 0) == NaN
    ensures NextIndex(NaN, total) == NaN && PrevIndex(NaN, total) == NaN
  {
  }

  /** `k` steps of next. */
  function NextTimes(s: Slide, total: int, k: nat): Slide
  {
    if k == 0 then s else NextIndex(NextTimes(s, total, k - 1), total)
  }

  /** Steps compose: `j + k` steps are `j` steps followed by `k`. */
  lemma {:induction false} NextTimesAdd(s: Slide, total: int, j: nat, k: nat)
    ensures NextTimes(s, total, j + k) == NextTimes(NextTimes(s, total, j), total, k)
  {
    if k > 0 {
      NextTimesAdd(s, total, j, k - 1);
    }
  }

  /** Short of the last slide, `k` steps forward move exactly `k` slides on. */
  lemma {:induction false} NextTimesForward(n: int, total: int, k: nat)
    requires 0 <= n && n + k < total
    ensures NextTimes(At(n), total, k) == At(n + k)
  {
    if k > 0 {
      NextTimesForward(n, total, k - 1);
      NextWraps(n + k - 1, total);
    }
  }

  /** `totalSlides` steps of next bring a valid index back to itself. */
  lemma FullCycle(n: int, total: int)
    requires 0 <= n < total
    ensures NextTimes(At(n), total, total) == At(n)
  {
    var toLast := total - 1 - n;
    NextTimesForward(n, total, toLast);
    NextWraps(total - 1, total);
    assert NextTimes(At(n), total, toLast + 1) == At(0);
    NextTimesForward(0, total, n);
    NextTimesAdd(At(n), total, toLast + 1, n);
  }

  /** Autoplay runs when it is enabled, not paused, and there is more than one slide. */
  predicate AutoplayActive(autoplay: bool, isPaused: bool, totalSlides: int)
  {
    autoplay && !isPaused && totalSlides > 1
  }

  class CarouselState {
    var totalSlides: int
    const autoplayInterval: int
    const autoplay: bool
    var currentSlide: Slide
    var isPaused: bool

    /** `useState(0)` and `useState(false)`. */
    constructor (totalSlides: int, autoplayInterval: int, autoplay: bool)
      ensures this.totalSlides == totalSlides && this.autoplayInterval == autoplayInterval
      ensures this.autoplay == autoplay
      ensures currentSlide == At(0) && !isPaused
    {
      this.totalSlides := totalSlides;
      this.autoplayInterval := autoplayInterval;
      this.autoplay := autoplay;
      currentSlide := At(0);
      isPaused := false;
    }

    /** `useCarousel(totalSlides)`: autoplay on, every 5000 ms. */
    constructor WithDefaults(totalSlides: int)
      ensures this.totalSlides == totalSlides && autoplayInterval == DefaultAutoplayInterval
      ensures autoplay
      ensures currentSlide == At(0) && !isPaused
    {
      this.totalSlides := totalSlides;
      autoplayInterval := DefaultAutoplayInterval;
      autoplay := true;
      currentSlide := At(0);
      isPaused := false;
    }

    /** The visible slide is one of the slides. */
    predicate InRange()
      reads this
    {
      currentSlide.At? && 0 <= currentSlide.index < totalSlides
    }

    /** The condition under which the autoplay effect installs its interval. */
    predicate AutoplayEnabled()
      reads this
    {
      AutoplayActive(autoplay, isPaused, totalSlides)
    }

    method NextSlide()
      modifies this
      ensures currentSlide == NextIndex(old(currentSlide), totalSlides)
      ensures totalSlides == old(totalSlides) && isPaused == old(isPaused)
      ensures old(InRange()) ==> InRange()
    {
      if old(InRange()) {
        NextPrevInverse(currentSlide.index, totalSlides);
      }
      currentSlide := NextIndex(currentSlide, totalSlides);
    }

    method PrevSlide()
      modifies this
      ensures currentSlide == PrevIndex(old(currentSlide), totalSlides)
      ensures totalSlides == old(totalSlides) && isPaused == old(isPaused)
      ensures old(InRange()) ==> InRange()
    {
      if old(InRange()) {
        NextPrevInverse(currentSlide.index, totalSlides);
      }
      currentSlide := PrevIndex(currentSlide, totalSlides);
    }

    /** Jumps only to an index that names a slide; any other index is ignored. */
    method GoToSlide(index: int)
      modifies this
      ensures currentSlide == if 0 <= index < totalSlides then At(index) else old(currentSlide)
      ensures totalSlides == old(totalSlides) && isPaused == old(isPaused)
      ensures 0 <= index < totalSlides ==> InRange()
    {
      if index >= 0 && index < totalSlides {
        currentSlide := At(index);
      }
    }

    method PauseAutoplay()
      modifies this
      ensures isPaused
      ensures currentSlide == old(currentSlide) && totalSlides == old(totalSlides)
      ensures !AutoplayEnabled()
    {
      isPaused := true;
    }

    method ResumeAutoplay()
      modifies this
      ensures !isPaused
      ensures currentSlide == old(currentSlide) && totalSlides == old(totalSlides)
      ensures AutoplayEnabled() <==> autoplay && totalSlides > 1
    {
      isPaused := false;
    }

    /** One firing of the autoplay interval; the interval exists only while autoplay is enabled. */
    method AutoplayTick()
      requires AutoplayEnabled()
      modifies this
      ensures currentSlide == NextIndex(old(currentSlide), totalSlides)
      ensures totalSlides == old(totalSlides) && isPaused == old(isPaused)
    {
      NextSlide();
    }

    /** A re-render with a new `totalSlides` (the carousel records have loaded, say): the index
        state is kept as it is, whether or not it still names a slide. */
    method SetTotalSlides(total: int)
      modifies this
      ensures totalSlides == total
      ensures currentSlide == old(currentSlide) && isPaused == old(isPaused)
    {
      totalSlides := total;
    }
  }
}
