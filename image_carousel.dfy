/** The slide index of src/components/ImageCarousel.js: modular next/prev over `n` images,
    direct selection, a hover-gated auto-advance and swipe classification. */
module ImageCarousel {
  import opened JsValues

  /** The `current` index: an integer, or NaN once `% 0` has been taken with no images. */
  datatype Slide = At(i: int) | NaN

  predicate InRange(c: Slide, n: nat) {
    c.At? && 0 <= c.i < n
  }

  /** `(prev + 1) % images.length`: the following slide, wrapping from the last to the first. */
  function Next(c: Slide, n: nat): (r: Slide)
    ensures n == 0 || c.NaN? ==> r == NaN
    ensures InRange(c, n) ==> r == At(if c.i + 1 == n then 0 else c.i + 1)
  {
    match c
    case NaN => NaN
    case At(i) => if n == 0 then NaN else At(JsRem(i + 1, n))
  }

  /** `(prev - 1 + images.length) % images.length`: the preceding slide, wrapping from the first to the last. */
  function Prev(c: Slide, n: nat): (r: Slide)
    ensures n == 0 || c.NaN? ==> r == NaN
    ensures InRange(c, n) ==> r == At(if c.i == 0 then n - 1 else c.i - 1)
  {
    match c
    case NaN => NaN
    case At(i) => if n == 0 then NaN else At(JsRem(i - 1 + n, n))
  }

  /** `prev` undoes `next` and `next` undoes `prev`. */
  lemma StepsAreInverse(c: Slide, n: nat)
    requires InRange(c, n)
    ensures Prev(Next(c, n), n) == c
    ensures Next(Prev(c, n), n) == c
  {
  }

  /** `k` presses of `next`. */
  function NextTimes(c: Slide, n: nat, k: nat): Slide
    decreases k
  {
    if k == 0 then c else Next(NextTimes(c, n, k - 1), n)
  }

  lemma {:induction false} MulAtLeast(d: nat, n: nat)
    requires d >= 1
    ensures d * n >= n
    decreases d
  {
    if d > 1 {
      MulAtLeast(d - 1, n);
      assert d * n == (d - 1) * n + n;
    }
  }

  /** Division with remainder determines the remainder. */
  lemma ModUnique(x: int, n: int, q: int, r: int)
    requires 0 <= r < n && x == q * n + r
    ensures x % n == r
  {
    var q', r' := x / n, x % n;
    assert x == q' * n + r';
    var d := q - q';
    assert d * n == r' - r by {
      assert q * n - q' * n == (q - q') * n;
    }
    if d >= 1 {
      MulAtLeast(d, n);
    } else if d <= -1 {
      MulAtLeast(-d, n);
    }
  }

  /** The remainder of a successor. */
  lemma ModSucc(a: nat, n: nat)
    requires n > 0
    ensures (a + 1) % n == if a % n + 1 == n then 0 else a % n + 1
  {
    var q, r := a / n, a % n;
    if r + 1 == n {
      ModUnique(a + 1, n, q + 1, 0);
    } else {
      ModUnique(a + 1, n, q, r + 1);
    }
  }

  /** `k` presses of `next` advance the index by `k` modulo `n`. */
  lemma {:induction false} NextTimesAdvances(c: Slide, n: nat, k: nat)
    requires InRange(c, n)
    ensures NextTimes(c, n, k) == At((c.i + k) % n)
    decreases k
  {
    if k > 0 {
      NextTimesAdvances(c, n, k - 1);
      ModSucc(c.i + k - 1, n);
    } else {
      ModUnique(c.i, n, 0, c.i);
    }
  }

  /** Pressing `next` once per image returns to the starting slide. */
  lemma FullCycle(c: Slide, n: nat)
    requires InRange(c, n)
    ensures NextTimes(c, n, n) == c
  {
    NextTimesAdvances(c, n, n);
    ModUnique(c.i + n, n, 1, c.i);
  }

  /** What the end of a touch gesture does. */
  datatype Swipe = SwipeNext | SwipePrev | NoSwipe

  /** A coordinate (a `clientX`, in possibly fractional pixels) that is set and not 0. */
  predicate Truthy(x: Option<real>) {
    x.Some? && x.value != 0.0
  }

  /** handleTouchEnd: with both coordinates truthy, a leftward travel of more than 50 pixels goes to
      the next slide and a rightward one of more than 50 to the previous slide. */
  function ClassifySwipe(start: Option<real>, end: Option<real>): Swipe {
    if Truthy(start) && Truthy(end) then
      var diff := start.value - end.value;
      if diff > 50.0 then SwipeNext else if diff < -50.0 then SwipePrev else NoSwipe
    else NoSwipe
  }

  function Mirror(s: Swipe): Swipe {
    match s
    case SwipeNext => SwipePrev
    case SwipePrev => SwipeNext
    case NoSwipe => NoSwipe
  }

  /** A swipe moves only with both coordinates truthy and more than 50 pixels apart; reversing the
      gesture reverses the move. */
  lemma SwipeSymmetry(start: Option<real>, end: Option<real>)
    ensures ClassifySwipe(start, end) != NoSwipe ==>
              Truthy(start) && Truthy(end) && (start.value - end.value > 50.0 || end.value - start.value > 50.0)
    ensures ClassifySwipe(end, start) == Mirror(ClassifySwipe(start, end))
  {
  }

  /** Coordinates are fractional pixels: a 50.5-pixel travel moves, a start at 0.5 is truthy, and
      a touch at exactly 0 counts as no touch. */
  lemma SwipeAtFractions()
    ensures ClassifySwipe(Some(60.5), Some(10.0)) == SwipeNext
    ensures ClassifySwipe(Some(0.5), Some(60.0)) == SwipePrev
    ensures ClassifySwipe(Some(80.0), Some(0.0)) == NoSwipe
  {
  }

  /** The slide a gesture leads to. */
  function AfterSwipe(c: Slide, n: nat, start: Option<real>, end: Option<real>): Slide {
    match ClassifySwipe(start, end)
    case SwipeNext => Next(c, n)
    case SwipePrev => Prev(c, n)
    case NoSwipe => c
  }

  /** A gesture and its reverse, from an in-range slide, come back to it. */
  lemma SwipeBackRestores(c: Slide, n: nat, start: Option<real>, end: Option<real>)
    requires InRange(c, n)
    ensures AfterSwipe(AfterSwipe(c, n, start, end), n, end, start) == c
  {
    SwipeSymmetry(start, end);
    StepsAreInverse(c, n);
  }

  datatype CarouselState = CarouselState(current: Slide, isHovered: bool, touchStartX: Option<real>, touchEndX: Option<real>)

  class Carousel {
    var current: Slide
    var isHovered: bool
    var touchStartX: Option<real>
    var touchEndX: Option<real>
    /** `images.length`. */
    const n: nat

    function State(): CarouselState
      reads this
    {
      CarouselState(current, isHovered, touchStartX, touchEndX)
    }

    constructor(n: nat)
      ensures this.n == n
      ensures State() == CarouselState(At(0), false, None, None)
      ensures n > 0 ==> InRange(current, n)
    {
      this.n := n;
      current, isHovered, touchStartX, touchEndX := At(0), false, None, None;
    }

    method GoNext()
      modifies this
      ensures State() == old(State()).(current := Next(old(current), n))
      ensures old(InRange(current, n)) ==> InRange(current, n)
    {
      current := Next(current, n);
    }

    method GoPrev()
      modifies this
      ensures State() == old(State()).(current := Prev(old(current), n))
      ensures old(InRange(current, n)) ==> InRange(current, n)
    {
      current := Prev(current, n);
    }

    /** A dot click: the index is taken verbatim, without a bounds check. */
    method GoTo(idx: int)
      modifies this
      ensures State() == old(State()).(current := At(idx))
    {
      current := At(idx);
    }

    /** The auto-advance timer firing: it is only armed while the pointer is not over the carousel. */
    method Tick()
      modifies this
      ensures State() == old(State()).(current := if old(isHovered) then old(current) else Next(old(current), n))
      ensures old(InRange(current, n)) ==> InRange(current, n)
    {
      if !isHovered {
        current := Next(current, n);
      }
    }

    method MouseEnter()
      modifies this
      ensures State() == old(State()).(isHovered := true)
    {
      isHovered := true;
    }

    method MouseLeave()
      modifies this
      ensures State() == old(State()).(isHovered := false)
    {
      isHovered := false;
    }

    /** Records where the touch began; nothing else. */
    method TouchStart(clientX: real)
      modifies this
      ensures State() == old(State()).(touchStartX := Some(clientX))
    {
      touchStartX := Some(clientX);
    }

    /** Records where the touch is now; nothing else. */
    method TouchMove(clientX: real)
      modifies this
      ensures State() == old(State()).(touchEndX := Some(clientX))
    {
      touchEndX := Some(clientX);
    }

    /** The end of a gesture moves the slide as classified; the coordinates are not reset. */
    method TouchEnd()
      modifies this
      ensures State() == old(State()).(current := AfterSwipe(old(current), n, old(touchStartX), old(touchEndX)))
      ensures old(InRange(current, n)) ==> InRange(current, n)
    {
      var s := ClassifySwipe(touchStartX, touchEndX);
      if s == SwipeNext {
        GoNext();
      } else if s == SwipePrev {
        GoPrev();
      }
    }
  }
}
