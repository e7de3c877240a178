/** The `ipadSlider` gesture handler: a horizontally paged surface dragged by
    one finger. Touch handlers update shared state (offsets, the last touch
    samples, the running animation); on release the handler picks a target
    slide and an initial velocity and starts a `slideTo` animation. */
module TouchSlider {
  import opened JsNumbers
  import Bezier

  /** Velocity used when the last two samples are too close to divide by,
      and for the default curve of `slideTo`. */
  const DefaultVelocity: real := 0.1
  /** A gesture longer than this (ms) is a speculative drag, not a flick. */
  const SpeculativeMs: int := 250
  /** A flick shorter than this (px) does not change slide. */
  const DeadZonePx: real := 20.0
  /** Animation lengths (ms) of `slideTo` with and without `animate: false`. */
  const AnimateMs: int := 500
  const InstantMs: int := 1
  /** The delay (ms) after which `slidTo` is announced, whatever the duration. */
  const CompletionDelayMs: int := 500

  /** The easing curve an animation runs with: one synthesized from a release
      velocity by `bezier_for_velocity` (not evaluated by this model), or a
      curve supplied by the caller of `slideTo`. */
  datatype TimingFunction = ForVelocity(velocity: Num) | Given(curve: Bezier.Curve)

  /** The record `slideTo` writes: start time, duration and timing function. */
  datatype Animation = Animation(start: int, duration: int, timing: TimingFunction)

  /** The options of a `slideTo` event; an absent field is `undefined`. */
  datatype SlideOptions = SlideOptions(slide: int, animate: Option<bool>, bezier: Option<TimingFunction>)

  /** `slidingTo` notifications, in the order they were triggered. */
  datatype Event = SlidingTo(slide: int)

  /** A scheduled `slidTo` notification, due at `due` ms. */
  datatype Timer = SlidTo(due: int, slide: int)

  /** The samples one gesture keeps, gathered for stating what a handler
      leaves alone. */
  datatype Samples = Samples(
    x: real, t: Option<int>, previousX: real, previousT: Option<int>,
    initialX: real, initialT: int, initialSlide: int, initialOffset: real)

  // ---------------------------------------------------------------------
  // Touch start: interrupting an animation
  // ---------------------------------------------------------------------

  /** Whether an animation is still running `now`. */
  predicate Running(animation: Option<Animation>, now: int) {
    animation.Some? && now - animation.value.start < animation.value.duration
  }

  /** Where the surface is taken to be when a touch interrupts: a running
      animation is collapsed along its easing curve `ease`; otherwise the
      surface has reached the target. */
  function Collapse(current: real, target: real, animation: Option<Animation>, now: int, ease: real -> real): (r: real)
    requires animation.Some? ==> animation.value.duration > 0
    ensures !Running(animation, now) ==> r == target
    ensures Running(animation, now) ==>
      var a := animation.value;
      (r == current <==> current == target || ease((now - a.start) as real / a.duration as real) == 0.0)
  {
    if Running(animation, now) then
      var a := animation.value;
      current + ease((now - a.start) as real / a.duration as real) * (target - current)
    else
      target
  }

  /** A touch arriving as the animation starts does not move the surface,
      when the curve starts at progress 0. */
  lemma CollapseAtStart(current: real, target: real, a: Animation, ease: real -> real)
    requires a.duration > 0 && ease(0.0) == 0.0
    ensures Collapse(current, target, Some(a), a.start, ease) == current
  {
  }

  /** A touch arriving when the animation has had its full duration finds the
      surface at the target; the collapse formula gives the same value at
      that instant when the curve ends at progress 1, so the two branches
      meet without a jump. */
  lemma CollapseAtEnd(current: real, target: real, a: Animation, now: int, ease: real -> real)
    requires a.duration > 0 && now - a.start >= a.duration
    ensures Collapse(current, target, Some(a), now, ease) == target
    ensures ease(1.0) == 1.0 ==> current + ease(a.duration as real / a.duration as real) * (target - current) == target
  {
    assert a.duration as real / a.duration as real == 1.0;
  }

  /** While the animation runs, progress 0 on its curve leaves the surface
      where it was and progress 1 puts it on the target. */
  lemma CollapseExtremes(current: real, target: real, a: Animation, now: int, ease: real -> real)
    requires a.duration > 0 && now - a.start < a.duration
    ensures ease((now - a.start) as real / a.duration as real) == 0.0 ==>
      Collapse(current, target, Some(a), now, ease) == current
    ensures ease((now - a.start) as real / a.duration as real) == 1.0 ==>
      Collapse(current, target, Some(a), now, ease) == target
  {
  }

  /** With a curve whose progress stays in [0,1], the collapsed offset lies
      between where the surface was and where it was heading. */
  lemma CollapseBetween(current: real, target: real, animation: Option<Animation>, now: int, ease: real -> real)
    requires animation.Some? ==> animation.value.duration > 0
    requires Running(animation, now) ==>
      var a := animation.value;
      0.0 <= ease((now - a.start) as real / a.duration as real) <= 1.0
    ensures var r := Collapse(current, target, animation, now, ease);
      (current <= target ==> current <= r <= target) && (target <= current ==> target <= r <= current)
  {
    if Running(animation, now) {
      var a := animation.value;
      var f := ease((now - a.start) as real / a.duration as real);
      ScaledStepBetween(current, target, f, Collapse(current, target, animation, now, ease));
    }
  }

  lemma ScaledStepBetween(current: real, target: real, f: real, r: real)
    requires 0.0 <= f <= 1.0 && r == current + f * (target - current)
    ensures current <= target ==> current <= r <= target
    ensures target <= current ==> target <= r <= current
  {
    var gap := if current <= target then target - current else current - target;
    NonNegativeProduct(f, gap);
    NonNegativeProduct(1.0 - f, gap);
    assert f * gap + (1.0 - f) * gap == gap;
  }

  lemma NonNegativeProduct(a: real, b: real)
    requires 0.0 <= a && 0.0 <= b
    ensures 0.0 <= a * b
  {
  }

  // ---------------------------------------------------------------------
  // Touch move: edge resistance
  // ---------------------------------------------------------------------

  /** The offset shown for a raw drag offset: inside [0, rightEdge] the
      surface follows the finger; past either edge it moves at half speed. */
  function Resist(raw: real, rightEdge: real): (r: real)
    ensures 0.0 <= raw <= rightEdge ==> r == raw
    ensures raw < 0.0 ==> r == raw / 2.0 && raw < r < 0.0
    ensures 0.0 <= raw && rightEdge < raw ==>
      r - rightEdge == (raw - rightEdge) / 2.0 && rightEdge < r < raw
  {
    if raw < 0.0 then raw / 2.0
    else if raw > rightEdge then rightEdge + (raw - rightEdge) / 2.0
    else raw
  }

  /** On a slider with at least one slide, dragging further always moves
      the surface further, inside or past the edges. */
  lemma ResistMonotone(raw1: real, raw2: real, rightEdge: real)
    requires 0.0 <= rightEdge && raw1 < raw2
    ensures Resist(raw1, rightEdge) < Resist(raw2, rightEdge)
  {
  }

  // ---------------------------------------------------------------------
  // Touch end: target slide and velocity
  // ---------------------------------------------------------------------

  /** The gesture has lasted longer than a flick. An undefined latest time
      (no move yet) compares false. */
  predicate Speculative(t: Option<int>, initialT: int) {
    t.Some? && t.value - initialT > SpeculativeMs
  }

  /** The slide chosen before clamping: the nearest slide after a slow drag;
      after a quick flick, the next slide in the direction of the flick,
      unless it moved less than the dead zone. */
  function FlickTarget(t: Option<int>, initialT: int, offset: real, slideWidth: real,
                       initialX: real, x: real, initialSlide: int): (r: int)
    requires slideWidth > 0.0
    ensures Speculative(t, initialT) ==> r == Round(offset / slideWidth)
    ensures !Speculative(t, initialT) ==> initialSlide - 1 <= r <= initialSlide + 1
    ensures !Speculative(t, initialT) ==> (r == initialSlide <==> Abs(initialX - x) < DeadZonePx)
    ensures !Speculative(t, initialT) ==> (r < initialSlide <==> x >= initialX + DeadZonePx)
    ensures !Speculative(t, initialT) ==> (r > initialSlide <==> x <= initialX - DeadZonePx)
  {
    if Speculative(t, initialT) then Round(offset / slideWidth)
    else if Abs(initialX - x) < DeadZonePx then initialSlide
    else if x > initialX then initialSlide - 1
    else initialSlide + 1
  }

  /** A slide index forced into [0, lastSlide]. */
  function Clamp(slide: int, lastSlide: int): (r: int)
    ensures 0 <= lastSlide ==> 0 <= r <= lastSlide
    ensures 0 <= slide <= lastSlide ==> r == slide
    ensures slide < 0 ==> r == 0
    ensures 0 <= slide && lastSlide < slide ==> r == lastSlide
  {
    if slide < 0 then 0
    else if slide > lastSlide then lastSlide
    else slide
  }

  /** The release velocity from the last two samples, in px/ms. It falls
      back to 0.1 instead of dividing by less than one unit, and is NaN
      when one of the two times is still undefined. */
  function Velocity(x: real, previousX: real, t: Option<int>, previousT: Option<int>): (r: Num)
    ensures Abs(x - previousX) < 1.0 ==> r == Fin(DefaultVelocity)
    ensures r.NonFinite? <==> Abs(x - previousX) >= 1.0 && (t.None? || previousT.None?)
    ensures Abs(x - previousX) >= 1.0 && t.Some? && previousT.Some? && t.value != previousT.value ==>
      r.Fin? && r.value * (t.value - previousT.value) as real == x - previousX
    ensures t.Some? && previousT.Some? && t.value == previousT.value ==> r == Fin(DefaultVelocity)
  {
    if Abs(x - previousX) < 1.0 then Fin(DefaultVelocity)
    else if t.None? || previousT.None? then NonFinite
    else if Abs((t.value - previousT.value) as real) < 1.0 then Fin(DefaultVelocity)
    else Fin((x - previousX) / (t.value - previousT.value) as real)
  }

  /** Between two samples taken in time order, a computed velocity has the
      sign of the finger's motion: positive when it moved right. */
  lemma VelocityDirection(x: real, previousX: real, t: int, previousT: int)
    requires Abs(x - previousX) >= 1.0 && t > previousT
    ensures Velocity(x, previousX, Some(t), Some(previousT)).Fin?
    ensures Velocity(x, previousX, Some(t), Some(previousT)).value > 0.0 <==> x > previousX
  {
  }

  /** The slide chosen on release is clamped to the slider, and a flick
      moves at most one slide from where the gesture began. */
  lemma ReleaseTargetBounds(t: Option<int>, initialT: int, offset: real, slideWidth: real,
                            initialX: real, x: real, initialSlide: int, lastSlide: int)
    requires slideWidth > 0.0 && 0 <= lastSlide
    ensures var r := Clamp(FlickTarget(t, initialT, offset, slideWidth, initialX, x, initialSlide), lastSlide);
      0 <= r <= lastSlide &&
      (!Speculative(t, initialT) && 0 <= initialSlide <= lastSlide ==> initialSlide - 1 <= r <= initialSlide + 1) &&
      (Speculative(t, initialT) && 0.0 <= offset <= slideWidth * lastSlide as real ==> r == Round(offset / slideWidth))
  {
    var f := FlickTarget(t, initialT, offset, slideWidth, initialX, x, initialSlide);
    if Speculative(t, initialT) && 0.0 <= offset <= slideWidth * lastSlide as real {
      DivideWithin(offset, slideWidth, lastSlide);
      assert 0 <= f <= lastSlide;
    }
  }

  /** An offset inside [0, width * n] lies within [0, n] slides. */
  lemma DivideWithin(offset: real, slideWidth: real, n: int)
    requires slideWidth > 0.0 && 0.0 <= offset <= slideWidth * n as real
    ensures 0.0 <= offset / slideWidth <= n as real
  {
    var q := offset / slideWidth;
    assert q * slideWidth == offset;
    if q > n as real {
      assert q * slideWidth > n as real * slideWidth;
    }
  }

  // ---------------------------------------------------------------------
  // slideTo
  // ---------------------------------------------------------------------

  /** The animation duration `slideTo` uses: only an explicit
      `animate: false` makes it (almost) instant; it is never zero. */
  function Duration(animate: Option<bool>): (d: int)
    ensures d > 0
    ensures d == InstantMs <==> animate == Some(false)
    ensures d == AnimateMs <==> animate != Some(false)
  {
    if animate == Some(false) then InstantMs else AnimateMs
  }

  /** One `ipadSlider` instance: the closure variables of the handlers. */
  class Slider {
    const slideWidth: real
    const lastSlide: int
    const rightEdge: real

    var currentOffset: real
    var initialOffset: real
    var targetOffset: real

    var x: real
    /** The latest move's time; `undefined` until the first touch move. */
    var t: Option<int>
    var previousX: real
    var previousT: Option<int>
    var initialX: real
    var initialT: int
    var initialSlide: int

    /** The running (or last) animation; `undefined` before any `slideTo`. */
    var animation: Option<Animation>

    /** The offset last written to the surface's transform. */
    var rendered: real
    var events: seq<Event>
    var timers: seq<Timer>

    /** Whether a touch start has defined the samples. */
    ghost var sampled: bool
    /** The slide whose offset `targetOffset` is. */
    ghost var targetSlide: int

    ghost predicate Valid()
      reads this
    {
      slideWidth > 0.0 &&
      rightEdge == slideWidth * lastSlide as real &&
      targetOffset == targetSlide as real * slideWidth &&
      (animation.Some? ==> animation.value.duration > 0)
    }

    ghost function Gesture(): Samples
      reads this
    {
      Samples(x, t, previousX, previousT, initialX, initialT, initialSlide, initialOffset)
    }

    constructor (slideWidth: real, nSlides: int)
      requires slideWidth > 0.0
      ensures Valid() && !sampled
      ensures this.slideWidth == slideWidth && lastSlide == nSlides - 1
      ensures currentOffset == 0.0 && targetOffset == 0.0 && targetSlide == 0
      ensures t == None && animation == None && events == [] && timers == []
    {
      this.slideWidth := slideWidth;
      lastSlide := nSlides - 1;
      rightEdge := slideWidth * (nSlides - 1) as real;
      currentOffset, targetOffset, rendered := 0.0, 0.0, 0.0;
      t, previousT, animation := None, None, None;
      events, timers := [], [];
      sampled, targetSlide := false, 0;
    }

    /** `touchstart`: a single touch takes over from any animation and
        records the first sample. The time is stored in `initialT` and
        `previousT` only: a local variable shadows `t`, which keeps the
        last move's time from the previous gesture. */
    method TouchStart(touches: nat, clientX: real, now: int, ease: real -> real)
      requires Valid()
      modifies this
      ensures Valid()
      ensures touches != 1 ==> unchanged(this)
      ensures touches == 1 ==>
        && currentOffset == Collapse(old(currentOffset), targetOffset, animation, now, ease)
        && initialOffset == currentOffset && rendered == currentOffset
        && initialSlide == Floor(targetOffset / slideWidth) == targetSlide
        && x == clientX && previousX == clientX && initialX == clientX
        && initialT == now && previousT == Some(now)
        && t == old(t)
        && sampled
    ensures touches == 1 ==>
        && targetOffset == old(targetOffset) && targetSlide == old(targetSlide)
        && animation == old(animation) && events == old(events) && timers == old(timers)
    {
      if touches != 1 {
        return;
      }
      InterruptAnimation(now, ease);
      rendered := currentOffset;
      initialOffset := currentOffset;
      initialSlide := SlideUnderFinger();
      RecordFirstSample(clientX, now);
    }

    /** The last step of `touchstart`: the touch becomes the initial, the
        previous and the latest position; its time becomes the initial and
        the previous time (the latest time `t` is not written). */
    method RecordFirstSample(clientX: real, now: int)
      modifies this`initialX, this`previousX, this`x, this`initialT, this`previousT, this`sampled
      ensures initialX == clientX && previousX == clientX && x == clientX
      ensures initialT == now && previousT == Some(now) && sampled
    {
      initialX, previousX, x := clientX, clientX, clientX;
      initialT, previousT := now, Some(now);
      sampled := true;
    }

    /** The first step of `touchstart`: a running animation is collapsed
        into the current offset along its easing curve, otherwise the
        surface is taken to have reached the target. */
    method InterruptAnimation(now: int, ease: real -> real)
      requires animation.Some? ==> animation.value.duration > 0
      modifies this`currentOffset
      ensures currentOffset == Collapse(old(currentOffset), targetOffset, animation, now, ease)
    {
      if animation.Some? && now - animation.value.start < animation.value.duration {
        var a := animation.value;
        var elapsed := now - a.start;
        var progress := ease(elapsed as real / a.duration as real);
        currentOffset := currentOffset + progress * (targetOffset - currentOffset);
      } else {
        currentOffset := targetOffset;
      }
    }

    /** The slide the surface is heading to when a touch starts, rounded
        down from the target offset: always the target slide itself. */
    method SlideUnderFinger() returns (slide: int)
      requires Valid()
      ensures slide == Floor(targetOffset / slideWidth) && slide == targetSlide
    {
      SlideOfOffset(targetOffset, targetSlide, slideWidth);
      slide := Floor(targetOffset / slideWidth);
    }

    /** `touchmove`: a single-touch move shifts the latest sample into the
        previous one and drags the surface, at half speed past an edge.
        The result says whether the host's default handling is prevented. */
    method TouchMove(touches: nat, clientX: real, now: int) returns (preventDefault: bool)
      requires Valid() && (touches == 1 ==> sampled)
      modifies this
      ensures Valid()
      ensures preventDefault == (touches == 1)
      ensures touches != 1 ==> unchanged(this)
      ensures touches == 1 ==>
        && previousX == old(x) && previousT == old(t)
        && x == clientX && t == Some(now)
        && currentOffset == Resist(initialOffset + (initialX - clientX), rightEdge)
        && rendered == currentOffset
      ensures touches == 1 ==>
        && initialX == old(initialX) && initialOffset == old(initialOffset)
        && initialT == old(initialT) && initialSlide == old(initialSlide)
        && targetOffset == old(targetOffset) && targetSlide == old(targetSlide)
        && animation == old(animation) && events == old(events) && timers == old(timers)
        && sampled
    {
      if touches != 1 {
        return false;
      }
      preventDefault := true;
      previousX := x;
      previousT := t;
      x := clientX;
      t := Some(now);
      currentOffset := initialOffset + (initialX - x);
      if currentOffset < 0.0 {
        currentOffset := currentOffset / 2.0;
      } else if currentOffset > rightEdge {
        currentOffset := rightEdge + (currentOffset - rightEdge) / 2.0;
      }
      rendered := currentOffset;
    }

    /** `touchend`: pick the target slide, compute the release velocity and
        start `slideTo` with a curve for that velocity. */
    method TouchEnd(now: int) returns (slide: int, velocity: Num)
      requires Valid() && sampled
      modifies this
      ensures Valid()
      ensures slide == Clamp(FlickTarget(t, initialT, currentOffset, slideWidth, initialX, x, initialSlide), lastSlide)
      ensures velocity == Velocity(x, previousX, t, previousT)
      ensures 0 <= lastSlide ==> 0 <= slide <= lastSlide && 0.0 <= targetOffset <= rightEdge
      ensures targetOffset == slide as real * slideWidth && targetSlide == slide
      ensures animation == Some(Animation(now, AnimateMs, ForVelocity(velocity)))
      ensures rendered == targetOffset
      ensures events == old(events) + [SlidingTo(slide)]
      ensures timers == old(timers) + [SlidTo(now + CompletionDelayMs, slide)]
      ensures Gesture() == old(Gesture()) && currentOffset == old(currentOffset) && sampled
    {
      slide := Clamp(FlickTarget(t, initialT, currentOffset, slideWidth, initialX, x, initialSlide), lastSlide);
      velocity := Velocity(x, previousX, t, previousT);
      SlideTo(SlideOptions(slide, None, Some(ForVelocity(velocity))), now);
      if 0 <= lastSlide {
        OffsetWithin(slide, slideWidth, lastSlide);
      }
    }

    /** `slideTo`: aim at a slide, start the animation towards it, announce
        `slidingTo`, and schedule `slidTo` after a fixed 500 ms. The
        current offset is left as it was. */
    method SlideTo(opts: SlideOptions, now: int)
      requires Valid()
      modifies this
      ensures Valid()
      ensures targetOffset == opts.slide as real * slideWidth && targetSlide == opts.slide
      ensures animation == Some(Animation(now, Duration(opts.animate),
        if opts.bezier.Some? then opts.bezier.value else ForVelocity(Fin(DefaultVelocity))))
      ensures rendered == targetOffset
      ensures events == old(events) + [SlidingTo(opts.slide)]
      ensures timers == old(timers) + [SlidTo(now + CompletionDelayMs, opts.slide)]
      ensures Gesture() == old(Gesture()) && currentOffset == old(currentOffset)
      ensures sampled == old(sampled)
    {
      targetOffset := opts.slide as real * slideWidth;
      targetSlide := opts.slide;
      var duration := if opts.animate == Some(false) then InstantMs else AnimateMs;
      var timing := if opts.bezier.Some? then opts.bezier.value else ForVelocity(Fin(DefaultVelocity));
      animation := Some(Animation(now, duration, timing));
      rendered := targetOffset;
      events := events + [SlidingTo(opts.slide)];
      timers := timers + [SlidTo(now + CompletionDelayMs, opts.slide)];
    }
  }

  /** The offset of a slide, divided by the slide width, is that slide. */
  lemma SlideOfOffset(offset: real, slide: int, slideWidth: real)
    requires slideWidth > 0.0 && offset == slide as real * slideWidth
    ensures Floor(offset / slideWidth) == slide
  {
    assert offset / slideWidth == slide as real;
  }

  /** A slide inside [0, n] has its offset inside [0, width * n]. */
  lemma OffsetWithin(slide: int, slideWidth: real, n: int)
    requires slideWidth > 0.0 && 0 <= slide <= n
    ensures 0.0 <= slide as real * slideWidth <= slideWidth * n as real
  {
    assert (n - slide) as real * slideWidth >= 0.0;
  }
}
