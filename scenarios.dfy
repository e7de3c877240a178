/** Whole gestures driven through the handlers, on a slider of three slides
    320 px wide (right edge at 640). Each scenario states what the handlers
    produce, so that the quirks of the handler code show as results. */
module TouchSliderScenarios {
  import opened JsNumbers
  import opened TouchSlider
  import Bezier

  /** The progress of the linear curve `Bezier.LinearCurve`, which the touch
      starts below collapse animations along. */
  function Linear(u: real): (r: real)
    ensures Bezier.Ease(Bezier.LinearCurve, u) == Fin(r)
  {
    Bezier.LinearCurveIsIdentity(u);
    u
  }

  /** A quick flick to the left on a fresh slider: two moves, released
      within 250 ms and more than 20 px from where it began, advances one
      slide; the velocity is the last two samples' -30 px over 20 ms. */
  method FlickLeft() returns (slide: int, velocity: Num, offset: real)
    ensures slide == 1 && velocity == Fin(-1.5) && offset == 60.0
  {
    var s := new Slider(320.0, 3);
    s.TouchStart(1, 100.0, 0, Linear);
    var _ := s.TouchMove(1, 70.0, 80);
    var _ := s.TouchMove(1, 40.0, 100);
    offset := s.currentOffset;
    slide, velocity := s.TouchEnd(100);
  }

  /** The first gesture of a slider with a single move: the touch start
      never defined the latest time, so the move copies an undefined time
      into the previous one and the release velocity is NaN. */
  method FirstGestureSingleMove() returns (slide: int, velocity: Num)
    ensures slide == 1 && velocity == NonFinite
  {
    var s := new Slider(320.0, 3);
    s.TouchStart(1, 100.0, 0, Linear);
    var _ := s.TouchMove(1, 40.0, 100);
    slide, velocity := s.TouchEnd(100);
  }

  /** A second gesture after the first has settled: its first move takes the
      previous time from the first gesture's last move (100 ms), not from
      its own touch start (1000 ms), so the velocity is -50 px over 950 ms
      instead of over 50 ms. */
  method SecondGestureStaleTime() returns (slide: int, velocity: Num, startOffset: real)
    ensures startOffset == 320.0
    ensures slide == 2 && velocity == Fin(-50.0 / 950.0) && velocity != Fin(-1.0)
  {
    var s := new Slider(320.0, 3);
    s.TouchStart(1, 100.0, 0, Linear);
    var _ := s.TouchMove(1, 70.0, 80);
    var _ := s.TouchMove(1, 40.0, 100);
    var _, _ := s.TouchEnd(100);
    s.TouchStart(1, 200.0, 1000, Linear);
    startOffset := s.currentOffset;
    var _ := s.TouchMove(1, 150.0, 1050);
    slide, velocity := s.TouchEnd(1050);
  }

  /** A tap: no move, so the slide stays and the velocity is the 0.1
      fallback; a second finger during the gesture changes nothing. */
  method Tap() returns (slide: int, velocity: Num, prevented: bool)
    ensures slide == 0 && velocity == Fin(0.1) && !prevented
  {
    var s := new Slider(320.0, 3);
    s.TouchStart(1, 100.0, 0, Linear);
    s.TouchStart(2, 10.0, 5, Linear);
    prevented := s.TouchMove(2, 300.0, 10);
    slide, velocity := s.TouchEnd(50);
  }

  /** Touching halfway through a 500 ms `slideTo` animation from 0 to 320,
      started with the linear curve as its `bezier` option, stops the
      surface halfway. */
  method InterruptHalfway() returns (timing: TimingFunction, offset: real)
    ensures timing == Given(Bezier.LinearCurve)
    ensures offset == 160.0
  {
    var s := new Slider(320.0, 3);
    s.SlideTo(SlideOptions(1, None, Some(Given(Bezier.LinearCurve))), 1000);
    timing := s.animation.value.timing;
    s.TouchStart(1, 50.0, 1250, Linear);
    offset := s.currentOffset;
  }
}
