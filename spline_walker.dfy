/**
 * SplineWalker.cs: a component that moves along a Bezier spline. Each frame it advances
 * its progress by deltaTime / duration, and at the end of the curve it stops, wraps
 * around or turns back, depending on its mode. The spline's point and direction
 * evaluation (BezierSpline) is not modelled; the parameter handed to it is.
 */
module Splines {

  datatype SplineWalkerMode = Once | Loop | PingPong

  /** The walker's changing state: how far along the curve, and in which direction. */
  datatype Walk = Walk(progress: real, goingForward: bool)

  /** One Update of the progress state machine, `delta` being deltaTime / duration. */
  function Step(mode: SplineWalkerMode, w: Walk, delta: real): Walk {
    if w.goingForward then
      var p := w.progress + delta;
      if p > 1.0 then
        match mode
        case Once => Walk(1.0, true)
        case Loop => Walk(p - 1.0, true)
        case PingPong => Walk(2.0 - p, false)
      else Walk(p, true)
    else
      var p := w.progress - delta;
      if p < 0.0 then Walk(-p, true) else Walk(p, false)
  }

  predicate InRange(x: real) {
    0.0 <= x <= 1.0
  }

  /**
   * A step no longer than the curve keeps the walker on the curve, in every mode:
   * overshooting 1 clamps, wraps or reflects back into [0, 1], and undershooting 0 reflects.
   */
  lemma StepStaysOnCurve(mode: SplineWalkerMode, w: Walk, delta: real)
    requires InRange(w.progress) && InRange(delta)
    ensures InRange(Step(mode, w, delta).progress)
  {
  }

  /**
   * The step moves the walker by exactly delta in its direction unless it crosses an end;
   * crossing the end clamps (Once), wraps by 1 (Loop) or reflects (PingPong), and
   * crossing 0 backwards reflects and turns forward.
   */
  lemma StepCases(mode: SplineWalkerMode, w: Walk, delta: real)
    ensures var r := Step(mode, w, delta);
      && (w.goingForward && w.progress + delta <= 1.0 ==> r == Walk(w.progress + delta, true))
      && (w.goingForward && w.progress + delta > 1.0 ==>
            r == match mode
                 case Once => Walk(1.0, true)
                 case Loop => Walk(w.progress + delta - 1.0, true)
                 case PingPong => Walk(1.0 - (w.progress + delta - 1.0), false))
      && (!w.goingForward && w.progress - delta >= 0.0 ==> r == Walk(w.progress - delta, false))
      && (!w.goingForward && w.progress - delta < 0.0 ==> r == Walk(0.0 - (w.progress - delta), true))
  {
  }

  /** Only PingPong ever turns the walker around; Once and Loop keep a forward walker forward. */
  lemma OnlyPingPongTurns(mode: SplineWalkerMode, w: Walk, delta: real)
    requires w.goingForward
    ensures !Step(mode, w, delta).goingForward <==> mode == PingPong && w.progress + delta > 1.0
  {
  }

  /**
   * C#'s float remainder by 1: x minus its integer part truncated toward zero, so the
   * result takes the sign of x.
   */
  function Rem1(x: real): (r: real)
    ensures x >= 0.0 ==> 0.0 <= r < 1.0
    ensures x < 0.0 ==> -1.0 < r <= 0.0
    ensures x - r == Truncate(x) as real
  {
    if x >= 0.0 then x - x.Floor as real else x + (-x).Floor as real
  }

  /** The integer part of x, rounded toward zero. */
  function Truncate(x: real): (n: int)
    ensures 0.0 <= x ==> 0 <= n && n as real <= x < n as real + 1.0
    ensures x < 0.0 ==> n <= 0 && n as real - 1.0 < x <= n as real
  {
    if x >= 0.0 then x.Floor else -((-x).Floor)
  }

  /** The curve parameter Update hands to GetPoint and GetDirection: (progress + offset) % 1. */
  function SplineParameter(progress: real, offset: real): real {
    Rem1(progress + offset)
  }

  /** With progress and offset in [0, 1] the parameter lies in [0, 1) and differs from their sum by a whole number. */
  lemma SplineParameterInRange(progress: real, offset: real)
    requires InRange(progress) && InRange(offset)
    ensures 0.0 <= SplineParameter(progress, offset) < 1.0
    ensures progress + offset - SplineParameter(progress, offset) in {0.0, 1.0, 2.0}
  {
    var n := Truncate(progress + offset);
    assert 0 <= n <= 2;
  }

  lemma DivideAtMostOne(a: real, b: real)
    requires 0.0 <= a <= b && b > 0.0
    ensures InRange(a / b)
  {
    assert a / b * b == a;
  }

  class SplineWalker {
    var duration: real
    var offset: real
    var mode: SplineWalkerMode
    var progress: real
    var goingForward: bool

    /** A walker at the start of the curve, heading forward (the field initialisers). */
    constructor (duration: real, offset: real, mode: SplineWalkerMode)
      ensures this.duration == duration && this.offset == offset && this.mode == mode
      ensures progress == 0.0 && goingForward
    {
      this.duration := duration;
      this.offset := offset;
      this.mode := mode;
      progress := 0.0;
      goingForward := true;
    }

    function State(): Walk
      reads this
    {
      Walk(progress, goingForward)
    }

    /**
     * Update: advances the progress state machine by deltaTime / duration and returns the
     * curve parameter it then evaluates the spline at. A zero duration is excluded: the
     * source then divides by zero in floating point.
     */
    method Update(deltaTime: real) returns (t: real)
      requires duration != 0.0
      modifies this`progress, this`goingForward
      ensures State() == Step(mode, old(State()), deltaTime / duration)
      ensures t == SplineParameter(progress, offset)
    {
      if goingForward {
        progress := progress + deltaTime / duration;
        if progress > 1.0 {
          if mode == Once {
            progress := 1.0;
          } else if mode == Loop {
            progress := progress - 1.0;
          } else {
            progress := 2.0 - progress;
            goingForward := false;
          }
        }
      } else {
        progress := progress - deltaTime / duration;
        if progress < 0.0 {
          progress := -progress;
          goingForward := true;
        }
      }
      t := SplineParameter(progress, offset);
    }
  }

  /** A frame no longer than the whole walk keeps a walker that is on the curve on it, and its parameter in [0, 1). */
  method UpdateOnCurve(w: SplineWalker, deltaTime: real) returns (t: real)
    requires w.duration > 0.0 && 0.0 <= deltaTime <= w.duration
    requires InRange(w.progress) && InRange(w.offset)
    modifies w`progress, w`goingForward
    ensures InRange(w.progress) && 0.0 <= t < 1.0
  {
    ghost var before := w.State();
    DivideAtMostOne(deltaTime, w.duration);
    t := w.Update(deltaTime);
    StepStaysOnCurve(w.mode, before, deltaTime / w.duration);
    SplineParameterInRange(w.progress, w.offset);
  }
}
