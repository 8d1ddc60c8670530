/**
 * The stroke controller of the drawing surface, on values: a pen register
 * (is a gesture active, where the pointer was last) and the trail of line
 * segments painted into the buffer. Pressing starts a gesture, each move
 * during a gesture paints one segment from the last position to the new
 * one, and releasing ends the gesture.
 *
 * Positions here are already in buffer coordinates; the class in module
 * Canvas maps client coordinates with `Geometry.CanvasPosition` first.
 */
module Stroke {
  import opened Geometry

  /** The canvas mode the owner passes down: drawing or erasing. */
  datatype Mode = Draw | Erase

  /** The stroke style the canvas uses for erasing. */
  const EraseColor: string := "white"

  /** The brush configuration read on every move: colour, size and mode. */
  datatype Brush = Brush(color: string, size: int, mode: Mode)

  /** One painted line: its endpoints, stroke colour and line width. */
  datatype Segment = Segment(from: Point, to: Point, color: string, width: int)

  /** The pen register and the segments painted so far. */
  datatype Pen = Pen(drawing: bool, last: Point, trail: seq<Segment>)

  /** The segment one move paints: white at double width when erasing, else the brush as is. */
  function Paint(from: Point, to: Point, brush: Brush): Segment {
    match brush.mode
    case Erase => Segment(from, to, EraseColor, brush.size * 2)
    case Draw => Segment(from, to, brush.color, brush.size)
  }

  /** Pointer down at a (mapped) position: the gesture starts there and nothing is painted. */
  function Start(pen: Pen, at: Point): Pen {
    Pen(true, at, pen.trail)
  }

  /** Pointer move: paints one segment from the last position when a gesture is active. */
  function Move(pen: Pen, at: Point, brush: Brush): Pen {
    if !pen.drawing then pen
    else Pen(true, at, pen.trail + [Paint(pen.last, at, brush)])
  }

  /** Pointer up or out: the gesture ends. */
  function Stop(pen: Pen): Pen {
    pen.(drawing := false)
  }

  /** A move with the brush in force at that moment. */
  datatype Sample = Sample(at: Point, brush: Brush)

  /** The pointer events the surface receives, in buffer coordinates. */
  datatype Input = Down(at: Point) | Drag(sample: Sample) | Up

  function Step(pen: Pen, input: Input): Pen {
    match input
    case Down(at) => Start(pen, at)
    case Drag(s) => Move(pen, s.at, s.brush)
    case Up => Stop(pen)
  }

  /** The pen after a sequence of events, applied in order. */
  function Run(pen: Pen, inputs: seq<Input>): Pen
    decreases |inputs|
  {
    if inputs == [] then pen else Run(Step(pen, inputs[0]), inputs[1..])
  }

  /** The move events of a sequence of samples. */
  function Drags(samples: seq<Sample>): (inputs: seq<Input>)
    ensures |inputs| == |samples|
  {
    if samples == [] then [] else [Drag(samples[0])] + Drags(samples[1..])
  }

  /**
   * Reference definition of a gesture's output: the connected line through
   * the start point and every sample, each piece in its sample's brush.
   */
  function Polyline(start: Point, samples: seq<Sample>): (line: seq<Segment>)
    ensures |line| == |samples|
    decreases |samples|
  {
    if samples == [] then []
    else [Paint(start, samples[0].at, samples[0].brush)] + Polyline(samples[0].at, samples[1..])
  }

  /** The last position of a gesture through the given samples. */
  function EndPoint(start: Point, samples: seq<Sample>): Point {
    if samples == [] then start else samples[|samples| - 1].at
  }

  // ---------------------------------------------------------------------
  // Properties of single events
  // ---------------------------------------------------------------------

  /** Erasing paints white at twice the brush size; drawing paints the brush colour at its size. */
  lemma PaintStyle(from: Point, to: Point, brush: Brush)
    ensures Paint(from, to, brush).from == from && Paint(from, to, brush).to == to
    ensures brush.mode == Erase ==>
      Paint(from, to, brush).color == EraseColor && Paint(from, to, brush).width == 2 * brush.size
    ensures brush.mode == Draw ==>
      Paint(from, to, brush).color == brush.color && Paint(from, to, brush).width == brush.size
  {
  }

  /** Switching the mode mid-gesture doubles the width and whitens the colour of the next segment. */
  lemma ModeSwitchDoublesWidth(from: Point, to: Point, brush: Brush)
    ensures Paint(from, to, brush.(mode := Erase)).width == 2 * Paint(from, to, brush.(mode := Draw)).width
    ensures Paint(from, to, brush.(mode := Erase)).color == EraseColor
  {
  }

  /** Releasing twice is the same as releasing once, and leaves no gesture active. */
  lemma StopIdempotent(pen: Pen)
    ensures !Stop(pen).drawing
    ensures Stop(Stop(pen)) == Stop(pen)
    ensures Stop(pen).trail == pen.trail && Stop(pen).last == pen.last
  {
  }

  /** A move with no gesture active changes nothing. */
  lemma IdleMoveIsNoOp(pen: Pen, at: Point, brush: Brush)
    requires !pen.drawing
    ensures Move(pen, at, brush) == pen
  {
  }

  // ---------------------------------------------------------------------
  // Properties of event sequences
  // ---------------------------------------------------------------------

  /** The polyline has one segment per sample, ending at that sample, styled by that sample's brush. */
  lemma {:induction false} PolylineShape(start: Point, samples: seq<Sample>)
    decreases |samples|
    ensures |Polyline(start, samples)| == |samples|
    ensures forall i :: 0 <= i < |samples| ==>
      Polyline(start, samples)[i] == Paint(if i == 0 then start else samples[i - 1].at, samples[i].at, samples[i].brush)
  {
    if samples != [] {
      PolylineShape(samples[0].at, samples[1..]);
      var rest := Polyline(samples[0].at, samples[1..]);
      assert Polyline(start, samples) == [Paint(start, samples[0].at, samples[0].brush)] + rest;
      forall i | 1 <= i < |samples|
        ensures Polyline(start, samples)[i] == Paint(samples[i - 1].at, samples[i].at, samples[i].brush)
      {
        assert Polyline(start, samples)[i] == rest[i - 1];
        assert samples[1..][i - 1] == samples[i];
        if i - 1 > 0 {
          assert samples[1..][i - 2] == samples[i - 1];
        }
      }
    }
  }

  /** The polyline is continuous: it starts at the start point and each segment begins where the previous ended. */
  lemma PolylineConnected(start: Point, samples: seq<Sample>)
    requires samples != []
    ensures Polyline(start, samples)[0].from == start
    ensures forall i :: 0 <= i < |samples| - 1 ==> Polyline(start, samples)[i + 1].from == Polyline(start, samples)[i].to
  {
    PolylineShape(start, samples);
    forall i | 0 <= i < |samples| - 1
      ensures Polyline(start, samples)[i + 1].from == Polyline(start, samples)[i].to
    {
      PaintStyle(if i == 0 then start else samples[i - 1].at, samples[i].at, samples[i].brush);
      PaintStyle(samples[i].at, samples[i + 1].at, samples[i + 1].brush);
    }
    PaintStyle(start, samples[0].at, samples[0].brush);
  }

  /** While a gesture is active, moves paint exactly the polyline through their samples. */
  lemma {:induction false} ActiveMovesPaintPolyline(pen: Pen, samples: seq<Sample>)
    requires pen.drawing
    decreases |samples|
    ensures Run(pen, Drags(samples)) == Pen(true, EndPoint(pen.last, samples), pen.trail + Polyline(pen.last, samples))
  {
    if samples != [] {
      var inputs := Drags(samples);
      var seg := Paint(pen.last, samples[0].at, samples[0].brush);
      var next := Pen(true, samples[0].at, pen.trail + [seg]);
      assert inputs[0] == Drag(samples[0]) && inputs[1..] == Drags(samples[1..]);
      assert Step(pen, inputs[0]) == next;
      assert Run(pen, inputs) == Run(next, Drags(samples[1..]));
      ActiveMovesPaintPolyline(next, samples[1..]);
      var rest := Polyline(samples[0].at, samples[1..]);
      assert Polyline(pen.last, samples) == [seg] + rest;
      assert next.trail + rest == pen.trail + ([seg] + rest);
      assert EndPoint(next.last, samples[1..]) == EndPoint(pen.last, samples);
    }
  }

  /**
   * A whole gesture: pressing at `at`, moving through `samples` and releasing
   * appends the polyline from `at` through the samples to the trail, and
   * leaves the pen idle at the last sample.
   */
  lemma Gesture(pen: Pen, at: Point, samples: seq<Sample>)
    ensures Run(pen, [Down(at)] + Drags(samples) + [Up])
         == Pen(false, EndPoint(at, samples), pen.trail + Polyline(at, samples))
  {
    var inputs := [Down(at)] + Drags(samples) + [Up];
    RunAppend(pen, [Down(at)] + Drags(samples), [Up]);
    assert ([Down(at)] + Drags(samples))[1..] == Drags(samples);
    ActiveMovesPaintPolyline(Start(pen, at), samples);
  }

  /** After a release, moves paint nothing until the next press. */
  lemma {:induction false} IdleMovesPaintNothing(pen: Pen, samples: seq<Sample>)
    requires !pen.drawing
    ensures Run(pen, Drags(samples)) == pen
    decreases |samples|
  {
    if samples != [] {
      assert Drags(samples)[1..] == Drags(samples[1..]);
      IdleMovesPaintNothing(pen, samples[1..]);
    }
  }

  /** Running two event sequences one after the other is running their concatenation. */
  lemma {:induction false} RunAppend(pen: Pen, xs: seq<Input>, ys: seq<Input>)
    ensures Run(pen, xs + ys) == Run(Run(pen, xs), ys)
    decreases |xs|
  {
    if xs == [] {
      assert xs + ys == ys;
    } else {
      assert (xs + ys)[1..] == xs[1..] + ys;
      RunAppend(Step(pen, xs[0]), xs[1..], ys);
    }
  }

  /**
   * Painting only appends: the segments already in the trail are never
   * altered by later events, whatever brush or mode those use.
   */
  lemma {:induction false} RunKeepsTrail(pen: Pen, inputs: seq<Input>)
    ensures |pen.trail| <= |Run(pen, inputs).trail|
    ensures Run(pen, inputs).trail[..|pen.trail|] == pen.trail
    decreases |inputs|
  {
    if inputs != [] {
      var next := Step(pen, inputs[0]);
      assert next.trail[..|pen.trail|] == pen.trail;
      RunKeepsTrail(next, inputs[1..]);
      var t := Run(pen, inputs).trail;
      assert t[..|next.trail|][..|pen.trail|] == t[..|pen.trail|];
    }
  }

  /** Every event paints at most one segment, and only a move during a gesture paints one. */
  lemma StepPaintsAtMostOne(pen: Pen, input: Input)
    ensures |Step(pen, input).trail| == |pen.trail| + (if input.Drag? && pen.drawing then 1 else 0)
  {
  }
}
