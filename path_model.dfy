/** Value-level specification of the path compiler of the Arcus front-end bridge.
    A `CompilerState` is everything the compiler holds: the (layer, extruder)
    context, the five path buffers, the pen position and a log of every flush.
    Each operation of the compiler is a transition on that state; the class in
    module Arcus is proved to perform exactly these transitions. */
module PathModel {

  /** Feature category of a line segment. Only the travel marker `NoneType` is
      singled out by the compiler; the remaining enumerators are carried as an
      opaque code. */
  datatype PrintFeatureType = NoneType | Feature(code: nat)

  /** A 2D point in the engine's integer micro-units. */
  datatype Point = Point(x: int, y: int)

  /** The five buffers: four per-segment attribute vectors of length N and a
      flat coordinate vector holding two entries (x, y) per point. */
  datatype Buffers = Buffers(
    lineTypes: seq<PrintFeatureType>,
    lineWidths: seq<int>,
    lineThicknesses: seq<int>,
    lineFeedrates: seq<int>,
    points: seq<int>)

  const EmptyBuffers: Buffers := Buffers([], [], [], [], [])

  /** What one flush hands over: the context it happened in and the buffers. */
  datatype Snapshot = Snapshot(layerNr: int, extruder: int, buffers: Buffers)

  datatype CompilerState = CompilerState(
    layerNr: int,
    extruder: int,
    buffers: Buffers,
    lastPoint: Point,
    flushLog: seq<Snapshot>)

  /** One line of the path, read back from the buffers. */
  datatype Segment = Segment(
    feature: PrintFeatureType, from: Point, to: Point,
    width: int, thickness: int, feedrate: int)

  function SegmentCount(b: Buffers): (n: nat) { |b.lineTypes| }

  /** The size invariant of the buffers: four vectors of one length N, and
      either no point at all (N = 0) or exactly N + 1 points of dimension 2. */
  predicate WellFormed(b: Buffers) {
    var n := SegmentCount(b);
    |b.lineWidths| == n && |b.lineThicknesses| == n && |b.lineFeedrates| == n &&
    ((|b.points| == 0 && n == 0) || |b.points| == 2 * (n + 1))
  }

  /** The flat coordinate vector read as a sequence of points. */
  function PointsOf(coords: seq<int>): (pts: seq<Point>)
    requires |coords| % 2 == 0
    ensures |pts| == |coords| / 2
  {
    seq(|coords| / 2, i requires 0 <= i < |coords| / 2 => Point(coords[2 * i], coords[2 * i + 1]))
  }

  /** The segments the buffers describe: segment i runs from point i to point i + 1. */
  function Segments(b: Buffers): (segs: seq<Segment>)
    requires WellFormed(b)
    ensures |segs| == SegmentCount(b)
  {
    var pts := PointsOf(b.points);
    seq(|b.lineTypes|, i requires 0 <= i < |b.lineTypes| =>
      Segment(b.lineTypes[i], pts[i], pts[i + 1], b.lineWidths[i], b.lineThicknesses[i], b.lineFeedrates[i]))
  }

  /** The last point stored in a non-empty coordinate vector. */
  function EndPoint(b: Buffers): (p: Point)
    requires |b.points| >= 2
  {
    Point(b.points[|b.points| - 2], b.points[|b.points| - 1])
  }

  /** The invariant every reachable state keeps: the buffers are well formed,
      the pen sits on the last stored point, and every flushed buffer was well
      formed too. */
  predicate Inv(s: CompilerState) {
    WellFormed(s.buffers) &&
    (|s.buffers.points| > 0 ==> EndPoint(s.buffers) == s.lastPoint) &&
    forall snap :: snap in s.flushLog ==> WellFormed(snap.buffers)
  }

  // ---------------------------------------------------------------------
  // Transitions

  /** Layer 0, extruder 0, empty buffers, pen at the origin, nothing flushed. */
  const Initial: CompilerState := CompilerState(0, 0, EmptyBuffers, Point(0, 0), [])

  /** The flush step: the buffers are handed over, tagged with the current
      context, and the buffers start again empty. */
  function Flush(s: CompilerState): (t: CompilerState) {
    s.(buffers := EmptyBuffers,
       flushLog := s.flushLog + [Snapshot(s.layerNr, s.extruder, s.buffers)])
  }

  function SetLayer(s: CompilerState, newLayerNr: int): (t: CompilerState) {
    if s.layerNr != newLayerNr then Flush(s).(layerNr := newLayerNr) else s
  }

  function SetExtruder(s: CompilerState, newExtruder: int): (t: CompilerState) {
    if s.extruder != newExtruder then Flush(s).(extruder := newExtruder) else s
  }

  function AddPoint2D(s: CompilerState, p: Point): (t: CompilerState) {
    s.(buffers := s.buffers.(points := s.buffers.points + [p.x, p.y]), lastPoint := p)
  }

  function AddLineSegment(s: CompilerState, feature: PrintFeatureType, p: Point,
                          width: int, thickness: int, feedrate: int): (t: CompilerState) {
    var u := AddPoint2D(s, p);
    u.(buffers := u.buffers.(
      lineTypes := u.buffers.lineTypes + [feature],
      lineWidths := u.buffers.lineWidths + [width],
      lineThicknesses := u.buffers.lineThicknesses + [thickness],
      lineFeedrates := u.buffers.lineFeedrates + [feedrate]))
  }

  /** The travel segment inserted when a new line sequence does not start at
      the pen: feature NoneType, width 1, thickness 0, feedrate 0. */
  function HandleInitialPoint(s: CompilerState, from: Point): (t: CompilerState) {
    if |s.buffers.points| == 0 then AddPoint2D(s, from)
    else if from != s.lastPoint then AddLineSegment(s, NoneType, from, 1, 0, 0)
    else s
  }

  /** Teardown: flush only when at least one segment is buffered. */
  function Teardown(s: CompilerState): (t: CompilerState) {
    if |s.buffers.lineTypes| > 0 then Flush(s) else s
  }

  // ---------------------------------------------------------------------
  // Properties of single transitions

  lemma InitialState()
    ensures Inv(Initial)
    ensures Initial.layerNr == 0 && Initial.extruder == 0 && Initial.lastPoint == Point(0, 0)
    ensures Initial.buffers == EmptyBuffers && Segments(Initial.buffers) == [] && Initial.flushLog == []
  {
  }

  lemma PointsOfAppend(coords: seq<int>, p: Point)
    requires |coords| % 2 == 0
    ensures PointsOf(coords + [p.x, p.y]) == PointsOf(coords) + [p]
  {
    var c := coords + [p.x, p.y];
    var n := |coords| / 2;
    assert |c| / 2 == n + 1;
    forall i | 0 <= i < n + 1
      ensures PointsOf(c)[i] == (PointsOf(coords) + [p])[i]
    {
      if i < n {
        assert 2 * i + 1 < |coords|;
        assert c[2 * i] == coords[2 * i] && c[2 * i + 1] == coords[2 * i + 1];
      } else {
        assert 2 * i == |coords|;
      }
    }
  }

  lemma EndPointIsLastPoint(b: Buffers)
    requires WellFormed(b) && |b.points| > 0
    ensures |PointsOf(b.points)| == SegmentCount(b) + 1
    ensures PointsOf(b.points)[SegmentCount(b)] == EndPoint(b)
  {
    assert 2 * SegmentCount(b) + 1 == |b.points| - 1;
  }

  /** Flushing hands over exactly one snapshot, taken under the current
      context, and leaves the context and the pen where they were. */
  lemma FlushLogsOnce(s: CompilerState)
    requires Inv(s)
    ensures var t := Flush(s);
      Inv(t) &&
      t.flushLog == s.flushLog + [Snapshot(s.layerNr, s.extruder, s.buffers)] &&
      t.layerNr == s.layerNr && t.extruder == s.extruder && t.lastPoint == s.lastPoint &&
      Segments(t.buffers) == []
  {
  }

  /** setLayer: the same layer changes nothing; a different one flushes once
      under the old layer number and then switches. */
  lemma SetLayerFlushesOnChange(s: CompilerState, n: int)
    requires Inv(s)
    ensures Inv(SetLayer(s, n))
    ensures s.layerNr == n ==> SetLayer(s, n) == s
    ensures s.layerNr != n ==>
      SetLayer(s, n).flushLog == s.flushLog + [Snapshot(s.layerNr, s.extruder, s.buffers)] &&
      SetLayer(s, n).layerNr == n && SetLayer(s, n).extruder == s.extruder &&
      SetLayer(s, n).buffers == EmptyBuffers && SetLayer(s, n).lastPoint == s.lastPoint
  {
    FlushLogsOnce(s);
  }

  /** setExtruder: the same rule, keyed on the extruder. */
  lemma SetExtruderFlushesOnChange(s: CompilerState, e: int)
    requires Inv(s)
    ensures Inv(SetExtruder(s, e))
    ensures s.extruder == e ==> SetExtruder(s, e) == s
    ensures s.extruder != e ==>
      SetExtruder(s, e).flushLog == s.flushLog + [Snapshot(s.layerNr, s.extruder, s.buffers)] &&
      SetExtruder(s, e).extruder == e && SetExtruder(s, e).layerNr == s.layerNr &&
      SetExtruder(s, e).buffers == EmptyBuffers && SetExtruder(s, e).lastPoint == s.lastPoint
  {
    FlushLogsOnce(s);
  }

  /** addLineSegment on a started path appends exactly one entry to each
      attribute vector and one point, and so exactly one segment: from the old
      pen position to the new point. Earlier entries are untouched. */
  lemma AddLineSegmentAppends(s: CompilerState, feature: PrintFeatureType, p: Point,
                              width: int, thickness: int, feedrate: int)
    requires Inv(s) && |s.buffers.points| > 0
    ensures var t := AddLineSegment(s, feature, p, width, thickness, feedrate);
      Inv(t) &&
      t.buffers.lineTypes == s.buffers.lineTypes + [feature] &&
      t.buffers.lineWidths == s.buffers.lineWidths + [width] &&
      t.buffers.lineThicknesses == s.buffers.lineThicknesses + [thickness] &&
      t.buffers.lineFeedrates == s.buffers.lineFeedrates + [feedrate] &&
      t.buffers.points == s.buffers.points + [p.x, p.y] &&
      t.lastPoint == p &&
      Segments(t.buffers) == Segments(s.buffers) + [Segment(feature, s.lastPoint, p, width, thickness, feedrate)] &&
      t.layerNr == s.layerNr && t.extruder == s.extruder && t.flushLog == s.flushLog
  {
    var b := s.buffers;
    var t := AddLineSegment(s, feature, p, width, thickness, feedrate);
    var b' := t.buffers;
    var n := SegmentCount(b);
    assert WellFormed(b');
    PointsOfAppend(b.points, p);
    EndPointIsLastPoint(b);
    var pts, pts' := PointsOf(b.points), PointsOf(b'.points);
    assert pts' == pts + [p];
    var expected := Segments(b) + [Segment(feature, s.lastPoint, p, width, thickness, feedrate)];
    forall i | 0 <= i < n + 1
      ensures Segments(b')[i] == expected[i]
    {
      if i == n {
        assert pts'[n] == s.lastPoint;
      }
    }
  }

  /** handleInitialPoint, all three branches. */
  lemma HandleInitialPointCases(s: CompilerState, from: Point)
    requires Inv(s)
    ensures var t := HandleInitialPoint(s, from);
      Inv(t) && t.lastPoint == from &&
      t.layerNr == s.layerNr && t.extruder == s.extruder && t.flushLog == s.flushLog
    ensures |s.buffers.points| == 0 ==>
      var t := HandleInitialPoint(s, from);
      t.buffers == s.buffers.(points := [from.x, from.y]) && Segments(t.buffers) == []
    ensures |s.buffers.points| > 0 && from == s.lastPoint ==> HandleInitialPoint(s, from) == s
    ensures |s.buffers.points| > 0 && from != s.lastPoint ==>
      Segments(HandleInitialPoint(s, from).buffers) ==
        Segments(s.buffers) + [Segment(NoneType, s.lastPoint, from, 1, 0, 0)]
  {
    if |s.buffers.points| > 0 && from != s.lastPoint {
      AddLineSegmentAppends(s, NoneType, from, 1, 0, 0);
    }
  }

  /** Teardown flushes exactly when a segment is buffered; a lone starting
      point is kept back, and it carries no segment. */
  lemma TeardownFlushesSegments(s: CompilerState)
    requires Inv(s)
    ensures var t := Teardown(s);
      Inv(t) && Segments(t.buffers) == [] &&
      t.flushLog == if SegmentCount(s.buffers) > 0
                    then s.flushLog + [Snapshot(s.layerNr, s.extruder, s.buffers)]
                    else s.flushLog
  {
  }

  /** Consecutive segments share their end points: the buffers describe one
      continuous path. */
  lemma SegmentsContiguous(b: Buffers, i: nat)
    requires WellFormed(b) && i + 1 < SegmentCount(b)
    ensures Segments(b)[i].to == Segments(b)[i + 1].from
  {
  }

  // ---------------------------------------------------------------------
  // Sequences of calls

  /** The calls a producer makes: context switches, a direct flush, pen moves,
      and a line from `from` to `to` (handleInitialPoint(from) followed by
      addLineSegment(to), the two primitives every line addition is built on). */
  datatype Call =
    | SetLayerCall(layerNr: int)
    | SetExtruderCall(extruder: int)
    | FlushCall
    | MoveTo(position: Point)
    | Line(feature: PrintFeatureType, from: Point, to: Point, width: int, thickness: int, feedrate: int)

  function Step(s: CompilerState, c: Call): (t: CompilerState) {
    match c
    case SetLayerCall(n) => SetLayer(s, n)
    case SetExtruderCall(e) => SetExtruder(s, e)
    case FlushCall => Flush(s)
    case MoveTo(p) => HandleInitialPoint(s, p)
    case Line(f, from, to, w, th, fr) => AddLineSegment(HandleInitialPoint(s, from), f, to, w, th, fr)
  }

  function Run(s: CompilerState, calls: seq<Call>): (t: CompilerState)
    decreases |calls|
  {
    if calls == [] then s else Run(Step(s, calls[0]), calls[1..])
  }

  /** All segments ever produced: those already flushed, in flush order,
      followed by those still buffered. */
  function Flattened(log: seq<Snapshot>): (segs: seq<Segment>)
    requires forall snap :: snap in log ==> WellFormed(snap.buffers)
  {
    if log == [] then [] else Flattened(log[..|log| - 1]) + Segments(log[|log| - 1].buffers)
  }

  function AllSegments(s: CompilerState): (segs: seq<Segment>)
    requires Inv(s)
  {
    Flattened(s.flushLog) + Segments(s.buffers)
  }

  lemma FlattenedAppend(log: seq<Snapshot>, snap: Snapshot)
    requires forall x :: x in log ==> WellFormed(x.buffers)
    requires WellFormed(snap.buffers)
    ensures Flattened(log + [snap]) == Flattened(log) + Segments(snap.buffers)
  {
    assert (log + [snap])[..|log|] == log;
  }

  /** Flushing loses no segment: it only moves the buffered ones into the log. */
  lemma FlushKeepsSegments(s: CompilerState)
    requires Inv(s)
    ensures Inv(Flush(s)) && AllSegments(Flush(s)) == AllSegments(s)
  {
    FlattenedAppend(s.flushLog, Snapshot(s.layerNr, s.extruder, s.buffers));
  }

  /** One call keeps the invariant and only ever extends the produced path. */
  lemma StepExtends(s: CompilerState, c: Call)
    requires Inv(s)
    ensures Inv(Step(s, c))
    ensures s.flushLog <= Step(s, c).flushLog
    ensures AllSegments(s) <= AllSegments(Step(s, c))
  {
    match c
    case SetLayerCall(n) =>
      if s.layerNr != n { FlushKeepsSegments(s); }
    case SetExtruderCall(e) =>
      if s.extruder != e { FlushKeepsSegments(s); }
    case FlushCall =>
      FlushKeepsSegments(s);
    case MoveTo(p) =>
      HandleInitialPointCases(s, p);
    case Line(f, from, to, w, th, fr) =>
      HandleInitialPointCases(s, from);
      var t := HandleInitialPoint(s, from);
      AddLineSegmentAppends(t, f, to, w, th, fr);
  }

  /** Any sequence of calls keeps the invariant, never rewrites the flush log
      and never drops a segment that was already produced. */
  lemma {:induction false} RunExtends(s: CompilerState, calls: seq<Call>)
    requires Inv(s)
    ensures Inv(Run(s, calls))
    ensures s.flushLog <= Run(s, calls).flushLog
    ensures AllSegments(s) <= AllSegments(Run(s, calls))
    decreases |calls|
  {
    if calls != [] {
      StepExtends(s, calls[0]);
      RunExtends(Step(s, calls[0]), calls[1..]);
    }
  }

  /** Without a context call there is no flush and the context stays put. */
  lemma {:induction false} RunWithoutContextCallsNeverFlushes(s: CompilerState, calls: seq<Call>)
    requires forall c :: c in calls ==> c.MoveTo? || c.Line?
    ensures Run(s, calls).flushLog == s.flushLog
    ensures Run(s, calls).layerNr == s.layerNr && Run(s, calls).extruder == s.extruder
    decreases |calls|
  {
    if calls != [] {
      assert calls[0] in calls;
      assert forall c :: c in calls[1..] ==> c in calls;
      RunWithoutContextCallsNeverFlushes(Step(s, calls[0]), calls[1..]);
    }
  }

  /** A travel between two printed lines is recorded as a NoneType segment:
      move to (0,0), a line to (10,0), a move to (10,10), a line to (20,10). */
  lemma TwoLinesWithTravel(wall: PrintFeatureType, skin: PrintFeatureType)
    ensures var s := Run(Initial, [
        MoveTo(Point(0, 0)),
        Line(wall, Point(0, 0), Point(10, 0), 4, 2, 50),
        MoveTo(Point(10, 10)),
        Line(skin, Point(10, 10), Point(20, 10), 3, 1, 60)]);
      s.buffers.points == [0, 0, 10, 0, 10, 10, 20, 10] &&
      s.buffers.lineTypes == [wall, NoneType, skin] &&
      s.buffers.lineWidths == [4, 1, 3] &&
      s.buffers.lineThicknesses == [2, 0, 1] &&
      s.buffers.lineFeedrates == [50, 0, 60] &&
      s.lastPoint == Point(20, 10) && s.flushLog == []
  {
    var s0 := Initial;
    var s1 := Step(s0, MoveTo(Point(0, 0)));
    var s2 := Step(s1, Line(wall, Point(0, 0), Point(10, 0), 4, 2, 50));
    var s3 := Step(s2, MoveTo(Point(10, 10)));
    var s4 := Step(s3, Line(skin, Point(10, 10), Point(20, 10), 3, 1, 60));
    assert s1.buffers.points == [0, 0];
    assert s2.buffers.points == [0, 0, 10, 0];
    assert s3.buffers.points == [0, 0, 10, 0, 10, 10];
    assert s4.buffers.points == [0, 0, 10, 0, 10, 10, 20, 10];
    var calls := [
        MoveTo(Point(0, 0)),
        Line(wall, Point(0, 0), Point(10, 0), 4, 2, 50),
        MoveTo(Point(10, 10)),
        Line(skin, Point(10, 10), Point(20, 10), 3, 1, 60)];
    assert Run(s0, calls) == Run(s1, calls[1..]);
    assert Run(s1, calls[1..]) == Run(s2, calls[2..]);
    assert Run(s2, calls[2..]) == Run(s3, calls[3..]);
    assert Run(s3, calls[3..]) == Run(s4, []);
  }
}
