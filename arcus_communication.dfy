/** The Arcus communication bridge: its private data, the path compiler that
    buffers line segments per (layer, extruder) context, and the
    communication object that owns both. Each mutating method of the path
    compiler is proved to perform the matching transition of PathModel. */
module Arcus {
  import opened PathModel

  /** Private data of the communication object. The socket, the g-code
      buffers and the two stores of sliced layers are not part of this model. */
  class Private {
    var objectCount: nat
    var lastSentProgress: int

    constructor ()
      ensures objectCount == 0 && lastSentProgress == -1
    {
      objectCount := 0;
      lastSentProgress := -1;
    }
  }

  class PathCompiler {
    /** The private data that flushed segments are handed to. */
    const csPrivateData: Private
    var layerNr: int
    var extruder: int

    var lineTypes: seq<PrintFeatureType>
    var lineWidths: seq<int>
    var lineThicknesses: seq<int>
    var lineFeedrates: seq<int>
    var points: seq<int>

    var lastPoint: Point

    /** Every flush hands one snapshot over; this records them in order. */
    ghost var flushLog: seq<Snapshot>

    ghost function Buffered(): (b: Buffers)
      reads this
    {
      Buffers(lineTypes, lineWidths, lineThicknesses, lineFeedrates, points)
    }

    ghost function State(): (s: CompilerState)
      reads this
    {
      CompilerState(layerNr, extruder, Buffered(), lastPoint, flushLog)
    }

    ghost predicate Valid()
      reads this
    {
      Inv(State())
    }

    constructor (csPrivateData: Private)
      ensures Valid() && State() == Initial && this.csPrivateData == csPrivateData
    {
      this.csPrivateData := csPrivateData;
      layerNr := 0;
      extruder := 0;
      lineTypes, lineWidths, lineThicknesses, lineFeedrates, points := [], [], [], [], [];
      lastPoint := Point(0, 0);
      flushLog := [];
    }

    /** The destructor: flush only when a segment is buffered. */
    method Destroy()
      requires Valid()
      modifies this
      ensures Valid() && State() == Teardown(old(State()))
    {
      if |lineTypes| > 0 {
        FlushPathSegments();
      }
    }

    method SetLayer(newLayerNr: int)
      requires Valid()
      modifies this
      ensures Valid() && State() == PathModel.SetLayer(old(State()), newLayerNr)
    {
      if layerNr != newLayerNr {
        FlushPathSegments();
        layerNr := newLayerNr;
      }
      SetLayerFlushesOnChange(old(State()), newLayerNr);
    }

    function GetLayer(): (r: int)
      reads this
      ensures r == State().layerNr
    {
      layerNr
    }

    method SetExtruder(newExtruder: int)
      requires Valid()
      modifies this
      ensures Valid() && State() == PathModel.SetExtruder(old(State()), newExtruder)
    {
      if extruder != newExtruder {
        FlushPathSegments();
        extruder := newExtruder;
      }
      SetExtruderFlushesOnChange(old(State()), newExtruder);
    }

    method HandleInitialPoint(from: Point)
      requires Valid()
      modifies this
      ensures Valid() && State() == PathModel.HandleInitialPoint(old(State()), from)
    {
      if |points| == 0 {
        AddPoint2D(from);
      } else if from != lastPoint {
        AddLineSegment(NoneType, from, 1, 0, 0);
      }
      HandleInitialPointCases(old(State()), from);
    }

    /** Hands the buffered segments over, tagged with the current context, and
        empties the buffers. */
    method FlushPathSegments()
      requires Valid()
      modifies this
      ensures Valid() && State() == Flush(old(State()))
    {
      flushLog := flushLog + [Snapshot(layerNr, extruder, Buffered())];
      lineTypes, lineWidths, lineThicknesses, lineFeedrates, points := [], [], [], [], [];
      FlushLogsOnce(old(State()));
    }

    method SetCurrentPosition(position: Point)
      requires Valid()
      modifies this
      ensures Valid() && State() == PathModel.HandleInitialPoint(old(State()), position)
    {
      HandleInitialPoint(position);
    }

    /** Appends one point and moves the pen there; on its own it may leave the
        buffers momentarily out of shape (addLineSegment restores them). */
    method AddPoint2D(point: Point)
      modifies this
      ensures State() == PathModel.AddPoint2D(old(State()), point)
    {
      points := points + [point.x, point.y];
      lastPoint := point;
    }

    method AddLineSegment(feature: PrintFeatureType, point: Point, lineWidth: int, lineThickness: int, lineFeedrate: int)
      requires Valid() && |points| > 0
      modifies this
      ensures Valid() && State() == PathModel.AddLineSegment(old(State()), feature, point, lineWidth, lineThickness, lineFeedrate)
    {
      AddPoint2D(point);
      lineTypes := lineTypes + [feature];
      lineWidths := lineWidths + [lineWidth];
      lineThicknesses := lineThicknesses + [lineThickness];
      lineFeedrates := lineFeedrates + [lineFeedrate];
      AddLineSegmentAppends(old(State()), feature, point, lineWidth, lineThickness, lineFeedrate);
    }
  }

  /** The communication object; `S` stands for the queued slice type, which is
      not part of this model. */
  class ArcusCommunication<S> {
    const privateData: Private
    const pathCompiler: PathCompiler
    var toSlice: seq<S>

    constructor ()
      ensures fresh(privateData) && fresh(pathCompiler)
      ensures privateData.objectCount == 0 && privateData.lastSentProgress == -1
      ensures pathCompiler.Valid() && pathCompiler.State() == Initial
      ensures pathCompiler.csPrivateData == privateData
      ensures toSlice == []
    {
      var p := new Private();
      privateData := p;
      pathCompiler := new PathCompiler(p);
      toSlice := [];
    }

    function HasSlice(): (r: bool)
      reads this
      ensures r <==> |toSlice| > 0
    {
      toSlice != []
    }
  }
}
