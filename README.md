# CuraEngine communication bridge and texture material, in Dafny

This project models two parts of CuraEngine, the 3D-printing slicer.

- The **path compiler** of the Arcus communication bridge. The slicer calls it "move to" and "line to" while it emits each layer's toolpaths. It buffers the path compactly: four parallel per-segment vectors (feature type, width, thickness, feedrate) and one flat vector of 2D point coordinates. It tracks the pen position (`last_point`). The buffer is scoped to one (layer, extruder) context. Switching either value hands the buffer over ("flush") first; setting the same value does nothing. The destructor flushes only if at least one segment is buffered.
- The **integer part of `Material`**: a width × height × depth byte image addressed as `(y*width + x)*depth + z` in 32-bit unsigned arithmetic, with a clamp from scaled texture coordinates to pixel indices.

Files:

- `path_model.dfy` (module `PathModel`): the compiler's state as a value (`CompilerState`) and each operation as a transition function. It holds the buffer invariant `Inv`, a segment view of the buffers (`Segments`), and lemmas about single transitions and about whole call sequences (`Run`). The call-sequence lemmas show that the invariant is kept, that the flush log is never rewritten, and that no produced segment is lost.
- `arcus_communication.dfy` (module `Arcus`): the classes `Private`, `PathCompiler` and `ArcusCommunication`. Their fields are updated in place. Each mutating method of `PathCompiler` is proved to perform exactly the matching `PathModel` transition. All of them except the private `AddPoint2D` also require and keep `Valid()`: `AddPoint2D` is called half-way through `AddLineSegment`, where the buffers are momentarily out of shape.
- `material.dfy` (module `Materials`): the class `Material` over an `array?<byte>`. `unsigned int` is the subset type `u32`, and the wrap-around of the offset is written out explicitly.

Modelling choices:

- Coordinates, widths and thicknesses stay in the engine's integer micro-units. The conversion to millimetres is not modelled.
- The body of `flushPathSegments` is not in ArcusCommunication.cpp, which only declares it (line 150). Its doc comment says only that it "transfers the currently buffered line segments". The model assumes an opaque handover: it appends `Snapshot(layer, extruder, buffers)` to a ghost flush log and empties all five buffers, including a lone start point that has no segment. The model also assumes the pen position (`last_point`) is left where it is.
- A line in a call sequence (`PathModel.Call.Line`) is `handleInitialPoint(from)` followed by `addLineSegment(to)`. These are the two primitives every line addition in the compiler is built on (ArcusCommunication.cpp:129-133, 179-181). A call sequence may also contain a direct flush (`PathModel.Call.FlushCall`), besides layer and extruder changes and moves.
- `getPixelCoords` receives the truncated products `(unsigned int)(x_in * width)` as `u32` values. The float multiply happens before the model starts.

Behaviour worth noting:

- The travel segment that `handleInitialPoint` inserts has width 1, thickness 0 and feedrate 0 (ArcusCommunication.cpp:142).
- The buffers may hold no point at all (N = 0). Otherwise they hold exactly N + 1 points (ArcusCommunication.cpp:68-72).
- The destructor tests only `line_types` (ArcusCommunication.cpp:93). A lone starting point with no segment is not flushed.
- `setLayer`/`setExtruder` call the flush on every change, whether or not anything is buffered (ArcusCommunication.cpp:104-106, 122-124).

## Model

| member | source | states |
|---|---|---|
| `PathModel.InitialState` | src/communication/ArcusCommunication.cpp:79-90 | The initial state is layer 0, extruder 0, empty buffers, pen at (0,0), and nothing flushed. It satisfies the buffer invariant. |
| `PathModel.PointsOfAppend` | src/communication/ArcusCommunication.cpp:172-177 | Pushing x and y onto the flat coordinate vector appends exactly that one point to the point sequence it encodes. |
| `PathModel.FlushLogsOnce` | src/communication/ArcusCommunication.cpp:146-150 | A flush hands over exactly one snapshot, taken under the current layer and extruder. It keeps the context and the pen, leaves no segment buffered, and keeps the invariant. |
| `PathModel.SetLayerFlushesOnChange` | src/communication/ArcusCommunication.cpp:102-109 | The same layer number changes nothing, with no flush. A different one logs exactly one flush under the OLD layer number, then sets the new number. The extruder and pen are unchanged and the invariant is kept. |
| `PathModel.SetExtruderFlushesOnChange` | src/communication/ArcusCommunication.cpp:120-127 | The same rule keyed on the extruder: no-op when unchanged; otherwise one flush under the old extruder, then the switch. |
| `PathModel.AddLineSegmentAppends` | src/communication/ArcusCommunication.cpp:182-189 | On a started path, each of the four attribute vectors gets exactly one new entry and the point vector gets exactly one new point. The pen moves to the new point and earlier entries stay unchanged. The segment view grows by exactly the segment from the old pen to the new point. |
| `PathModel.HandleInitialPointCases` | src/communication/ArcusCommunication.cpp:134-144 | On an empty buffer it adds exactly one point and no segment. At the pen it changes nothing. Elsewhere it appends exactly one NoneType segment (width 1, thickness 0, feedrate 0) ending at `from`. In every case the pen ends at `from` and the invariant is kept. |
| `PathModel.TeardownFlushesSegments` | src/communication/ArcusCommunication.cpp:91-97 | The destructor logs exactly one flush when a segment is buffered and none otherwise. Afterwards no segment is left buffered. |
| `PathModel.SegmentsContiguous` | src/communication/ArcusCommunication.cpp:68-72 | Under the size invariant, segment i ends where segment i+1 starts: the buffers describe one continuous path. |
| `PathModel.FlushKeepsSegments` | src/communication/ArcusCommunication.cpp:146-150 | A flush loses no segment. The flushed segments followed by the buffered ones are the same sequence before and after. |
| `PathModel.StepExtends` | src/communication/ArcusCommunication.cpp:102-189 | Any single call, a direct flush included, keeps the invariant, only appends to the flush log, and only extends the sequence of all produced segments. |
| `PathModel.RunExtends` | src/communication/ArcusCommunication.cpp:102-189 | Any sequence of calls (layer and extruder changes, direct flushes, moves and lines) keeps the invariant, never rewrites the flush log and never drops a produced segment. |
| `PathModel.RunWithoutContextCallsNeverFlushes` | src/communication/ArcusCommunication.cpp:129-189 | A sequence of moves and lines alone never flushes and never changes the layer or extruder. |
| `PathModel.TwoLinesWithTravel` | src/communication/ArcusCommunication.cpp:134-189 | Move to (0,0), line to (10,0), move to (10,10), line to (20,10): four points, types [wall, NoneType, skin], widths [4,1,3], thicknesses [2,0,1], feedrates [50,0,60], no flush. |
| `Arcus.Private.constructor` | src/communication/ArcusCommunication.cpp:25-29 | It starts with `object_count` 0 and `last_sent_progress` -1. |
| `Arcus.PathCompiler.constructor` | src/communication/ArcusCommunication.cpp:79-90 | The new compiler is in the initial state, is valid, and refers to the given private data. |
| `Arcus.PathCompiler.Destroy` | src/communication/ArcusCommunication.cpp:91-97 | It performs the teardown transition: it flushes exactly when `line_types` is non-empty. |
| `Arcus.PathCompiler.SetLayer` | src/communication/ArcusCommunication.cpp:102-109 | It performs the setLayer transition (see `PathModel.SetLayerFlushesOnChange`) and keeps `Valid()`. |
| `Arcus.PathCompiler.GetLayer` | src/communication/ArcusCommunication.cpp:113-116 | It returns the current layer number. |
| `Arcus.PathCompiler.SetExtruder` | src/communication/ArcusCommunication.cpp:120-127 | It performs the setExtruder transition and keeps `Valid()`. |
| `Arcus.PathCompiler.HandleInitialPoint` | src/communication/ArcusCommunication.cpp:134-144 | It performs the handleInitialPoint transition, with all three branches, and keeps `Valid()`. |
| `Arcus.PathCompiler.FlushPathSegments` | src/communication/ArcusCommunication.cpp:146-150 | It logs one snapshot of the current context and buffers, then empties the buffers. |
| `Arcus.PathCompiler.SetCurrentPosition` | src/communication/ArcusCommunication.cpp:155-158 | Moving the pen is exactly the handleInitialPoint transition. |
| `Arcus.PathCompiler.AddPoint2D` | src/communication/ArcusCommunication.cpp:172-177 | Two coordinates are appended to `points` and the pen moves to the point. Nothing else changes. |
| `Arcus.PathCompiler.AddLineSegment` | src/communication/ArcusCommunication.cpp:182-189 | It performs the addLineSegment transition (see `PathModel.AddLineSegmentAppends`) on a started path and keeps `Valid()`. |
| `Arcus.ArcusCommunication.constructor` | src/communication/ArcusCommunication.cpp:192-197 | Fresh private data in its initial state, and a fresh path compiler in its initial state that refers to that private data. No slice is queued. |
| `Arcus.ArcusCommunication.HasSlice` | src/communication/ArcusCommunication.cpp:199-202 | True iff a slice is queued. |
| `Materials.Material.constructor` | src/Material.cpp:15-22 | Width, height and depth are 0 and the data reference is null. |
| `Materials.Material.SetData` | src/Material.cpp:25-28 | Only `data` is replaced; the dimensions are unchanged. |
| `Materials.Material.SetDimensions` | src/Material.cpp:30-35 | Exactly the three dimensions are set; `data` is unchanged. |
| `Materials.Material.GetPixelCoords` | src/Material.cpp:74-78 | On a non-empty axis the output is `min(p, size-1)`. So it is below the size, at most the input, equal to the input iff the input is in range, and the last pixel otherwise. On an empty axis `size-1` wraps and the input passes unchanged. |
| `Materials.RowMajorBelowProduct` | src/Material.cpp:81-84 | For x < width, y < height and z < depth, `(y*width + x)*depth + z < width*height*depth`. |
| `Materials.ColorIndexInBounds` | src/Material.cpp:81-84 | The offset computed in 32-bit unsigned arithmetic is below width·height·depth whether or not it wraps. When the image has at most 2^32 bytes, it equals the row-major offset. |
| `Materials.Material.GetColorData` | src/Material.cpp:81-84 | It reads the byte at the computed offset. Inside the image of at most 2^32 bytes, that is the row-major offset. |
| `Materials.Material.GetColor` | src/Material.cpp:65-72 | Given getColor's assertion on z, a non-empty image and a buffer of width·height·depth bytes, it reads in bounds: channel z of the clamped pixel, which is the row-major texel when nothing wraps. |
| `Materials.Material.GetRed` | src/Material.cpp:37-40 | Channel 0 of the clamped pixel, read in bounds. |
| `Materials.Material.GetGreen` | src/Material.cpp:41-44 | Channel 1 of the clamped pixel, read in bounds. |
| `Materials.Material.GetBlue` | src/Material.cpp:45-48 | Channel 2 of the clamped pixel, read in bounds. |
| `Materials.Material.GetAlpha` | src/Material.cpp:49-52 | Channel 3 of the clamped pixel, read in bounds. |
| `Materials.ChannelsInBounds` | src/Material.cpp:56-60 | With depth at least 3, the offsets of channels 0, 1 and 2 of any in-image pixel are below width·height·depth. |
| `Materials.Material.GetGrey` | src/Material.cpp:54-61 | The integer numerator is red + green + blue of the clamped pixel, so at most 765, with all three reads in bounds (for depth ≥ 3). |
| `Materials.GreyReadsPastSingleChannelImage` | src/Material.cpp:54-60 | As written, getGrey's read of channel 1 in a 1×1 single-channel image is at offset 1, the size of the whole buffer. |

## Findings

| source | as written | input that shows it | evidently intended | confidence | as-written member | corrected member |
|---|---|---|---|---|---|---|
| src/Material.cpp:54-60 | `getGrey` reads channels 0, 1 and 2 of the clamped pixel and never checks the depth. `getColor` asserts `z < depth` for the same kind of read. | A 1×1 image with depth 1 and a one-byte buffer: the read of channel 1 is at offset 1, past the end of the buffer. | Require at least three channels, as `getColor`'s assertion does for one channel. | medium, not executed | `Materials.GreyReadsPastSingleChannelImage` | `Materials.Material.GetGrey` |

## Left out

- The Arcus socket, the protobuf messages, the g-code stream and the temporary g-code buffer. These are I/O and foreign-library types; `Private` keeps only `object_count` and `last_sent_progress`.
- `objects_to_slice`, `sliced_layers`, `optimized_layers`, `getLayerById` and `getOptimizedLayerById`. Their bodies are not in ArcusCommunication.cpp, and `SliceDataStruct` is not part of this model.
- Arcus.PathCompiler.FlushPathSegments: the model assumes that a flush empties all five buffers, so a lone start point with no segment is handed over and discarded, and that it leaves `last_point` unchanged. Its body is not in ArcusCommunication.cpp. If the real body returned early when `line_types` is empty, the start point would survive and the next move to another point would record a NoneType segment instead.
- What `flushPathSegments` builds from the buffers. Its body is not in ArcusCommunication.cpp, so the model records only the handover as a snapshot log entry.
- `sendLineTo` and `sendPolygon`. ArcusCommunication.cpp only declares them; the model has no line or polygon operation beyond the `handleInitialPoint`/`addLineSegment` composition.
- `data_point_type`. It is always `Point2D` here, so the point dimension D is fixed at 2.
- `INT2MM` and every float conversion: millimetre coordinates and widths, the float feedrate, the normalisation of a byte to [0, 1] in `getColor`/`getGrey`, and the float multiply in `getPixelCoords`. An out-of-range float-to-unsigned cast is not modelled either.
- Point coordinates are unbounded integers. The 64-bit range of `coord_t` is not modelled, since the compiler does no arithmetic on coordinates.
- The element type of `to_slice`. It is declared in a header that is not part of this model, so `ArcusCommunication` takes it as a type parameter.
- Progress de-duplication. Only the `last_sent_progress` field and its comment exist in ArcusCommunication.cpp; it contains no comparison logic.
- Ordered layer emission, worker pools and concurrent inserts. None of this appears in ArcusCommunication.cpp.
- `Material::debugOutput`, which only prints to stderr.
- `Material`'s data pointer is a reference to a buffer the class does not own. The model keeps it as an `array?<byte>` reference and never writes through it.
- src/layerPart.h holds only declarations; the part grouping it declares relies on a polygon-clipping library that is not part of this model.
- Arcus.PathCompiler.AddLineSegment: requires a started path (at least one point). Its caller `handleInitialPoint` only calls it then, and without it the buffers would break their documented size `D*(N+1)`.
- Materials.Material.GetGrey: requires at least three channels, which `getGrey` does not check (see Findings).
