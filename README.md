# Alembic scene exporters: FBX and Maya ASCII writers, modelled in Dafny

Two exporters turn an Alembic scene into text documents.

- **The FBX exporter** (`FBXExporter`) writes an FBX 7.4 ASCII document for Unreal Engine. Its content:
  - one `Model` and one attribute record per camera, and per locator (a transform that has keyframes; transforms without keyframes are skipped, although the Definitions counts still include them);
  - one `Model` and one `Geometry` record per non-vertex-animated mesh;
  - animation curve nodes and curves for translation and rotation;
  - an animation stack;
  - a `Connections` section listing every link the writers registered.

  The FBX exporter has four pieces of state that the writers update in place:
  - the frame rate and the frame count;
  - an identifier table;
  - a counter that hands out identifiers from 1000000000;
  - a connection registry.

  Positions and rotations are converted from Y-up to Z-up ((x, y, z) becomes (x, -z, y)).
  Polygon indices are flattened with the last index of each polygon stored as `-idx - 1`.
  Vertex-animated meshes are skipped and reported.
- **The Maya exporter** (`MayaMAExporter`) writes a Maya ASCII (`.ma`) scene. Its content:
  - header, requirements, units and file information;
  - a transform node and a camera shape per camera, with `animCurve` nodes for each transform channel that varies;
  - per mesh, either embedded geometry (vertices, face counts, face indices), or an `AlembicNode` reference when the mesh is vertex-animated.

  A vertex-animated mesh makes the document require the `AbcImport` plug-in.
  It also adds a warning to the result message.

**Shared parts.** Both exporters sanitise object names the same way, and that routine is defined once (`Naming`).
Floats are `real`. How the host prints and rounds them (`:.6f`, `str`, `round(v, 4)`, `round(v, 6)`) is a parameter, `Basics.FloatFormat`.

**FBX modules.**
- `FbxSession` models the exporter's state as a value, with its invariant: distinct names get distinct identifiers, and every link joins allocated objects.
- `FbxWriters`, `FbxCurves` and `FbxPolygons` describe the records each writer emits.
- `FbxExport.FbxExporter` is the class itself. Each of its methods is proved to return the lines, and to leave the fields, that those functions compute from the fields it started with.

**Maya modules.**
- `MayaNodes`, `MayaAnimation` and `MayaDocument` describe the Maya document.
- `MayaExport.MayaMAExporter` is the class. Its loop methods are proved equal to those descriptions.

**Failures.** Both exporters turn an exception into a failure result.
- The FBX exporter fails for a zero frame rate and for an embedded mesh whose polygon loop runs off its index list.
- The Maya exporter fails for a zero frame rate whenever a camera or an embedded mesh must be sampled. The division `1.0 / fps` raises there.

Both failure paths are modelled (`Outcome`, `MayaOutcome`, `Option`).

## Model

| member | source | states |
|---|---|---|
| Naming.ReplaceInvalid | exporters/fbx_exporter.py:677 | definition of the `re.sub` step; see SanitizeNameShape, SanitizeNameFixpoint |
| Naming.SanitizeName | exporters/maya_ma_exporter.py:430-437 | the result is always a valid name: non-empty, word characters only, no leading digit |
| Naming.SanitizeNameShape | exporters/fbx_exporter.py:675-680 | character by character: every character outside `[A-Za-z0-9_]` becomes `_`; a leading digit gains the `obj_` prefix; the empty name becomes `unnamed` |
| Naming.SanitizeNameFixpoint | exporters/fbx_exporter.py:675-680 | a name is left unchanged exactly when it is already valid |
| Naming.SanitizeNameIdempotent | exporters/maya_ma_exporter.py:430-437 | sanitising twice equals sanitising once |
| Naming.SanitizeNameExample | exporters/maya_ma_exporter.py:430-437 | `"3Cam A"` becomes `"obj_3Cam_A"` |
| MelString.Replace | exporters/maya_ma_exporter.py:445-446 | definition of one-character `str.replace`; see MelEscapeCorrect, UnescapeQuoteEscaping |
| MelString.MelEscape | exporters/maya_ma_exporter.py:439-442 | `None` escapes to the empty string |
| MelString.MelEscapeCorrect | exporters/maya_ma_exporter.py:439-447 | in the escaped text a backslash occurs only right before a quote, and every quote is preceded by a backslash; dropping the escapes gives the input with every `\` replaced by `/` |
| MelString.UnescapeQuoteEscaping | exporters/maya_ma_exporter.py:446 | escaping quotes in backslash-free text can be undone |
| MelString.QuoteEscapingWellEscaped | exporters/maya_ma_exporter.py:446 | escaping quotes in backslash-free text leaves only escaping backslashes |
| ZUp.PositionToZUp | exporters/fbx_exporter.py:169-173 | definition: `(x, y, z)` becomes `(x, -z, y)`; see PositionRoundTrip, PositionFourfoldIdentity, PositionToZUpIsRotation, ConversionExample |
| ZUp.RotationToZUp | exporters/fbx_exporter.py:175-181 | definition: `(rx, ry, rz)` becomes `(rx, -rz, ry)`; see PositionFourfoldIdentity, ConversionExample |
| ZUp.PositionRoundTrip | exporters/fbx_exporter.py:169-173 | the Y-up to Z-up conversion has an inverse, in both orders |
| ZUp.PositionFourfoldIdentity | exporters/fbx_exporter.py:169-181 | applying either conversion four times is the identity |
| ZUp.PositionToZUpIsRotation | exporters/fbx_exporter.py:169-173 | the position conversion preserves dot products, hence lengths and angles |
| ZUp.ConversionExample | exporters/fbx_exporter.py:169-181 | `(1, 2, 3)` becomes `(1, -3, 2)`, for positions and for rotations |
| Channels.IsAnimated | exporters/fbx_exporter.py:517-518 | definition of `is_animated` and `is_varying`: more than one distinct rounded value; see AnimatedIffTwoKeys, ShortChannelNotAnimated, ConstantChannelNotAnimated |
| Channels.AnimatedIffTwoKeys | exporters/fbx_exporter.py:517-518 | more than one distinct rounded value holds exactly when two samples round differently |
| Channels.ShortChannelNotAnimated | exporters/maya_ma_exporter.py:402-403 | fewer than two samples never vary |
| Channels.ConstantChannelNotAnimated | exporters/maya_ma_exporter.py:402-403 | a channel with one repeated value never varies |
| Text.Terminate | exporters/maya_ma_exporter.py:205 | definition of `lines[-1] += ';'`; see TerminateShape |
| Text.BaseName | exporters/maya_ma_exporter.py:56 | `Path.name`: the result holds no separator and ends the path |
| Text.BaseNameAfterSeparator | exporters/fbx_exporter.py:69 | the name of `dir/name.ext` is `name.ext` |
| Text.BaseNamePlain | exporters/fbx_exporter.py:147 | a file name without a directory part is its own name |
| Text.BaseNameSuffix | exporters/maya_ma_exporter.py:89 | the name after a trailing separator is the rest of the path |
| Text.TerminateShape | exporters/maya_ma_exporter.py:205 | `lines[-1] += ';'` keeps the length and every line but the last, which alone gains `;` |
| FbxSession.Fresh | exporters/fbx_exporter.py:61-63 | definition of the reset state; see FreshValid, FirstIdentifier |
| FbxSession.GetId | exporters/fbx_exporter.py:36-41 | a known name keeps its identifier and leaves the state unchanged; an unknown name gets `nextId`, which grows by one; nothing already allocated changes |
| FbxSession.Connect | exporters/fbx_exporter.py:354-356 | exactly the link `(child, parent, property)` is appended to the registry; the counter and the id table are unchanged |
| FbxSession.FreshValid | exporters/fbx_exporter.py:61-63 | the reset state satisfies the session invariant |
| FbxSession.FirstIdentifier | exporters/fbx_exporter.py:32 | the first identifier of a session is 1000000000; no allocated identifier is the root's 0 |
| FbxSession.GetIdValid | exporters/fbx_exporter.py:36-41 | allocation keeps the invariant: identifiers are distinct and counted by `nextId` |
| FbxSession.ConnectValid | exporters/fbx_exporter.py:354-356 | a link between allocated objects, or to the root, keeps the invariant |
| FbxSession.IdentifiersStable | exporters/fbx_exporter.py:36-41 | a name gets the same identifier every time, whatever is allocated in between; distinct names get distinct identifiers (both directions) |
| FbxPolygons.FlattenPositions | exporters/fbx_exporter.py:390-392 | definition of `pos_array`; see FlattenPositionsAt and the FlattenLoop method |
| FbxPolygons.PolygonBody | exporters/fbx_exporter.py:398-399 | definition of the inner loop; see PolygonBodySpec, BodyFailure and the PolygonBodyLoop method |
| FbxPolygons.Polygon | exporters/fbx_exporter.py:398-401 | definition of one polygon; see PolygonSpec |
| FbxPolygons.PolygonVertexIndex | exporters/fbx_exporter.py:394-402 | definition of `poly_indices`; see PolygonVertexIndexSpec, PolygonVertexIndexRoundTrip, PrefixFailure, TriangleExample and the PolygonLoop method |
| FbxPolygons.PyIndex | exporters/fbx_exporter.py:399-401 | Python indexing: an in-range index gives the element; a negative index from `-len` to `-1` counts from the end (reached at line 401 when `count <= 0`); any other index raises (`None`) |
| FbxPolygons.FlattenPositionsAt | exporters/fbx_exporter.py:390-392 | `pos_array` holds three reals per position, at `3i`, `3i+1` and `3i+2` |
| FbxPolygons.PolygonBodySpec | exporters/fbx_exporter.py:398-399 | the inner loop succeeds exactly when the indices it reads exist, and then copies them in order |
| FbxPolygons.PolygonSpec | exporters/fbx_exporter.py:397-402 | one polygon: its first `count - 1` indices, then `-idx - 1` of the last; it fails exactly when the index list is too short |
| FbxPolygons.PolygonVertexIndexSpec | exporters/fbx_exporter.py:394-402 | with positive counts, the flattening fails exactly when `sum(counts)` exceeds the index list; otherwise it has `sum(counts)` entries, each copied except those closing a polygon, which hold `-idx - 1` |
| FbxPolygons.PolygonVertexIndexRoundTrip | exporters/fbx_exporter.py:394-402 | for non-negative indices: exactly the polygon-closing entries are negative; decoding gives back the indices, and the markers give back the counts |
| FbxPolygons.RecoverCountsOfFlattening | exporters/fbx_exporter.py:394-402 | the negative markers give back the polygon counts |
| FbxPolygons.FlatteningEndsNegative | exporters/fbx_exporter.py:401 | a non-empty flattening ends on a negative entry |
| FbxPolygons.PrefixFailure | exporters/fbx_exporter.py:397-402 | once an earlier polygon raises, the whole loop raises |
| FbxPolygons.BodyFailure | exporters/fbx_exporter.py:398-399 | once an index of a polygon is missing, every longer body fails too |
| FbxPolygons.TriangleExample | exporters/fbx_exporter.py:394-402 | the triangle `[3, 1, 4]` is stored as `[3, 1, -5]` |
| FbxScene.DisplayName | exporters/fbx_exporter.py:98 | definition: the parent name when it is non-empty, else the name |
| FbxScene.CameraName | exporters/fbx_exporter.py:98-99 | definition of `cam_name`; see CameraRecordLinks |
| FbxScene.MeshName | exporters/fbx_exporter.py:106-107 | definition of `mesh_name`; see VertexAnimatedNamesOrder, VertexAnimatedNamesFrom, MeshRecordLinks |
| FbxScene.EmbeddableMeshes | exporters/fbx_exporter.py:88-89 | a mesh is embedded exactly when it is not vertex-animated |
| FbxScene.VertexAnimatedNames | exporters/fbx_exporter.py:104-112 | skipped and embedded meshes together are all the meshes |
| FbxScene.EmbeddableMeshesOrder | exporters/fbx_exporter.py:104-115 | the embedded meshes keep scene order: an embeddable mesh sits at the position counting the embeddable meshes before it |
| FbxScene.VertexAnimatedNamesOrder | exporters/fbx_exporter.py:104-112 | the skipped names keep scene order: a vertex-animated mesh's name sits at the position counting the vertex-animated meshes before it |
| FbxScene.VertexAnimatedNamesFrom | exporters/fbx_exporter.py:104-112 | every skipped name is the name of a vertex-animated mesh |
| FbxCurves.KTime | exporters/fbx_exporter.py:515-521 | definition of one key time, on exact reals; see KTimeMonotone, KTimeWholeSeconds and its Left out line |
| FbxCurves.Groups | exporters/fbx_exporter.py:523-542 | definition of the `channels` table; see PropertyCountsOfGroups, AxisValues |
| FbxCurves.AxisAnimated | exporters/fbx_exporter.py:517-518 | definition of `is_animated(vals)`; see AnimatedIffTwoKeys, GroupAnimatedIffAxisCount |
| FbxCurves.GroupAnimated | exporters/fbx_exporter.py:546 | definition of the `any(...)` test; see GroupAnimatedIffAxisCount |
| FbxCurves.NodeKey | exporters/fbx_exporter.py:550 | definition of the `AnimCurveNode::<obj>_<prefix>` key; see GroupCurveWiring |
| FbxCurves.CurveKey | exporters/fbx_exporter.py:573 | definition of the `AnimCurve::<obj>_<prefix>_<axis>` key; see AxisCurvesLinks |
| FbxCurves.CurveNodeLines | exporters/fbx_exporter.py:552-562 | definition of the seven curve-node lines; see GroupCurveShape |
| FbxCurves.CurveLines | exporters/fbx_exporter.py:576-605 | definition of the nineteen curve lines; see CurveArraysConsistent, AxisCurvesShape |
| FbxCurves.AxisCurves | exporters/fbx_exporter.py:569-608 | definition of the axis loop; see AxisCurvesShape, AxisCurvesLinks, AxisCurvesExtends, AxisCurvesValid and the AddAxisCurves method |
| FbxCurves.GroupCurve | exporters/fbx_exporter.py:544-608 | definition of one group iteration; see GroupCurveShape, GroupCurveWiring, GroupCurveWired and the AddGroupCurve method |
| FbxCurves.GroupCurves | exporters/fbx_exporter.py:544-608 | definition of the group loop; see GroupCurvesShape, GroupCurvesWiring, GroupCurvesValid |
| FbxCurves.AnimationCurves | exporters/fbx_exporter.py:506-608 | definition of `_add_animation_curves`; see TooFewKeyframes, AnimationCurvesShape, AnimationCurvesWiring, AnimationCurvesValid and the AddAnimationCurves method |
| FbxCurves.Trunc | exporters/fbx_exporter.py:521 | `int(x)` truncates toward zero, on both signs |
| FbxCurves.KeyTimes | exporters/fbx_exporter.py:521 | one time per keyframe |
| FbxCurves.AxisValues | exporters/fbx_exporter.py:524-533 | one converted component per keyframe |
| FbxCurves.KTimeMonotone | exporters/fbx_exporter.py:514-521 | for a positive frame rate, the truncated times keep the frame order |
| FbxCurves.KTimeWholeSeconds | exporters/fbx_exporter.py:514-521 | on exact reals, frame `n * fps` is exactly `n * 46186158000`; the program's floats can fall one unit short |
| FbxCurves.CurveArraysConsistent | exporters/fbx_exporter.py:573-606 | every array of a curve declares `*N` equal to the number of entries it lists; the tangent data has four per key |
| FbxCurves.GroupAnimatedIffAxisCount | exporters/fbx_exporter.py:546 | a group is animated exactly when some axis is |
| FbxCurves.AxisCurvesShape | exporters/fbx_exporter.py:569-608 | counts: the axis loop emits 19 lines and one `d\|`-prefixed link into the curve node per animated axis, and nothing for static axes |
| FbxCurves.AxisCurvesLinks | exporters/fbx_exporter.py:569-608 | the axis loop's new links are exactly, in axis order, one `(curve_id, curve_node_id, "d\|<axis>")` per animated axis, where `curve_id` is the id of `AnimCurve::<obj>_<prefix>_<axis>`, which stays in the table |
| FbxCurves.AnimatedAxisNameAt | exporters/fbx_exporter.py:569-571 | every letter the axis loop links is the name of an animated axis |
| FbxCurves.GroupCurveShape | exporters/fbx_exporter.py:544-608 | counts: a group emits nothing unless an axis is animated; otherwise 7 node lines plus 19 per animated axis, one property-less link, one link with the group's property, and one `d\|` link per animated axis |
| FbxCurves.GroupCurvesShape | exporters/fbx_exporter.py:544-608 | counts over all groups: 7 lines per animated group and 19 per curve; one property-less link and one link with each group's property per animated group; one `d\|` link per curve |
| FbxCurves.AnimationCurvesShape | exporters/fbx_exporter.py:506-608 | counts: curve nodes only for translation and rotation, each exactly when one of its axes varies; never for scale; one curve and one `d\|` link per animated axis |
| FbxCurves.GroupCurveWiring | exporters/fbx_exporter.py:549-608 | a static group adds no link; an animated one adds first `(node, layer, None)`, then `(node, model, prop_name)` for the `AnimCurveNode::<obj>_<prefix>` id, then, in axis order, one `(AnimCurve::<obj>_<prefix>_<axis> id, node, "d\|<axis>")` per animated axis; the node and curve ids stay in the table |
| FbxCurves.GroupCurveWired | exporters/fbx_exporter.py:549-608 | each link of a group goes from its curve node to the layer (no property) or to the model (a property), or, under `d\|<axis>`, from the `AnimCurve::<obj>_<prefix>_<axis>` id of one of its axes into its curve node |
| FbxCurves.GroupCurvesWiring | exporters/fbx_exporter.py:544-608 | over all groups, every new link is wired that way to some group's curve node, the layer and the model, and no identifier is lost |
| FbxCurves.AxisCurvesExtends | exporters/fbx_exporter.py:569-608 | the axis loop loses no identifier and no earlier connection |
| FbxCurves.AnimationCurvesWiring | exporters/fbx_exporter.py:506-608 | with two or more keyframes, property-less links go to the `AnimationLayer::BaseLayer` id, property links to the `Model::<obj>` id, each from one of the object's curve nodes, and every `d\|<axis>` link goes from the `AnimCurve::<obj>_<prefix>_<axis>` id of one of its groups' axes into that group's curve node; with fewer, no link is added |
| FbxCurves.TooFewKeyframes | exporters/fbx_exporter.py:508-509 | fewer than two keyframes add no line and no link |
| FbxCurves.AnimationCurvesValid | exporters/fbx_exporter.py:506-608 | the curve writer keeps the session invariant and only adds to the session |
| FbxCurves.GroupCurvesValid | exporters/fbx_exporter.py:544-608 | the group loop keeps the session invariant |
| FbxCurves.AxisCurvesValid | exporters/fbx_exporter.py:569-608 | the axis loop keeps the session invariant |
| FbxCurves.PropertyCountsOfGroups | exporters/fbx_exporter.py:535-542 | the channel table has a translation group and a rotation group, and no scale group |
| FbxWriters.Fixed3 | exporters/fbx_exporter.py:344-345 | definition of three `:.6f` numbers; see the signed-zero line under Left out |
| FbxWriters.DefinitionsLines | exporters/fbx_exporter.py:270-308 | definition of `_write_definitions`; see DefinitionsTotal |
| FbxWriters.ModelLines | exporters/fbx_exporter.py:340-351 | definition of a Model record; see CameraRecordLinks, MeshRecordLinks, LocatorRecordLinks |
| FbxWriters.InitialPosition | exporters/fbx_exporter.py:318-324 | definition of the first keyframe's Z-up position, or the origin |
| FbxWriters.InitialRotation | exporters/fbx_exporter.py:318-324 | definition of the first keyframe's Z-up rotation, or zero |
| FbxWriters.InitialScale | exporters/fbx_exporter.py:371-379 | definition of the first keyframe's unconverted scale, or `(1, 1, 1)` |
| FbxWriters.LinkObject | exporters/fbx_exporter.py:354-356 | definition of the two object links; see LinkObjectValid, LinkedCurvesLinks |
| FbxWriters.CameraAttributeLines | exporters/fbx_exporter.py:329-337 | definition of the camera NodeAttribute record; see CameraRecordValid |
| FbxWriters.NullAttributeLines | exporters/fbx_exporter.py:476-480 | definition of the locator NodeAttribute record; see LocatorRecordValid |
| FbxWriters.GeometryLines | exporters/fbx_exporter.py:404-430 | definition of the Geometry record; see MeshBuffers |
| FbxWriters.CameraRecord | exporters/fbx_exporter.py:310-362 | definition of `_write_camera`; see CameraRecordValid, CameraRecordLinks and the WriteCamera method |
| FbxWriters.MeshRecord | exporters/fbx_exporter.py:363-456 | definition of `_write_mesh`; see MeshRecordNone, MeshBuffers, MeshRecordValid, MeshRecordLinks and the WriteMesh method |
| FbxWriters.MeshIds | exporters/fbx_exporter.py:367-368 | definition of what a raising `_write_mesh` leaves: its model and geometry ids; see MeshFailureStep |
| FbxWriters.LocatorRecord | exporters/fbx_exporter.py:457-505 | definition of `_write_locator`; see LocatorRecordValid, LocatorRecordLinks and the WriteLocator method |
| FbxWriters.EndTime | exporters/fbx_exporter.py:618-619 | definition of the take's end time, on exact reals (see the KTime line under Left out) |
| FbxWriters.AnimationStackRecord | exporters/fbx_exporter.py:610-635 | definition of `_write_animation_stack`; see AnimationStackValid and the WriteAnimationStack method |
| FbxWriters.ConnectionLine | exporters/fbx_exporter.py:643-649 | definition of one connection line; see ConnectionLineKind |
| FbxWriters.ConnectionLines | exporters/fbx_exporter.py:637-654 | definition of `_write_connections`; see ConnectionLinesSpec and the WriteConnections method |
| FbxWriters.CameraRecords | exporters/fbx_exporter.py:97-101 | definition of the camera loop; see CameraRecordsValid and the WriteCameras method |
| FbxWriters.MeshRecords | exporters/fbx_exporter.py:104-115 | definition of the mesh loop; see MeshRecordsStep, MeshRecordsFailure, MeshRecordsSkipVertexAnimated, MeshRecordsValid and the WriteMeshes method |
| FbxWriters.MeshFailureSession | exporters/fbx_exporter.py:104-115 | definition of where a raising mesh loop stops; see MeshFailureSessionValid, PrefixMeshFailure |
| FbxWriters.LocatorRecords | exporters/fbx_exporter.py:118-123 | definition of the locator loop, which skips transforms without keyframes; see LocatorRecordsValid and the WriteLocators method |
| FbxWriters.ErrorText | exporters/fbx_exporter.py:156-157 | definition of `str(e)` for the two exceptions; see its Left out line |
| FbxWriters.CompletionMessage | exporters/fbx_exporter.py:147-152 | definition of the success message; see CompletionMessageNote |
| FbxWriters.FailureSession | exporters/fbx_exporter.py:49-165 | definition of the fields an `export` that raises leaves behind; see the FbxExporter.Export method |
| FbxWriters.Export | exporters/fbx_exporter.py:49-165 | definition of `export`; see ExportFailure, ExportSkipped, ExportValid and the FbxExporter.Export method |
| FbxWriters.DefinitionsTotal | exporters/fbx_exporter.py:270-308 | the declared total is 4 plus two per camera, embedded mesh and transform (every transform, with or without keyframes); the model count is their sum |
| FbxWriters.ConvertedPositions | exporters/fbx_exporter.py:387 | one converted position per vertex |
| FbxWriters.MeshBuffers | exporters/fbx_exporter.py:387-410 | three reals per vertex; the polygon buffer exists exactly when the counts fit the indices, and then has `sum(counts)` entries |
| FbxWriters.MeshRecordNone | exporters/fbx_exporter.py:363-456 | `_write_mesh` fails exactly when its polygon loop does |
| FbxWriters.MeshRecordsStep | exporters/fbx_exporter.py:105-115 | the loop over the meshes fails exactly when the loop before the last mesh failed or that mesh fails |
| FbxWriters.MeshRecordsFailure | exporters/fbx_exporter.py:105-115 | the mesh loop fails exactly when some embedded mesh's polygon loop runs off its indices |
| FbxWriters.MeshRecordsSkipVertexAnimated | exporters/fbx_exporter.py:105-115 | vertex-animated meshes contribute nothing: the loop over all meshes equals the loop over the embeddable ones |
| FbxWriters.EmbeddableIdempotent | exporters/fbx_exporter.py:88-89 | filtering the embeddable meshes twice equals filtering once |
| FbxWriters.VertexAnimatedPresent | exporters/fbx_exporter.py:104-112 | the skipped list is non-empty exactly when some mesh is vertex-animated |
| FbxWriters.ConnectionLinesSpec | exporters/fbx_exporter.py:637-655 | the Connections block lists the registry in insertion order, one line per entry; an entry is `OP` exactly when its property is non-empty, otherwise `OO` |
| FbxWriters.ConnectionLineKind | exporters/fbx_exporter.py:643-650 | a line is `OP` exactly when the property is truthy, `OO` exactly when it is not |
| FbxWriters.CompletionMessageNote | exporters/fbx_exporter.py:147-152 | the message ends with the skipped note exactly when some mesh was skipped |
| FbxWriters.ExportFailure | exporters/fbx_exporter.py:49-165 | `export` fails exactly for a zero frame rate or an embedded mesh whose polygon loop runs off its indices; the error says which |
| FbxWriters.ExportSkipped | exporters/fbx_exporter.py:104-152 | on success, the skipped list is the vertex-animated names in order; the note is present iff there is one; dropping those meshes gives the same document |
| FbxWriters.ExportValid | exporters/fbx_exporter.py:49-135 | after a successful export the fields satisfy the session invariant |
| FbxWriters.CameraRecordValid | exporters/fbx_exporter.py:310-362 | the camera writer keeps the session invariant |
| FbxWriters.MeshRecordValid | exporters/fbx_exporter.py:363-456 | the mesh writer keeps the session invariant |
| FbxWriters.LocatorRecordValid | exporters/fbx_exporter.py:457-505 | the locator writer keeps the session invariant |
| FbxWriters.AnimationStackValid | exporters/fbx_exporter.py:610-636 | the stack writer keeps the session invariant |
| FbxWriters.CameraRecordsValid | exporters/fbx_exporter.py:97-101 | the camera loop keeps the session invariant |
| FbxWriters.MeshRecordsValid | exporters/fbx_exporter.py:105-115 | the mesh loop keeps the session invariant |
| FbxWriters.LocatorRecordsValid | exporters/fbx_exporter.py:118-123 | the locator loop keeps the session invariant |
| FbxWriters.LinkObjectValid | exporters/fbx_exporter.py:354-356 | the two links of an object keep the invariant |
| FbxWriters.LinkedCurvesLinks | exporters/fbx_exporter.py:354-359 | linking an object then writing its curves adds `(part_id, model_id, None)`, then `(model_id, 0, None)`, then exactly the curve writer's links |
| FbxWriters.CameraRecordLinks | exporters/fbx_exporter.py:310-362 | `_write_camera` adds `(attr_id, model_id, None)`, then `(model_id, 0, None)` for the ids of `NodeAttribute::<name>` and `Model::<name>`; after them nothing with fewer than two keyframes, otherwise the object's curve wiring to that model and the base layer |
| FbxWriters.MeshRecordLinks | exporters/fbx_exporter.py:363-456 | a `_write_mesh` that returns adds `(geom_id, model_id, None)`, then `(model_id, 0, None)` for the ids of `Geometry::<name>` and `Model::<name>`; after them curve wiring only for a transform-only mesh with two or more keyframes |
| FbxWriters.LocatorRecordLinks | exporters/fbx_exporter.py:457-505 | `_write_locator` adds `(attr_id, model_id, None)`, then `(model_id, 0, None)`; after them the object's curve wiring when it has two or more keyframes |
| FbxWriters.MeshFailureSessionValid | exporters/fbx_exporter.py:105-115 | a mesh loop that raises leaves a session that keeps the invariant and extends the one it started from |
| FbxWriters.TwoAllocations | exporters/fbx_exporter.py:314-315 | two allocations in a row keep the invariant, and the first identifier stays allocated |
| FbxExport.FbxExporter.constructor | exporters/fbx_exporter.py:25-34 | 24 fps, one frame, empty table and registry, counter at 1000000000 |
| FbxExport.FbxExporter.GetId | exporters/fbx_exporter.py:36-41 | the fields after the call are the functional allocation's |
| FbxExport.FbxExporter.WriteConnections | exporters/fbx_exporter.py:637-655 | the loop emits the Connections block of the current registry |
| FbxExport.FbxExporter.AddAxisCurves | exporters/fbx_exporter.py:569-608 | the axis loop's lines and new fields are the functional axis fold's |
| FbxExport.FbxExporter.AddGroupCurve | exporters/fbx_exporter.py:544-608 | one group iteration: the lines and new fields are the functional group writer's (curve node, its layer and model links, then its axis curves), and `shot_name`, `fps` and `frame_count` are unchanged |
| FbxExport.FbxExporter.AddAnimationCurves | exporters/fbx_exporter.py:506-608 | the lines it appends and the new fields are exactly those of the curve-writer function |
| FbxExport.FbxExporter.WriteCamera | exporters/fbx_exporter.py:310-362 | lines and new fields are the camera record's |
| FbxExport.FbxExporter.WriteLocator | exporters/fbx_exporter.py:457-505 | lines and new fields are the locator record's |
| FbxExport.FbxExporter.FlattenLoop | exporters/fbx_exporter.py:390-392 | the `pos_array` loop computes the flattened positions |
| FbxExport.FbxExporter.PolygonBodyLoop | exporters/fbx_exporter.py:398-399 | the inner `range(count - 1)` loop copies the polygon's leading indices, or raises exactly when the functional polygon body does |
| FbxExport.FbxExporter.PolygonLoop | exporters/fbx_exporter.py:394-402 | the nested loop computes the polygon-vertex index buffer, or raises exactly when the functional flattening does |
| FbxExport.FbxExporter.WriteMesh | exporters/fbx_exporter.py:363-456 | fails exactly when the mesh record does, leaving only its model and geometry ids allocated; otherwise lines and new fields are the record's |
| FbxExport.FbxExporter.WriteAnimationStack | exporters/fbx_exporter.py:610-636 | lines and new fields are the stack record's |
| FbxExport.FbxExporter.WriteCameras | exporters/fbx_exporter.py:97-101 | the camera loop equals the camera fold |
| FbxExport.FbxExporter.WriteMeshes | exporters/fbx_exporter.py:104-115 | the mesh loop equals the mesh fold, failing exactly when it does and then leaving the fields where the failing mesh stopped; it returns the vertex-animated names as skipped |
| FbxExport.FbxExporter.WriteLocators | exporters/fbx_exporter.py:118-123 | the locator loop equals the locator fold |
| FbxExport.FbxExporter.Export | exporters/fbx_exporter.py:49-165 | `shot_name`, `fps` and `frame_count` are taken from the call and the scene; the outcome is the functional export's; on success the fields hold its final session; on failure they hold the reset session (zero rate) or the one the mesh loop stopped in |
| FbxExport.FbxExporter.WriteDocument | exporters/fbx_exporter.py:85-154 | from the reset fields with a non-zero rate, the document and fields are the functional export's, on success and on failure; `shot_name`, `fps` and `frame_count` are unchanged |
| FbxExport.PrefixMeshFailure | exporters/fbx_exporter.py:105-115 | once a mesh raises, the whole mesh loop raises, and stops where that mesh did |
| FbxExport.MeshFailureStep | exporters/fbx_exporter.py:105-115 | a mesh that raises after the earlier meshes were written ends the loop with only its own two ids allocated |
| MayaNodes.HeaderLines | exporters/maya_ma_exporter.py:109-117 | definition of `_generate_header`; see ExportRequirements |
| MayaNodes.RequirementsLines | exporters/maya_ma_exporter.py:119-124 | definition of `_generate_requirements`; see RequirementsAbcImport, ExportRequirements |
| MayaNodes.UnitsLines | exporters/maya_ma_exporter.py:126-131 | definition of `_generate_units`; see ExportRequirements |
| MayaNodes.FileInfoLines | exporters/maya_ma_exporter.py:133-142 | definition of `_generate_file_info`; see FileInfoSource |
| MayaNodes.TransformNodeLines | exporters/maya_ma_exporter.py:146-153 | definition of `_create_transform_node`; see TransformNodeParent, TransformNodeNoGeometry |
| MayaNodes.CameraNodeLines | exporters/maya_ma_exporter.py:155-165 | definition of `_create_camera_node`; see the ExportCamera method |
| MayaNodes.MeshNodeLines | exporters/maya_ma_exporter.py:167-176 | definition of `_create_mesh_node`; see MeshNodeNoGeometry |
| MayaNodes.AlembicReferenceLines | exporters/maya_ma_exporter.py:178-187 | definition of `_create_alembic_reference_node`; see AlembicReferenceNoGeometry |
| MayaNodes.TerminatedBlock | exporters/maya_ma_exporter.py:199-206 | definition of a header, one line per element and `lines[-1] += ';'`; see TerminatedBlockShape |
| MayaNodes.VertexLines | exporters/maya_ma_exporter.py:199-206 | definition of `_set_mesh_vertices`; see VertexBlockShape and the SetMeshVertices method |
| MayaNodes.FaceCountLines | exporters/maya_ma_exporter.py:212-217 | definition of the face-count block; see FaceCountBlockShape |
| MayaNodes.FaceIndexLines | exporters/maya_ma_exporter.py:219-223 | definition of the face-index block; see FaceIndexBlockShape |
| MayaNodes.FaceLines | exporters/maya_ma_exporter.py:208-225 | definition of `_set_mesh_faces`; see FaceCountBlockShape, FaceIndexBlockShape and the SetMeshFaces method |
| MayaNodes.AnimCurveHeader | exporters/maya_ma_exporter.py:244-249 | definition of the four header lines; see AnimCurveHeaderShape |
| MayaNodes.AnimCurveLines | exporters/maya_ma_exporter.py:229-255 | definition of `_create_anim_curve`; see AnimCurveShape, AnimCurveHeaderShape and the CreateAnimCurve method |
| MayaNodes.ConnectAnimCurveLines | exporters/maya_ma_exporter.py:257-259 | definition of `_connect_anim_curve`; see CurveBlockShape |
| MayaNodes.RequirementsAbcImport | exporters/maya_ma_exporter.py:119-124 | the Maya requirement comes first; `AbcImport` is required exactly when there is vertex animation |
| MayaNodes.FileInfoSource | exporters/maya_ma_exporter.py:133-142 | the `sourceAlembic` entry is present exactly for a truthy file name, and its payload is the escaped name |
| MayaNodes.TransformNodeParent | exporters/maya_ma_exporter.py:146-153 | the transform line parses back to its parent exactly when the parent is truthy, and to none otherwise |
| MayaNodes.TerminatedBlockShape | exporters/maya_ma_exporter.py:199-206 | a header plus one line per element; only the last line gains `;` (the header itself when there are no elements) |
| MayaNodes.IntItems | exporters/maya_ma_exporter.py:215-222 | one item per count or index |
| MayaNodes.VertexBlockShape | exporters/maya_ma_exporter.py:199-206 | the `.vt` header, then each vertex in order, the last one terminated |
| MayaNodes.FaceCountBlockShape | exporters/maya_ma_exporter.py:212-217 | the `.fc` header, then each count in order, the last one terminated |
| MayaNodes.FaceIndexBlockShape | exporters/maya_ma_exporter.py:219-223 | the `.pt` header, then each index in order, the last one terminated |
| MayaNodes.AnimCurveShape | exporters/maya_ma_exporter.py:229-255 | the curve is `<node>_<attr>` of type `animCurve<type>`; four header lines and one key per zipped pair; the last line ends with `;` |
| MayaNodes.AnimCurveHeaderShape | exporters/maya_ma_exporter.py:244-254 | the header's setAttr lines in full: linear tangents, no weights, and `len(times)` keys `.ktv[0:len(times)-1]`, the last taking the `;` when there is no key |
| MayaScene.Property | exporters/maya_ma_exporter.py:307-310 | definition of `props.get(key, default)`; see the ExportCamera method |
| MayaScene.Component | exporters/maya_ma_exporter.py:406-416 | definition of the nine channels in table order; see SampledChannels, ValuesSpec |
| MayaAnimation.Times | exporters/maya_ma_exporter.py:386-390 | definition of `times`; see TimesSpec |
| MayaAnimation.Values | exporters/maya_ma_exporter.py:386-399 | definition of one sampled channel; see ValuesSpec |
| MayaAnimation.Varying | exporters/maya_ma_exporter.py:402-403 | definition of `is_varying`; see ShortChannelNotAnimated, ConstantChannelNotAnimated, AnimatedChannelsSpec |
| MayaAnimation.CurveBlock | exporters/maya_ma_exporter.py:420-424 | definition of one curve and its connectAttr; see CurveBlockShape |
| MayaAnimation.CurveBlocks | exporters/maya_ma_exporter.py:418-424 | definition of the attribute loop; see CurveBlocksAreAnimatedBlocks, CurveBlocksLength, NoVaryingNoBlocks and the CurveLoop method |
| MayaAnimation.TransformAnimationLines | exporters/maya_ma_exporter.py:376-426 | definition of `_animate_transform`; see TransformAnimationShape, SingleFrameNoCurves and the AnimateTransform method |
| MayaAnimation.TimesSpec | exporters/maya_ma_exporter.py:386-390 | the sample times are exactly `1..frame_count` |
| MayaAnimation.ValuesSpec | exporters/maya_ma_exporter.py:386-399 | each channel has one value per time: its component of the transform at `(i + 1) / fps` |
| MayaAnimation.SampledChannels | exporters/maya_ma_exporter.py:406-416 | nine channel lists, one per entry of the table |
| MayaAnimation.AnimatedChannels | exporters/maya_ma_exporter.py:418-419 | the varying channels are indices into the table |
| MayaAnimation.AnimatedChannelsSpec | exporters/maya_ma_exporter.py:418-419 | a channel is listed exactly when it varies, and the list is strictly increasing |
| MayaAnimation.CurveBlocksAreAnimatedBlocks | exporters/maya_ma_exporter.py:418-424 | the attribute loop emits one curve-and-connect block per varying channel, in table order, and nothing else |
| MayaAnimation.CurveBlockShape | exporters/maya_ma_exporter.py:420-424 | a block is `|times| + 5` lines: it opens with the curve's `createNode` and ends with `connectAttr "<curve>.o" "<node>.<short>"` |
| MayaAnimation.CurveBlocksLength | exporters/maya_ma_exporter.py:418-424 | `|times| + 5` lines per varying channel |
| MayaAnimation.SingleFrameNoCurves | exporters/maya_ma_exporter.py:401-424 | with at most one frame nothing is animated |
| MayaAnimation.NoVaryingNoBlocks | exporters/maya_ma_exporter.py:418-424 | no varying channel, no lines |
| MayaAnimation.TransformAnimationShape | exporters/maya_ma_exporter.py:376-426 | `_animate_transform` is the blocks of the varying sampled channels, `frame_count + 5` lines each |
| MayaDocument.CameraBlock | exporters/maya_ma_exporter.py:299-322 | definition of `_export_camera`; see the ExportCamera method |
| MayaDocument.StaticMeshBlock | exporters/maya_ma_exporter.py:324-351 | definition of `_export_static_mesh`; see MeshDispatch and the ExportStaticMesh method |
| MayaDocument.VertexAnimatedMeshBlock | exporters/maya_ma_exporter.py:353-374 | definition of `_export_vertex_animated_mesh`; see VertexAnimatedNoGeometry |
| MayaDocument.MeshBlock | exporters/maya_ma_exporter.py:282-295 | definition of the mesh dispatch; see MeshBlockFailure, MeshDispatch |
| MayaDocument.CameraNodes | exporters/maya_ma_exporter.py:272-278 | definition of the camera loop; see CameraNodesFailure and the CameraLoop method |
| MayaDocument.MeshNodes | exporters/maya_ma_exporter.py:281-295 | definition of the mesh loop; see MeshNodesFailure and the MeshLoop method |
| MayaDocument.SceneNodes | exporters/maya_ma_exporter.py:263-297 | definition of `_generate_scene_nodes`; see SceneNodesOrder and the GenerateSceneNodes method |
| MayaDocument.CompletionMessage | exporters/maya_ma_exporter.py:89-94 | definition of the success message; see ExportRequirements |
| MayaDocument.Export | exporters/maya_ma_exporter.py:31-105 | definition of `export`; see ExportFailure, ExportRequirements and the MayaMAExporter.Export method |
| MayaDocument.CameraNodesFailure | exporters/maya_ma_exporter.py:272-278 | the camera loop fails exactly for a zero rate and at least one camera |
| MayaDocument.MeshBlockFailure | exporters/maya_ma_exporter.py:281-295 | a mesh fails exactly for a zero rate when it is not referenced through Alembic |
| MayaDocument.MeshNodesFailure | exporters/maya_ma_exporter.py:281-295 | the mesh loop fails exactly for a zero rate and some embedded mesh |
| MayaDocument.ExportFailure | exporters/maya_ma_exporter.py:31-105 | `export` fails exactly for a zero rate with a camera or an embedded mesh, with the division message |
| MayaDocument.ExportRequirements | exporters/maya_ma_exporter.py:65-94 | on success, the line after the Maya requirement requires `AbcImport` and the message ends with the Alembic warning, each exactly when there is vertex animation |
| MayaDocument.VertexAnimatedNoGeometry | exporters/maya_ma_exporter.py:353-374 | the Alembic path is 13 lines and writes no vertex or face data |
| MayaDocument.TransformNodeNoGeometry | exporters/maya_ma_exporter.py:146-153 | a transform node holds no geometry line |
| MayaDocument.MeshNodeNoGeometry | exporters/maya_ma_exporter.py:167-176 | an empty mesh node holds no geometry line |
| MayaDocument.AlembicReferenceNoGeometry | exporters/maya_ma_exporter.py:178-187 | the AlembicNode lines hold no geometry line |
| MayaDocument.MeshDispatch | exporters/maya_ma_exporter.py:281-295 | a vertex-animated name takes the Alembic path; any other mesh is embedded, with its vertex block right after the node lines, and is animated exactly when its name is transform-only |
| MayaDocument.SceneNodesOrder | exporters/maya_ma_exporter.py:263-297 | the scene nodes are the camera blocks followed by the mesh blocks |
| MayaExport.MayaMAExporter.constructor | exporters/maya_ma_exporter.py:20-23 | no shot name yet |
| MayaExport.MayaMAExporter.SetMeshVertices | exporters/maya_ma_exporter.py:199-206 | the loop emits the vertex block |
| MayaExport.MayaMAExporter.IntBlock | exporters/maya_ma_exporter.py:213-223 | the count/index loop emits the header and one terminated item per element |
| MayaExport.MayaMAExporter.SetMeshFaces | exporters/maya_ma_exporter.py:208-225 | the face-count block, then the face-index block |
| MayaExport.MayaMAExporter.CreateAnimCurve | exporters/maya_ma_exporter.py:229-255 | the zip loop emits the curve, and returns its name |
| MayaExport.MayaMAExporter.AnimateTransform | exporters/maya_ma_exporter.py:376-426 | raises exactly for a zero rate with at least one frame; otherwise the sampling and attribute loops emit the transform animation |
| MayaExport.MayaMAExporter.CurveLoop | exporters/maya_ma_exporter.py:418-424 | the attribute loop emits the curve blocks |
| MayaExport.MayaMAExporter.ExportCamera | exporters/maya_ma_exporter.py:299-322 | the camera block, or a failure for a zero rate |
| MayaExport.MayaMAExporter.ExportStaticMesh | exporters/maya_ma_exporter.py:324-351 | the embedded-mesh block, or a failure for a zero rate |
| MayaExport.MayaMAExporter.CameraLoop | exporters/maya_ma_exporter.py:272-278 | the camera loop equals the camera fold |
| MayaExport.MayaMAExporter.MeshLoop | exporters/maya_ma_exporter.py:281-295 | the mesh loop equals the mesh fold |
| MayaExport.MayaMAExporter.GenerateSceneNodes | exporters/maya_ma_exporter.py:263-297 | the scene nodes, or a failure exactly when a loop fails |
| MayaExport.MayaMAExporter.Export | exporters/maya_ma_exporter.py:31-105 | records the shot name; the outcome is the document and message of the functional export |

## Left out

- File output is not modelled, because it is I/O: `validate_output_path`, opening and writing the file, and the `'\n'.join(lines)` text. Each export yields its list of lines.
- Logging and progress callbacks are not modelled (`self.log`, the traceback text).
- `BaseExporter` is not part of this model.
- The `a2j.py` driver is not part of this model.
- The Alembic reader and the scene extraction are inputs: `SceneData` for FBX, and per-object functions of time for Maya.
- Float formatting and rounding are parameters, not re-derived: `:.6f`, `str(float)`, `round`.
- Ints are rendered concretely.
- The FBX header, global settings, documents, references and takes sections are not in the modelled document, because they are constant or clock-dependent text.
  - The one behaviour of theirs that matters is kept: a zero frame rate fails in the global-settings division before any object is written.
  - The `KTime` values of the stack and the takes are computed in floating point: `46186158000 / fps` first, then the product, then the truncation. The model uses exact reals.
- `FbxCurves.KTime` and `FbxCurves.KeyTimes`: the curve key times `int(kf.frame * time_scale)` are exact-real truncations, not IEEE doubles. A double product can fall just below a whole number and truncate one unit lower.
- KTimeWholeSeconds: holds of the exact-real `KTime` only. In doubles, frame `5 * 29.97` at 29.97 fps truncates to 230930789999, not 230930790000. The same happens at other NTSC rates.
- `FbxWriters.ErrorText`: assumes a float frame rate. An integer `fps` of 0 raises `ZeroDivisionError` with the text "division by zero", not "float division by zero", and the model does not distinguish the two.
- The documents section writes the fixed id 1000000000 for the Document, which is also the first id `_get_id` hands out (`FbxSession.FirstIdentifier`). That section is not modelled, so neither is the clash.
- Maya header timestamp: `datetime.now()` is the `timestamp` parameter.
- Maya `_set_transform_static` is not modelled, because nothing calls it.
- `_export_vertex_animated_mesh` passes `mesh.getFullName()`, but `_create_alembic_reference_node` never uses it, so it is not modelled.
- Maya frame rate: modelled as a real. `f"{fps}fps"` prints through the `repr` parameter, so the different text of an integer `fps` is not distinguished.
- `Text.BaseName`: POSIX paths only (`/` separators).
- `ZUp.PositionToZUp`, `ZUp.RotationToZUp` and `FbxWriters.Fixed3`: reals have no signed zero. In the program, negating a float `0.0` gives `-0.0`, which `:.6f` prints as `-0.000000`; the model negates to `0.0`, so a vertex `(0, 0, 0)` prints `0.000000,0.000000,0.000000` where the program writes `0.000000,-0.000000,0.000000`.
- Nothing raised by the reader (a missing attribute, a malformed mesh) is modelled. The failures modelled are the ones the core itself raises:
  - division by a zero frame rate;
  - the FBX polygon loop's `IndexError`.
- `FbxExport.FbxExporter.WriteCamera`, `WriteLocator`, `WriteMesh`, `WriteAnimationStack`, `WriteCameras`, `WriteMeshes` and `WriteLocators` require a non-zero frame rate. `export` has already failed in the global settings when it is zero, so none of them runs then.
- `MayaExport.MayaMAExporter.GenerateSceneNodes`: its two loops are the methods `CameraLoop` and `MeshLoop`. `_export_vertex_animated_mesh` is the function `MayaDocument.VertexAnimatedMeshBlock`, because it has no loop.
