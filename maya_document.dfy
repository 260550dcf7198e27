/**
 * The Maya ASCII document: per-object node blocks, the scene loops of
 * `_generate_scene_nodes`, and `export` with its result message. A
 * division by a zero frame rate (`1.0 / fps` when a camera or an
 * embedded mesh is sampled) aborts the export, which Python reports as
 * `ZeroDivisionError`; the model returns `None` there.
 */
module MayaDocument {
  import opened Basics
  import opened Text
  import opened Naming
  import opened MayaScene
  import opened MayaNodes
  import opened MayaAnimation
  import opened MelString

  /** `_export_camera(reader, cam, cam_name, fps, frame_count)`. */
  function CameraBlock(cam: CameraObject, camName: string, fps: real, frameCount: int, f: FloatFormat): Option<seq<string>>
  {
    if fps == 0.0 then None
    else
      var props := cam.propertiesAt(1.0 / fps);
      Some(TransformNodeLines(camName, None)
        + CameraNodeLines(camName + "Shape", camName,
            Property(props, "focal_length", 35.0), Property(props, "h_aperture", 36.0), Property(props, "v_aperture", 24.0), f)
        + TransformAnimationLines(cam.transformAt, camName, fps, frameCount, f))
  }

  /** `_export_static_mesh(...)`: the geometry at `1 / fps`, then the animation if asked for. */
  function StaticMeshBlock(mesh: MeshObject, meshName: string, fps: real, frameCount: int, isAnimated: bool, f: FloatFormat): Option<seq<string>>
  {
    if fps == 0.0 then None
    else
      var data := mesh.dataAt(1.0 / fps);
      Some(TransformNodeLines(meshName, None)
        + MeshNodeLines(meshName + "Shape", meshName)
        + VertexLines(data.positions, f)
        + FaceLines(data.indices, data.counts)
        + (if isAnimated then TransformAnimationLines(mesh.transformAt, meshName, fps, frameCount, f) else []))
  }

  /** `_export_vertex_animated_mesh(...)`: an empty shape driven by an `AlembicNode`. */
  function VertexAnimatedMeshBlock(meshName: string, abcFilePath: Option<string>): seq<string>
  {
    var shape := meshName + "Shape";
    var node := AlembicNodeName(meshName);
    TransformNodeLines(meshName, None)
      + MeshNodeLines(shape, meshName)
      + AlembicReferenceLines(meshName, abcFilePath)
      + [ "connectAttr \"" + node + ".outPolyMesh[0]\" \"" + shape + ".inMesh\";",
          "connectAttr \"time1.outTime\" \"" + node + ".time\";" ]
  }

  /** The mesh dispatch of `_generate_scene_nodes`, on the sanitised name. */
  function MeshBlock(mesh: MeshObject, fps: real, frameCount: int, anim: AnimationData, abcFilePath: Option<string>, f: FloatFormat): Option<seq<string>>
  {
    var meshName := SanitizeName(mesh.name);
    if meshName in anim.vertexAnimated then Some(VertexAnimatedMeshBlock(meshName, abcFilePath))
    else StaticMeshBlock(mesh, meshName, fps, frameCount, meshName in anim.transformOnly, f)
  }

  /** The camera loop; `None` once a camera fails. */
  function CameraNodes(cams: seq<CameraObject>, fps: real, frameCount: int, f: FloatFormat): Option<seq<string>>
  {
    if cams == [] then Some([])
    else
      match CameraNodes(cams[..|cams| - 1], fps, frameCount, f)
      case None => None
      case Some(front) =>
        var cam := cams[|cams| - 1];
        match CameraBlock(cam, SanitizeName(cam.name), fps, frameCount, f)
        case None => None
        case Some(block) => Some(front + block)
  }

  /** The mesh loop; `None` once a mesh fails. */
  function MeshNodes(meshes: seq<MeshObject>, fps: real, frameCount: int, anim: AnimationData, abcFilePath: Option<string>, f: FloatFormat): Option<seq<string>>
  {
    if meshes == [] then Some([])
    else
      match MeshNodes(meshes[..|meshes| - 1], fps, frameCount, anim, abcFilePath, f)
      case None => None
      case Some(front) =>
        match MeshBlock(meshes[|meshes| - 1], fps, frameCount, anim, abcFilePath, f)
        case None => None
        case Some(block) => Some(front + block)
  }

  /** `_generate_scene_nodes(...)`: cameras, then meshes. */
  function SceneNodes(archive: Archive, fps: real, frameCount: int, anim: AnimationData, abcFilePath: Option<string>, f: FloatFormat): Option<seq<string>>
  {
    match CameraNodes(archive.cameras, fps, frameCount, f)
    case None => None
    case Some(cams) =>
      match MeshNodes(archive.meshes, fps, frameCount, anim, abcFilePath, f)
      case None => None
      case Some(meshes) => Some(cams + meshes)
  }

  /** What `export` returns: the document lines on success, and the message. */
  datatype MayaOutcome = Success(lines: seq<string>, message: string) | Failure(message: string)

  const AlembicWarning: string := "\n\U{26A0} Vertex-animated meshes reference original Alembic file"

  /** `f"Maya MA export complete: {ma_file.name}"`, with the Alembic warning when needed. */
  function CompletionMessage(shot: string, hasVertexAnim: bool): string
  {
    "Maya MA export complete: " + BaseName(shot + ".ma") + (if hasVertexAnim then AlembicWarning else "")
  }

  const FailureMessage: string := "Maya MA export failed: float division by zero"

  /**
   * `export(reader, output_path, shot_name, fps, frame_count,
   * animation_data, abc_file_path)`: header, requirements, units, file
   * information and the scene nodes.
   */
  function Export(archive: Archive, shot: string, fps: real, frameCount: int, anim: AnimationData,
                  abcFilePath: Option<string>, timestamp: string, f: FloatFormat): MayaOutcome
  {
    var hasVertexAnim := |anim.vertexAnimated| > 0;
    match SceneNodes(archive, fps, frameCount, anim, abcFilePath, f)
    case None => Failure(FailureMessage)
    case Some(nodes) =>
      Success(
        HeaderLines(shot, timestamp) + RequirementsLines(hasVertexAnim) + UnitsLines(fps, f)
          + FileInfoLines(abcFilePath) + nodes,
        CompletionMessage(shot, hasVertexAnim))
  }

  // ---- Properties ----

  /** A mesh sampled from the archive: one that is not referenced through Alembic. */
  predicate Embedded(mesh: MeshObject, anim: AnimationData)
  {
    SanitizeName(mesh.name) !in anim.vertexAnimated
  }

  lemma {:induction false} CameraNodesFailure(cams: seq<CameraObject>, fps: real, frameCount: int, f: FloatFormat)
    ensures CameraNodes(cams, fps, frameCount, f).None? <==> fps == 0.0 && cams != []
  {
    if cams != [] {
      CameraNodesFailure(cams[..|cams| - 1], fps, frameCount, f);
    }
  }

  lemma MeshBlockFailure(mesh: MeshObject, fps: real, frameCount: int, anim: AnimationData, abcFilePath: Option<string>, f: FloatFormat)
    ensures MeshBlock(mesh, fps, frameCount, anim, abcFilePath, f).None? <==> fps == 0.0 && Embedded(mesh, anim)
  {
  }

  lemma {:induction false} MeshNodesFailure(meshes: seq<MeshObject>, fps: real, frameCount: int, anim: AnimationData, abcFilePath: Option<string>, f: FloatFormat)
    ensures MeshNodes(meshes, fps, frameCount, anim, abcFilePath, f).None? <==>
      fps == 0.0 && exists i :: 0 <= i < |meshes| && Embedded(meshes[i], anim)
  {
    if meshes != [] {
      var front := meshes[..|meshes| - 1];
      MeshNodesFailure(front, fps, frameCount, anim, abcFilePath, f);
      MeshBlockFailure(meshes[|meshes| - 1], fps, frameCount, anim, abcFilePath, f);
      if fps == 0.0 && (exists i :: 0 <= i < |front| && Embedded(front[i], anim)) {
        var i :| 0 <= i < |front| && Embedded(front[i], anim);
        assert meshes[i] == front[i];
      }
      if fps == 0.0 && (exists i :: 0 <= i < |meshes| && Embedded(meshes[i], anim)) {
        var i :| 0 <= i < |meshes| && Embedded(meshes[i], anim);
        if i < |front| {
          assert front[i] == meshes[i];
        }
      }
    }
  }

  /**
   * The export fails exactly when the frame rate is zero and something is
   * sampled: a camera, or a mesh that is not referenced through Alembic.
   */
  lemma ExportFailure(archive: Archive, shot: string, fps: real, frameCount: int, anim: AnimationData,
                      abcFilePath: Option<string>, timestamp: string, f: FloatFormat)
    ensures Export(archive, shot, fps, frameCount, anim, abcFilePath, timestamp, f).Failure? <==>
      fps == 0.0 && (archive.cameras != [] || exists i :: 0 <= i < |archive.meshes| && Embedded(archive.meshes[i], anim))
    ensures Export(archive, shot, fps, frameCount, anim, abcFilePath, timestamp, f).Failure? ==>
      Export(archive, shot, fps, frameCount, anim, abcFilePath, timestamp, f).message == FailureMessage
  {
    CameraNodesFailure(archive.cameras, fps, frameCount, f);
    MeshNodesFailure(archive.meshes, fps, frameCount, anim, abcFilePath, f);
  }

  /**
   * On success the document requires `AbcImport` exactly when the
   * vertex-animated list is non-empty, and the message carries the
   * Alembic warning under the same condition.
   */
  lemma ExportRequirements(archive: Archive, shot: string, fps: real, frameCount: int, anim: AnimationData,
                           abcFilePath: Option<string>, timestamp: string, f: FloatFormat)
    requires Export(archive, shot, fps, frameCount, anim, abcFilePath, timestamp, f).Success?
    ensures var r := Export(archive, shot, fps, frameCount, anim, abcFilePath, timestamp, f);
      && r.lines[4] == MayaRequirement
      && (r.lines[5] == AbcImportRequirement <==> |anim.vertexAnimated| > 0)
      && (EndsWith(r.message, AlembicWarning) <==> |anim.vertexAnimated| > 0)
  {
    var has := |anim.vertexAnimated| > 0;
    var nodes := SceneNodes(archive, fps, frameCount, anim, abcFilePath, f).value;
    assert UnitsLines(fps, f)[0] == "currentUnit -l centimeter -a degree -t film;";
    DocumentRequirements(shot, timestamp, has, UnitsLines(fps, f), FileInfoLines(abcFilePath), nodes);
    CompletionWarning(shot, has);
  }

  /** The requirement lines follow the four header lines, whatever comes after them. */
  lemma DocumentRequirements(shot: string, timestamp: string, has: bool, units: seq<string>, info: seq<string>, nodes: seq<string>)
    requires |units| > 0 && |units[0]| > 0 && units[0][0] != AbcImportRequirement[0]
    ensures var lines := HeaderLines(shot, timestamp) + RequirementsLines(has) + units + info + nodes;
      && lines[4] == MayaRequirement
      && (lines[5] == AbcImportRequirement <==> has)
  {
    var lines := HeaderLines(shot, timestamp) + RequirementsLines(has) + units + info + nodes;
    if has {
      assert lines[5] == AbcImportRequirement;
    } else {
      assert lines[5] == units[0];
    }
  }

  /** The completion message ends with the Alembic warning exactly when it is asked for. */
  lemma CompletionWarning(shot: string, has: bool)
    ensures EndsWith(CompletionMessage(shot, has), AlembicWarning) <==> has
  {
    var message := CompletionMessage(shot, has);
    var base := "Maya MA export complete: " + BaseName(shot + ".ma");
    var file := shot + ".ma";
    assert file[|file| - 1] == 'a';
    if has {
      assert message == base + AlembicWarning;
      assert message[|message| - |AlembicWarning|..] == AlembicWarning;
    } else {
      assert message == base;
      assert message[|message| - 1] == 'a';
      assert AlembicWarning[|AlembicWarning| - 1] == 'e';
    }
  }

  const VertexDataPrefix: string := "    setAttr \".vt["

  /** A line that carries vertex or face data: a `.vt[...]` or a sized (`-s`) `setAttr`. */
  predicate GeometryLine(line: string)
  {
    StartsWith(line, VertexDataPrefix) || StartsWith(line, SizedHeaderPrefix)
  }

  lemma NotGeometry(line: string, i: nat, j: nat)
    requires i < |line| && i < |VertexDataPrefix| && line[i] != VertexDataPrefix[i]
    requires j < |line| && j < |SizedHeaderPrefix| && line[j] != SizedHeaderPrefix[j]
    ensures !GeometryLine(line)
  {
    DiffersAt(line, VertexDataPrefix, i);
    DiffersAt(line, SizedHeaderPrefix, j);
  }

  /** No line of `lines` carries vertex or face data. */
  predicate NoGeometry(lines: seq<string>)
  {
    forall i :: 0 <= i < |lines| ==> !GeometryLine(lines[i])
  }

  lemma NoGeometryConcat(a: seq<string>, b: seq<string>)
    requires NoGeometry(a) && NoGeometry(b)
    ensures NoGeometry(a + b)
  {
    forall i | 0 <= i < |a + b|
      ensures !GeometryLine((a + b)[i])
    {
      if i < |a| {
        assert (a + b)[i] == a[i];
      } else {
        assert (a + b)[i] == b[i - |a|];
      }
    }
  }

  lemma TransformNodeNoGeometry(name: string)
    ensures NoGeometry(TransformNodeLines(name, None))
  {
    var r := TransformNodeLines(name, None);
    NotGeometry(r[0], 0, 0);
  }

  lemma MeshNodeNoGeometry(name: string, parent: string)
    ensures NoGeometry(MeshNodeLines(name, parent))
  {
    var r := MeshNodeLines(name, parent);
    NotGeometry(r[0], 0, 0);
    NotGeometry(r[1], 12, 13);
    NotGeometry(r[2], 15, 12);
    NotGeometry(r[3], 15, 12);
    NotGeometry(r[4], 14, 12);
    NotGeometry(r[5], 14, 12);
  }

  lemma AlembicReferenceNoGeometry(meshName: string, abcFilePath: Option<string>)
    ensures NoGeometry(AlembicReferenceLines(meshName, abcFilePath))
  {
    ReferenceLinesNoGeometry(AlembicNodeName(meshName), MelEscape(abcFilePath));
  }

  /** The reference node's four lines carry no geometry, whatever the node name and the escaped path. */
  lemma ReferenceLinesNoGeometry(node: string, escaped: string)
    ensures NoGeometry([ "createNode AlembicNode -n \"" + node + "\";",
      "    setAttr \".abc_File\" -type \"string\" \"" + escaped + "\";",
      "    setAttr \".abc_layerFileName\" -type \"string\" \"\";",
      "    setAttr \".time\" 1;" ])
  {
    var r := [ "createNode AlembicNode -n \"" + node + "\";",
      "    setAttr \".abc_File\" -type \"string\" \"" + escaped + "\";",
      "    setAttr \".abc_layerFileName\" -type \"string\" \"\";",
      "    setAttr \".time\" 1;" ];
    NotGeometry(r[0], 0, 0);
    NotGeometry(r[1], 14, 12);
    NotGeometry(r[2], 14, 12);
    NotGeometry(r[3], 14, 12);
  }

  /** The Alembic path writes no vertex or face data: the geometry comes from the reference. */
  lemma VertexAnimatedNoGeometry(meshName: string, abcFilePath: Option<string>)
    ensures |VertexAnimatedMeshBlock(meshName, abcFilePath)| == 13
    ensures NoGeometry(VertexAnimatedMeshBlock(meshName, abcFilePath))
  {
    var shape := meshName + "Shape";
    var node := AlembicNodeName(meshName);
    var tail := [ "connectAttr \"" + node + ".outPolyMesh[0]\" \"" + shape + ".inMesh\";",
                  "connectAttr \"time1.outTime\" \"" + node + ".time\";" ];
    NotGeometry(tail[0], 0, 0);
    NotGeometry(tail[1], 0, 0);
    TransformNodeNoGeometry(meshName);
    MeshNodeNoGeometry(shape, meshName);
    AlembicReferenceNoGeometry(meshName, abcFilePath);
    NoGeometryConcat(TransformNodeLines(meshName, None), MeshNodeLines(shape, meshName));
    NoGeometryConcat(TransformNodeLines(meshName, None) + MeshNodeLines(shape, meshName), AlembicReferenceLines(meshName, abcFilePath));
    NoGeometryConcat(TransformNodeLines(meshName, None) + MeshNodeLines(shape, meshName) + AlembicReferenceLines(meshName, abcFilePath), tail);
  }

  /**
   * Mesh dispatch on the sanitised name: a name in the vertex-animated
   * list takes the Alembic path (no geometry); any other mesh is
   * embedded, with its vertex block right after the two node statements,
   * and is animated exactly when its name is in the transform-only list.
   */
  lemma MeshDispatch(mesh: MeshObject, fps: real, frameCount: int, anim: AnimationData, abcFilePath: Option<string>, f: FloatFormat)
    ensures var name := SanitizeName(mesh.name);
      name in anim.vertexAnimated ==>
        && MeshBlock(mesh, fps, frameCount, anim, abcFilePath, f) == Some(VertexAnimatedMeshBlock(name, abcFilePath))
        && NoGeometry(MeshBlock(mesh, fps, frameCount, anim, abcFilePath, f).value)
    ensures var name := SanitizeName(mesh.name);
      (name !in anim.vertexAnimated && fps != 0.0) ==>
        var data := mesh.dataAt(1.0 / fps);
        var r := MeshBlock(mesh, fps, frameCount, anim, abcFilePath, f);
        var animation := if name in anim.transformOnly then TransformAnimationLines(mesh.transformAt, name, fps, frameCount, f) else [];
        && r.Some?
        && StartsWith(r.value[7], VertexHeaderPrefix)
        && |r.value| == 7 + (|data.positions| + 1) + (|data.counts| + |data.indices| + 2) + |animation|
        && r.value[|r.value| - |animation|..] == animation
  {
    var name := SanitizeName(mesh.name);
    if name in anim.vertexAnimated {
      VertexAnimatedNoGeometry(name, abcFilePath);
    } else if fps != 0.0 {
      EmbeddedMeshDispatch(mesh, name, fps, frameCount, anim, abcFilePath, f);
    }
  }

  /** The embedded branch of the dispatch: the vertex block follows the two node statements. */
  lemma EmbeddedMeshDispatch(mesh: MeshObject, name: string, fps: real, frameCount: int, anim: AnimationData, abcFilePath: Option<string>, f: FloatFormat)
    requires name == SanitizeName(mesh.name) && name !in anim.vertexAnimated && fps != 0.0
    ensures var data := mesh.dataAt(1.0 / fps);
      var r := MeshBlock(mesh, fps, frameCount, anim, abcFilePath, f);
      var animation := if name in anim.transformOnly then TransformAnimationLines(mesh.transformAt, name, fps, frameCount, f) else [];
      && r.Some?
      && StartsWith(r.value[7], VertexHeaderPrefix)
      && |r.value| == 7 + (|data.positions| + 1) + (|data.counts| + |data.indices| + 2) + |animation|
      && r.value[|r.value| - |animation|..] == animation
  {
    var data := mesh.dataAt(1.0 / fps);
    VertexBlockShape(data.positions, f);
    FaceCountBlockShape(data.counts);
    FaceIndexBlockShape(data.indices);
    var r := MeshBlock(mesh, fps, frameCount, anim, abcFilePath, f).value;
    var head := TransformNodeLines(name, None) + MeshNodeLines(name + "Shape", name);
    assert |head| == 7;
    assert r[7] == VertexLines(data.positions, f)[0];
  }

  /** The scene nodes are the camera blocks followed by the mesh blocks, in reader order. */
  lemma SceneNodesOrder(archive: Archive, fps: real, frameCount: int, anim: AnimationData, abcFilePath: Option<string>, f: FloatFormat)
    requires SceneNodes(archive, fps, frameCount, anim, abcFilePath, f).Some?
    ensures CameraNodes(archive.cameras, fps, frameCount, f).Some?
    ensures MeshNodes(archive.meshes, fps, frameCount, anim, abcFilePath, f).Some?
    ensures SceneNodes(archive, fps, frameCount, anim, abcFilePath, f).value ==
      CameraNodes(archive.cameras, fps, frameCount, f).value + MeshNodes(archive.meshes, fps, frameCount, anim, abcFilePath, f).value
  {
  }
}
