/**
 * The FBX record writers (`_write_definitions`, `_write_camera`,
 * `_write_mesh`, `_write_locator`, `_write_animation_stack`,
 * `_write_connections`) and the entity loop of `export`, as functions of
 * the session they start from. Each writer returns the session it leaves
 * behind and the lines it emitted.
 */
module FbxWriters {
  import opened Basics
  import opened Text
  import opened ZUp
  import opened Naming
  import opened FbxScene
  import opened FbxSession
  import opened FbxPolygons
  import opened FbxCurves

  /** `f"{v[0]:.6f},{v[1]:.6f},{v[2]:.6f}"`. */
  function Fixed3(v: Vec3, f: FloatFormat): string
  {
    f.fixed6(v.x) + "," + f.fixed6(v.y) + "," + f.fixed6(v.z)
  }

  /** `_write_definitions(num_cameras, num_meshes, num_locators)`. */
  function DefinitionsLines(numCameras: int, numMeshes: int, numLocators: int): seq<string>
  {
    var totalModels := numCameras + numMeshes + numLocators;
    var totalGeometry := numMeshes;
    var totalNodeAttrs := numCameras + numLocators;
    [ "Definitions:  {",
      "    Version: 100",
      "    Count: " + IntToString(4 + totalModels + totalGeometry + totalNodeAttrs) ]
    + [ "    ObjectType: \"GlobalSettings\" {",
      "        Count: 1",
      "    }" ]
    + [ "    ObjectType: \"Model\" {",
      "        Count: " + IntToString(totalModels) ]
    + [ "        PropertyTemplate: \"FbxNode\" {",
      "            Properties70:  {",
      "                P: \"Lcl Translation\", \"Lcl Translation\", \"\", \"A\",0,0,0",
      "                P: \"Lcl Rotation\", \"Lcl Rotation\", \"\", \"A\",0,0,0",
      "                P: \"Lcl Scaling\", \"Lcl Scaling\", \"\", \"A\",1,1,1",
      "            }",
      "        }",
      "    }",
      "    ObjectType: \"Geometry\" {",
      "        Count: " + IntToString(totalGeometry),
      "    }",
      "    ObjectType: \"NodeAttribute\" {",
      "        Count: " + IntToString(totalNodeAttrs),
      "    }",
      "    ObjectType: \"AnimationStack\" {",
      "        Count: 1",
      "    }",
      "    ObjectType: \"AnimationLayer\" {",
      "        Count: 1",
      "    }",
      "}",
      "" ]
  }

  /** A Model record (`kind` is `Camera`, `Mesh` or `Null`); `scaling` is the text after `"A",`. */
  function ModelLines(id: int, name: string, kind: string, pos: Vec3, rot: Vec3, scaling: string, f: FloatFormat): seq<string>
  {
    [ "    Model: " + IntToString(id) + ", \"Model::" + name + "\", \"" + kind + "\" {",
      "        Version: 232",
      "        Properties70:  {",
      "            P: \"Lcl Translation\", \"Lcl Translation\", \"\", \"A\"," + Fixed3(pos, f),
      "            P: \"Lcl Rotation\", \"Lcl Rotation\", \"\", \"A\"," + Fixed3(rot, f),
      "            P: \"Lcl Scaling\", \"Lcl Scaling\", \"\", \"A\"," + scaling,
      "        }",
      "        Shading: Y",
      "        Culling: \"CullingOff\"",
      "    }" ]
  }

  const Origin: Vec3 := Vec3(0.0, 0.0, 0.0)
  const UnitScale: Vec3 := Vec3(1.0, 1.0, 1.0)

  /** The initial Z-up position of an object: its first keyframe's, or the origin. */
  function InitialPosition(kfs: seq<Keyframe>): Vec3
  {
    if kfs != [] then PositionToZUp(kfs[0].position) else Origin
  }

  function InitialRotation(kfs: seq<Keyframe>): Vec3
  {
    if kfs != [] then RotationToZUp(kfs[0].rotation) else Origin
  }

  /** The initial scale is taken unconverted; `(1, 1, 1)` without keyframes. */
  function InitialScale(kfs: seq<Keyframe>): Vec3
  {
    if kfs != [] then kfs[0].scale else UnitScale
  }

  /** The two links every object record makes: its attribute (or geometry) to its model, the model to the root. */
  function LinkObject(s: Session, partId: int, modelId: int): Session
  {
    Connect(Connect(s, partId, modelId, None), modelId, RootId, None)
  }

  /** The camera's NodeAttribute record, carrying its focal length. */
  function CameraAttributeLines(id: int, name: string, focalLength: real, f: FloatFormat): seq<string>
  {
    [ "    NodeAttribute: " + IntToString(id) + ", \"NodeAttribute::" + name + "\", \"Camera\" {",
      "        Properties70:  {",
      "            P: \"FocalLength\", \"Number\", \"\", \"A\"," + f.repr(focalLength),
      "            P: \"CameraProjectionType\", \"enum\", \"\", \"\",0",
      "        }",
      "        TypeFlags: \"Camera\"",
      "    }" ]
  }

  /** A locator's NodeAttribute record. */
  function NullAttributeLines(id: int, name: string): seq<string>
  {
    [ "    NodeAttribute: " + IntToString(id) + ", \"NodeAttribute::" + name + "\", \"Null\" {",
      "        TypeFlags: \"Null\"",
      "    }" ]
  }

  /** `_write_camera(cam, cam_name)`. */
  function CameraRecord(s: Session, c: Camera, name: string, fps: real, f: FloatFormat): Emitted
    requires fps != 0.0
  {
    var model := GetId(s, "Model::" + name);
    var attr := GetId(model.session, "NodeAttribute::" + name);
    var lines :=
      CameraAttributeLines(attr.id, name, c.focalLength, f)
      + ModelLines(model.id, name, "Camera", InitialPosition(c.keyframes), InitialRotation(c.keyframes), "1,1,1", f);
    var curves := AnimationCurves(LinkObject(attr.session, attr.id, model.id), c.keyframes, name, fps, f);
    Emitted(curves.session, lines + curves.lines)
  }

  /** The `Geometry` record of a mesh, from its flattened buffers. */
  function GeometryLines(id: int, name: string, posArray: seq<real>, poly: seq<int>, f: FloatFormat): seq<string>
  {
    [ "    Geometry: " + IntToString(id) + ", \"Geometry::" + name + "\", \"Mesh\" {" ]
    + ArrayBlock("        Vertices: *", FixedStrings(posArray, f))
    + ArrayBlock("        PolygonVertexIndex: *", IntStrings(poly))
    + [ "        GeometryVersion: 124",
        "        LayerElementNormal: 0 {",
        "            Version: 102",
        "            Name: \"\"",
        "            MappingInformationType: \"ByPolygonVertex\"",
        "            ReferenceInformationType: \"Direct\"",
        "            Normals: *0 {",
        "                a: ",
        "            }",
        "        }",
        "        Layer: 0 {",
        "            Version: 100",
        "            LayerElement:  {",
        "                Type: \"LayerElementNormal\"",
        "                TypedIndex: 0",
        "            }",
        "        }",
        "    }" ]
  }

  /** The converted positions, `[_convert_position_to_zup(p) for p in positions]`. */
  function ConvertedPositions(ps: seq<Vec3>): (r: seq<Vec3>)
    ensures |r| == |ps|
  {
    seq(|ps|, i requires 0 <= i < |ps| => PositionToZUp(ps[i]))
  }

  /**
   * `_write_mesh(mesh, mesh_name)`; `None` when the polygon loop indexes
   * past the end of the index list (Python's `IndexError`). Only
   * transform-only meshes get animation curves.
   */
  function MeshRecord(s: Session, m: Mesh, name: string, fps: real, f: FloatFormat): Option<Emitted>
    requires fps != 0.0
  {
    var model := GetId(s, "Model::" + name);
    var geom := GetId(model.session, "Geometry::" + name);
    match PolygonVertexIndex(m.geometry.indices, m.geometry.counts)
    case None => None
    case Some(poly) =>
      var posArray := FlattenPositions(ConvertedPositions(m.geometry.positions));
      var lines :=
        GeometryLines(geom.id, name, posArray, poly, f)
        + ModelLines(model.id, name, "Mesh", InitialPosition(m.keyframes), InitialRotation(m.keyframes),
                     Fixed3(InitialScale(m.keyframes), f), f);
      var linked := LinkObject(geom.session, geom.id, model.id);
      var curves := if m.animationType == TransformOnly then AnimationCurves(linked, m.keyframes, name, fps, f) else Emitted(linked, []);
      Some(Emitted(curves.session, lines + curves.lines))
  }

  /** `_write_locator(transform, xform_name)`. */
  function LocatorRecord(s: Session, t: Transform, name: string, fps: real, f: FloatFormat): Emitted
    requires fps != 0.0
  {
    var model := GetId(s, "Model::" + name);
    var attr := GetId(model.session, "NodeAttribute::" + name);
    var lines :=
      NullAttributeLines(attr.id, name)
      + ModelLines(model.id, name, "Null", InitialPosition(t.keyframes), InitialRotation(t.keyframes),
                   Fixed3(InitialScale(t.keyframes), f), f);
    var curves := AnimationCurves(LinkObject(attr.session, attr.id, model.id), t.keyframes, name, fps, f);
    Emitted(curves.session, lines + curves.lines)
  }

  /** `int(frame_count * (46186158000 / fps))`, the end of the take. */
  function EndTime(frameCount: int, fps: real): int
    requires fps != 0.0
  {
    KTime(frameCount as real, fps)
  }

  /** `_write_animation_stack()`: the take and its base layer, the layer linked to the stack. */
  function AnimationStackRecord(s: Session, fps: real, frameCount: int): Emitted
    requires fps != 0.0
  {
    var stack := GetId(s, "AnimationStack::Take001");
    var layer := GetId(stack.session, "AnimationLayer::BaseLayer");
    Emitted(Connect(layer.session, layer.id, stack.id, None), AnimationStackLines(stack.id, layer.id, EndTime(frameCount, fps)))
  }

  function AnimationStackLines(stackId: int, layerId: int, endTime: int): seq<string>
  {
    var end := IntToString(endTime);
    [ "    AnimationStack: " + IntToString(stackId) + ", \"AnimStack::Take 001\", \"\" {",
      "        Properties70:  {",
      "            P: \"LocalStop\", \"KTime\", \"Time\", \"\"," + end,
      "            P: \"ReferenceStop\", \"KTime\", \"Time\", \"\"," + end,
      "        }",
      "    }",
      "    AnimationLayer: " + IntToString(layerId) + ", \"AnimLayer::BaseLayer\", \"\" {",
      "    }" ]
  }

  const OpPrefix: string := "    C: \"OP\","
  const OoPrefix: string := "    C: \"OO\","

  /** One registry entry: a property link (`OP`) when the property is non-empty, else an object link (`OO`). */
  function ConnectionLine(c: Connection): string
  {
    if Truthy(c.property) then
      OpPrefix + IntToString(c.child) + "," + IntToString(c.parent) + ", \"" + c.property.value + "\""
    else
      OoPrefix + IntToString(c.child) + "," + IntToString(c.parent)
  }

  /** `_write_connections()`. */
  function ConnectionLines(cs: seq<Connection>): seq<string>
  {
    ["Connections:  {"] + seq(|cs|, i requires 0 <= i < |cs| => ConnectionLine(cs[i])) + ["}", ""]
  }

  /**
   * The Connections block lists the registry in insertion order, one line
   * per entry between the opening line and the closing `}` and blank line;
   * an entry's line is `OP` exactly when its property is non-empty and
   * `OO` otherwise.
   */
  lemma ConnectionLinesSpec(cs: seq<Connection>)
    ensures var r := ConnectionLines(cs);
      && |r| == |cs| + 3
      && r[0] == "Connections:  {" && r[|r| - 2] == "}" && r[|r| - 1] == ""
      && forall i :: 0 <= i < |cs| ==>
           && r[i + 1] == ConnectionLine(cs[i])
           && (StartsWith(r[i + 1], OpPrefix) <==> Truthy(cs[i].property))
           && (StartsWith(r[i + 1], OoPrefix) <==> !Truthy(cs[i].property))
  {
    forall i | 0 <= i < |cs| {
      ConnectionLineKind(cs[i]);
    }
  }

  /** A registry entry's line is `OP` exactly when its property is non-empty, `OO` otherwise. */
  lemma ConnectionLineKind(c: Connection)
    ensures StartsWith(ConnectionLine(c), OpPrefix) <==> Truthy(c.property)
    ensures StartsWith(ConnectionLine(c), OoPrefix) <==> !Truthy(c.property)
  {
    var line := ConnectionLine(c);
    var ids := IntToString(c.child) + "," + IntToString(c.parent);
    if Truthy(c.property) {
      assert line == OpPrefix + (ids + ", \"" + c.property.value + "\"");
      assert line[..|OpPrefix|] == OpPrefix;
      assert line[9] == OpPrefix[9];
      DiffersAt(line, OoPrefix, 9);
    } else {
      assert line == OoPrefix + ids;
      assert line[..|OoPrefix|] == OoPrefix;
      assert line[9] == OoPrefix[9];
      DiffersAt(line, OpPrefix, 9);
    }
  }

  // ---- The entity loops of `export` ----

  /** The camera loop, as a left fold. */
  function CameraRecords(s: Session, cams: seq<Camera>, fps: real, f: FloatFormat): Emitted
    requires fps != 0.0
  {
    if cams == [] then Emitted(s, [])
    else
      var e := CameraRecords(s, cams[..|cams| - 1], fps, f);
      var c := cams[|cams| - 1];
      var r := CameraRecord(e.session, c, CameraName(c), fps, f);
      Emitted(r.session, e.lines + r.lines)
  }

  /** The mesh loop: vertex-animated meshes are skipped; `None` once a mesh fails. */
  function MeshRecords(s: Session, meshes: seq<Mesh>, fps: real, f: FloatFormat): Option<Emitted>
    requires fps != 0.0
  {
    if meshes == [] then Some(Emitted(s, []))
    else
      match MeshRecords(s, meshes[..|meshes| - 1], fps, f)
      case None => None
      case Some(e) =>
        var m := meshes[|meshes| - 1];
        if m.animationType == VertexAnimated then Some(e)
        else
          match MeshRecord(e.session, m, MeshName(m), fps, f)
          case None => None
          case Some(r) => Some(Emitted(r.session, e.lines + r.lines))
  }

  /**
   * The session `_write_mesh` leaves behind when it raises: the model and
   * geometry ids are allocated, and nothing is linked.
   */
  function MeshIds(s: Session, name: string): Session
  {
    GetId(GetId(s, "Model::" + name).session, "Geometry::" + name).session
  }

  /**
   * The session the mesh loop leaves behind when a mesh raises: that of the
   * meshes before it, plus the two ids of the failing one.
   */
  function MeshFailureSession(s: Session, meshes: seq<Mesh>, fps: real, f: FloatFormat): Session
    requires fps != 0.0
    requires MeshRecords(s, meshes, fps, f).None?
    decreases |meshes|
  {
    var front := meshes[..|meshes| - 1];
    match MeshRecords(s, front, fps, f)
    case None => MeshFailureSession(s, front, fps, f)
    case Some(e) => MeshIds(e.session, MeshName(meshes[|meshes| - 1]))
  }

  /** The locator loop: transforms without keyframes are skipped. */
  function LocatorRecords(s: Session, xs: seq<Transform>, fps: real, f: FloatFormat): Emitted
    requires fps != 0.0
  {
    if xs == [] then Emitted(s, [])
    else
      var e := LocatorRecords(s, xs[..|xs| - 1], fps, f);
      var t := xs[|xs| - 1];
      if t.keyframes == [] then e
      else
        var r := LocatorRecord(e.session, t, SanitizeName(t.name), fps, f);
        Emitted(r.session, e.lines + r.lines)
  }

  datatype ExportError = DivisionByZero | IndexOutOfRange

  /** What `export` returns, with the session its fields hold afterwards. */
  datatype Outcome =
    | Success(lines: seq<string>, message: string, skipped: seq<string>, session: Session)
    | Failure(error: ExportError, message: string)

  /** `str(e)` of the two exceptions the core can raise. */
  function ErrorText(e: ExportError): string
  {
    match e
    case DivisionByZero => "float division by zero"
    case IndexOutOfRange => "list index out of range"
  }

  function Fail(e: ExportError): Outcome
  {
    Failure(e, "FBX export failed: " + ErrorText(e))
  }

  /**
   * `f"FBX export complete: {fbx_file.name}"`, with the skipped-mesh note
   * when there are any; the file is `<output_dir>/<shot>.fbx`.
   */
  function CompletionMessage(shot: string, skipped: seq<string>): string
  {
    "FBX export complete: " + BaseName(shot + ".fbx")
    + (if skipped != [] then " (skipped " + IntToString(|skipped|) + " vertex-animated meshes)" else "")
  }

  /**
   * The session an `export` that raises leaves in the exporter: the reset
   * session on a zero frame rate, otherwise the one the mesh loop stopped in.
   */
  function FailureSession(scene: SceneData, f: FloatFormat): Session
    requires scene.metadata.fps == 0.0
      || MeshRecords(CameraRecords(Fresh(), scene.cameras, scene.metadata.fps, f).session, scene.meshes, scene.metadata.fps, f).None?
  {
    var fps := scene.metadata.fps;
    if fps == 0.0 then Fresh()
    else MeshFailureSession(CameraRecords(Fresh(), scene.cameras, fps, f).session, scene.meshes, fps, f)
  }

  /**
   * `export(scene_data, output_path, shot_name)` from the Definitions
   * section through the Connections section, starting from the reset
   * session. A zero frame rate fails in the global settings, which divide
   * by it before anything else is written.
   */
  function Export(scene: SceneData, shot: string, f: FloatFormat): Outcome
  {
    var fps := scene.metadata.fps;
    if fps == 0.0 then Fail(DivisionByZero)
    else
      var defs := DefinitionsLines(|scene.cameras|, |EmbeddableMeshes(scene.meshes)|, |scene.transforms|);
      var cams := CameraRecords(Fresh(), scene.cameras, fps, f);
      match MeshRecords(cams.session, scene.meshes, fps, f)
      case None => Fail(IndexOutOfRange)
      case Some(meshes) =>
        var locs := LocatorRecords(meshes.session, scene.transforms, fps, f);
        var stack := AnimationStackRecord(locs.session, fps, scene.metadata.frameCount);
        var skipped := VertexAnimatedNames(scene.meshes);
        Success(
          defs + ["Objects:  {"] + cams.lines + meshes.lines + locs.lines + stack.lines + ["}", ""]
            + ConnectionLines(stack.session.connections),
          CompletionMessage(shot, skipped),
          skipped,
          stack.session)
  }

  // ---- Properties ----

  /** The declared total is four plus two per camera, per embedded mesh and per transform. */
  lemma DefinitionsTotal(numCameras: int, numMeshes: int, numLocators: int)
    ensures DefinitionsLines(numCameras, numMeshes, numLocators)[2]
         == "    Count: " + IntToString(4 + 2 * numCameras + 2 * numMeshes + 2 * numLocators)
    ensures DefinitionsLines(numCameras, numMeshes, numLocators)[7]
         == "        Count: " + IntToString(numCameras + numMeshes + numLocators)
  {
    var total := 4 + (numCameras + numMeshes + numLocators) + numMeshes + (numCameras + numLocators);
    SameCount("    Count: ", total, 4 + 2 * numCameras + 2 * numMeshes + 2 * numLocators);
  }

  lemma SameCount(prefix: string, a: int, b: int)
    requires a == b
    ensures prefix + IntToString(a) == prefix + IntToString(b)
  {
  }

  /** Flattening a mesh's buffers: three reals per vertex, `sum(counts)` polygon-vertex entries. */
  lemma MeshBuffers(m: Mesh)
    requires PositiveCounts(m.geometry.counts)
    ensures |FlattenPositions(ConvertedPositions(m.geometry.positions))| == 3 * |m.geometry.positions|
    ensures PolygonVertexIndex(m.geometry.indices, m.geometry.counts).Some? <==> Sum(m.geometry.counts) <= |m.geometry.indices|
    ensures PolygonVertexIndex(m.geometry.indices, m.geometry.counts).Some? ==>
      |PolygonVertexIndex(m.geometry.indices, m.geometry.counts).value| == Sum(m.geometry.counts)
  {
    FlattenPositionsAt(ConvertedPositions(m.geometry.positions));
    PolygonVertexIndexSpec(m.geometry.indices, m.geometry.counts);
  }

  /** An embedded mesh whose polygon loop runs off its index list. */
  predicate MeshFails(m: Mesh)
  {
    m.animationType != VertexAnimated && PolygonVertexIndex(m.geometry.indices, m.geometry.counts).None?
  }

  lemma MeshRecordNone(s: Session, m: Mesh, name: string, fps: real, f: FloatFormat)
    requires fps != 0.0
    ensures MeshRecord(s, m, name, fps, f).None? <==> PolygonVertexIndex(m.geometry.indices, m.geometry.counts).None?
  {
  }

  /** One step of the mesh loop fails when the loop so far did, or when the new mesh does. */
  lemma MeshRecordsStep(s: Session, meshes: seq<Mesh>, fps: real, f: FloatFormat)
    requires fps != 0.0 && meshes != []
    ensures MeshRecords(s, meshes, fps, f).None? <==>
      MeshRecords(s, meshes[..|meshes| - 1], fps, f).None? || MeshFails(meshes[|meshes| - 1])
  {
    var front := MeshRecords(s, meshes[..|meshes| - 1], fps, f);
    var m := meshes[|meshes| - 1];
    if front.None? {
      assert MeshRecords(s, meshes, fps, f).None?;
    } else if m.animationType == VertexAnimated {
      assert !MeshFails(m);
      assert MeshRecords(s, meshes, fps, f) == front;
    } else {
      MeshRecordsLast(s, meshes, fps, f);
      MeshRecordNone(front.value.session, m, MeshName(m), fps, f);
      assert MeshFails(m) <==> PolygonVertexIndex(m.geometry.indices, m.geometry.counts).None?;
    }
  }

  /** After a successful prefix, an embedded last mesh decides the outcome of the loop. */
  lemma MeshRecordsLast(s: Session, meshes: seq<Mesh>, fps: real, f: FloatFormat)
    requires fps != 0.0 && meshes != []
    requires MeshRecords(s, meshes[..|meshes| - 1], fps, f).Some?
    requires meshes[|meshes| - 1].animationType != VertexAnimated
    ensures var e := MeshRecords(s, meshes[..|meshes| - 1], fps, f).value;
      var m := meshes[|meshes| - 1];
      MeshRecords(s, meshes, fps, f).None? <==> MeshRecord(e.session, m, MeshName(m), fps, f).None?
  {
  }

  /** Some embedded mesh among `meshes` fails. */
  predicate AnyMeshFails(meshes: seq<Mesh>)
  {
    exists i :: 0 <= i < |meshes| && MeshFails(meshes[i])
  }

  lemma AnyMeshFailsSnoc(meshes: seq<Mesh>)
    requires meshes != []
    ensures AnyMeshFails(meshes) <==> AnyMeshFails(meshes[..|meshes| - 1]) || MeshFails(meshes[|meshes| - 1])
  {
    var front := meshes[..|meshes| - 1];
    if AnyMeshFails(front) {
      var i :| 0 <= i < |front| && MeshFails(front[i]);
      assert meshes[i] == front[i];
    }
    if AnyMeshFails(meshes) {
      var i :| 0 <= i < |meshes| && MeshFails(meshes[i]);
      if i < |front| {
        assert front[i] == meshes[i];
      }
    }
  }

  /** The mesh loop fails exactly when some embedded mesh's polygon loop runs off its index list. */
  lemma {:induction false} MeshRecordsFailure(s: Session, meshes: seq<Mesh>, fps: real, f: FloatFormat)
    requires fps != 0.0
    ensures MeshRecords(s, meshes, fps, f).None? <==> AnyMeshFails(meshes)
    decreases |meshes|
  {
    if meshes != [] {
      MeshRecordsFailure(s, meshes[..|meshes| - 1], fps, f);
      MeshRecordsStep(s, meshes, fps, f);
      AnyMeshFailsSnoc(meshes);
    }
  }

  /**
   * Vertex-animated meshes leave no trace in the records: dropping them
   * from the scene changes neither the session nor a single line.
   */
  lemma {:induction false} MeshRecordsSkipVertexAnimated(s: Session, meshes: seq<Mesh>, fps: real, f: FloatFormat)
    requires fps != 0.0
    ensures MeshRecords(s, meshes, fps, f) == MeshRecords(s, EmbeddableMeshes(meshes), fps, f)
    decreases |meshes|
  {
    if meshes != [] {
      var front := meshes[..|meshes| - 1];
      MeshRecordsSkipVertexAnimated(s, front, fps, f);
      var m := meshes[|meshes| - 1];
      var em := EmbeddableMeshes(meshes);
      if m.animationType == VertexAnimated {
        assert em == EmbeddableMeshes(front);
        assert MeshRecords(s, meshes, fps, f) == MeshRecords(s, front, fps, f);
      } else {
        assert em == EmbeddableMeshes(front) + [m];
        assert em[..|em| - 1] == EmbeddableMeshes(front);
        MeshRecordsSameLast(s, meshes, em, fps, f);
      }
    }
  }

  /** Two mesh lists with equal records before the same last mesh have equal records. */
  lemma MeshRecordsSameLast(s: Session, a: seq<Mesh>, b: seq<Mesh>, fps: real, f: FloatFormat)
    requires fps != 0.0 && a != [] && b != [] && a[|a| - 1] == b[|b| - 1]
    requires MeshRecords(s, a[..|a| - 1], fps, f) == MeshRecords(s, b[..|b| - 1], fps, f)
    ensures MeshRecords(s, a, fps, f) == MeshRecords(s, b, fps, f)
  {
  }

  lemma {:induction false} EmbeddableIdempotent(meshes: seq<Mesh>)
    ensures EmbeddableMeshes(EmbeddableMeshes(meshes)) == EmbeddableMeshes(meshes)
    decreases |meshes|
  {
    if meshes != [] {
      var front := meshes[..|meshes| - 1];
      EmbeddableIdempotent(front);
      var m := meshes[|meshes| - 1];
      if m.animationType != VertexAnimated {
        var em := EmbeddableMeshes(front) + [m];
        assert em[..|em| - 1] == EmbeddableMeshes(front);
      }
    }
  }

  /** `export` fails exactly for a zero frame rate or an embedded mesh whose indices run out. */
  lemma ExportFailure(scene: SceneData, shot: string, f: FloatFormat)
    ensures Export(scene, shot, f).Failure? <==>
      scene.metadata.fps == 0.0 || exists i :: 0 <= i < |scene.meshes| && MeshFails(scene.meshes[i])
    ensures Export(scene, shot, f).Failure? ==>
      Export(scene, shot, f).error == (if scene.metadata.fps == 0.0 then DivisionByZero else IndexOutOfRange)
  {
    if scene.metadata.fps != 0.0 {
      MeshRecordsFailure(CameraRecords(Fresh(), scene.cameras, scene.metadata.fps, f).session, scene.meshes, scene.metadata.fps, f);
    }
  }

  /**
   * A successful export reports the vertex-animated meshes as skipped, in
   * order, and its message carries the skipped note exactly when there are
   * any; removing those meshes from the scene gives the same document.
   */
  lemma ExportSkipped(scene: SceneData, shot: string, f: FloatFormat)
    requires Export(scene, shot, f).Success?
    ensures Export(scene, shot, f).skipped == VertexAnimatedNames(scene.meshes)
    ensures |Export(scene, shot, f).skipped| == |scene.meshes| - |EmbeddableMeshes(scene.meshes)|
    ensures EndsWith(Export(scene, shot, f).message, SkippedNote)
        <==> exists i :: 0 <= i < |scene.meshes| && scene.meshes[i].animationType == VertexAnimated
    ensures Export(scene.(meshes := EmbeddableMeshes(scene.meshes)), shot, f).Success?
    ensures Export(scene.(meshes := EmbeddableMeshes(scene.meshes)), shot, f).lines == Export(scene, shot, f).lines
  {
    var fps := scene.metadata.fps;
    var cams := CameraRecords(Fresh(), scene.cameras, fps, f);
    MeshRecordsSkipVertexAnimated(cams.session, scene.meshes, fps, f);
    EmbeddableIdempotent(scene.meshes);
    VertexAnimatedPresent(scene.meshes);
    CompletionMessageNote(shot, VertexAnimatedNames(scene.meshes));
  }

  const SkippedNote: string := " vertex-animated meshes)"

  /** The completion message ends with the skipped note exactly when some mesh was skipped. */
  lemma CompletionMessageNote(shot: string, skipped: seq<string>)
    ensures EndsWith(CompletionMessage(shot, skipped), SkippedNote) <==> skipped != []
  {
    var msg := CompletionMessage(shot, skipped);
    var file := shot + ".fbx";
    var base := "FBX export complete: " + BaseName(file);
    assert file[|file| - 1] == 'x';
    if skipped != [] {
      var head := base + " (skipped " + IntToString(|skipped|);
      assert msg == head + SkippedNote;
      assert msg[|msg| - |SkippedNote|..] == SkippedNote;
    } else {
      assert msg == base;
      assert msg[|msg| - 1] == 'x';
      DiffersAtEnd(msg, SkippedNote);
    }
  }

  lemma DiffersAtEnd(s: string, suffix: string)
    requires |s| > 0 && |suffix| > 0 && s[|s| - 1] != suffix[|suffix| - 1]
    ensures !EndsWith(s, suffix)
  {
    if |suffix| <= |s| {
      assert s[|s| - |suffix|..][|suffix| - 1] == s[|s| - 1];
    }
  }

  /** Some mesh among `meshes` is vertex-animated. */
  predicate AnyVertexAnimated(meshes: seq<Mesh>)
  {
    exists i :: 0 <= i < |meshes| && meshes[i].animationType == VertexAnimated
  }

  lemma {:induction false} VertexAnimatedPresent(meshes: seq<Mesh>)
    ensures VertexAnimatedNames(meshes) != [] <==> AnyVertexAnimated(meshes)
    decreases |meshes|
  {
    if meshes != [] {
      var front := meshes[..|meshes| - 1];
      var last := meshes[|meshes| - 1];
      VertexAnimatedPresent(front);
      assert VertexAnimatedNames(meshes) != [] <==> VertexAnimatedNames(front) != [] || last.animationType == VertexAnimated;
      AnyVertexAnimatedSnoc(meshes);
    }
  }

  lemma AnyVertexAnimatedSnoc(meshes: seq<Mesh>)
    requires meshes != []
    ensures AnyVertexAnimated(meshes) <==>
      AnyVertexAnimated(meshes[..|meshes| - 1]) || meshes[|meshes| - 1].animationType == VertexAnimated
  {
    var front := meshes[..|meshes| - 1];
    if AnyVertexAnimated(front) {
      var i :| 0 <= i < |front| && front[i].animationType == VertexAnimated;
      assert meshes[i] == front[i];
    }
    if AnyVertexAnimated(meshes) {
      var i :| 0 <= i < |meshes| && meshes[i].animationType == VertexAnimated;
      if i < |front| {
        assert front[i] == meshes[i];
      }
    }
  }

  // ---- The session invariant across the export ----

  lemma LinkObjectValid(s: Session, partId: int, modelId: int)
    requires Valid(s) && Allocated(s, partId) && Allocated(s, modelId)
    ensures Valid(LinkObject(s, partId, modelId)) && Extends(s, LinkObject(s, partId, modelId))
  {
    ConnectValid(s, partId, modelId, None);
    ConnectValid(Connect(s, partId, modelId, None), modelId, RootId, None);
    ExtendsTransitive(s, Connect(s, partId, modelId, None), LinkObject(s, partId, modelId));
  }

  /** Two allocations in a row keep the invariant, and the first id stays allocated. */
  lemma TwoAllocations(s: Session, n1: string, n2: string)
    requires Valid(s)
    ensures var a := GetId(s, n1); var b := GetId(a.session, n2);
      && Valid(b.session) && Extends(s, b.session)
      && Allocated(b.session, a.id) && Allocated(b.session, b.id)
  {
    var a := GetId(s, n1);
    GetIdAllocated(s, n1);
    GetIdAllocated(a.session, n2);
    ExtendsTransitive(s, a.session, GetId(a.session, n2).session);
  }

  lemma CameraRecordValid(s: Session, c: Camera, name: string, fps: real, f: FloatFormat)
    requires Valid(s) && fps != 0.0
    ensures Valid(CameraRecord(s, c, name, fps, f).session) && Extends(s, CameraRecord(s, c, name, fps, f).session)
  {
    var model := GetId(s, "Model::" + name);
    var attr := GetId(model.session, "NodeAttribute::" + name);
    TwoAllocations(s, "Model::" + name, "NodeAttribute::" + name);
    var linked := LinkObject(attr.session, attr.id, model.id);
    LinkObjectValid(attr.session, attr.id, model.id);
    AnimationCurvesValid(linked, c.keyframes, name, fps, f);
    ExtendsTransitive(s, attr.session, linked);
    ExtendsTransitive(s, linked, CameraRecord(s, c, name, fps, f).session);
  }

  lemma MeshRecordValid(s: Session, m: Mesh, name: string, fps: real, f: FloatFormat)
    requires Valid(s) && fps != 0.0
    requires MeshRecord(s, m, name, fps, f).Some?
    ensures Valid(MeshRecord(s, m, name, fps, f).value.session) && Extends(s, MeshRecord(s, m, name, fps, f).value.session)
  {
    var model := GetId(s, "Model::" + name);
    var geom := GetId(model.session, "Geometry::" + name);
    TwoAllocations(s, "Model::" + name, "Geometry::" + name);
    var linked := LinkObject(geom.session, geom.id, model.id);
    LinkObjectValid(geom.session, geom.id, model.id);
    AnimationCurvesValid(linked, m.keyframes, name, fps, f);
    ExtendsTransitive(s, geom.session, linked);
    ExtendsTransitive(s, linked, MeshRecord(s, m, name, fps, f).value.session);
  }

  /** A mesh loop that raises still leaves a valid session that extends the one it started from. */
  lemma {:induction false} MeshFailureSessionValid(s: Session, meshes: seq<Mesh>, fps: real, f: FloatFormat)
    requires Valid(s) && fps != 0.0
    requires MeshRecords(s, meshes, fps, f).None?
    ensures Valid(MeshFailureSession(s, meshes, fps, f)) && Extends(s, MeshFailureSession(s, meshes, fps, f))
    decreases |meshes|
  {
    var front := meshes[..|meshes| - 1];
    match MeshRecords(s, front, fps, f)
    case None =>
      MeshFailureSessionValid(s, front, fps, f);
    case Some(e) =>
      MeshRecordsValid(s, front, fps, f);
      var name := MeshName(meshes[|meshes| - 1]);
      TwoAllocations(e.session, "Model::" + name, "Geometry::" + name);
      ExtendsTransitive(s, e.session, MeshIds(e.session, name));
  }

  lemma LocatorRecordValid(s: Session, t: Transform, name: string, fps: real, f: FloatFormat)
    requires Valid(s) && fps != 0.0
    ensures Valid(LocatorRecord(s, t, name, fps, f).session) && Extends(s, LocatorRecord(s, t, name, fps, f).session)
  {
    var model := GetId(s, "Model::" + name);
    var attr := GetId(model.session, "NodeAttribute::" + name);
    TwoAllocations(s, "Model::" + name, "NodeAttribute::" + name);
    var linked := LinkObject(attr.session, attr.id, model.id);
    LinkObjectValid(attr.session, attr.id, model.id);
    AnimationCurvesValid(linked, t.keyframes, name, fps, f);
    ExtendsTransitive(s, attr.session, linked);
    ExtendsTransitive(s, linked, LocatorRecord(s, t, name, fps, f).session);
  }

  // ---- The links of an object record ----

  /**
   * Linking an object and then writing its curves: first the attribute (or
   * geometry) to the model, then the model to the root, then whatever the
   * curve writer adds.
   */
  lemma LinkedCurvesLinks(t: Session, partId: int, modelId: int, kfs: seq<Keyframe>, name: string, fps: real, f: FloatFormat)
    requires |kfs| < 2 || fps != 0.0
    ensures var linked := LinkObject(t, partId, modelId);
      var e := AnimationCurves(linked, kfs, name, fps, f);
      var n := NewLinks(t, e.session);
      && Extends(t, e.session)
      && |n| >= 2
      && n[..2] == [Connection(partId, modelId, None), Connection(modelId, RootId, None)]
      && n[2..] == NewLinks(linked, e.session)
  {
    var linked := LinkObject(t, partId, modelId);
    var e := AnimationCurves(linked, kfs, name, fps, f);
    AnimationCurvesWiring(linked, kfs, name, fps, f);
    assert linked.connections == t.connections + [Connection(partId, modelId, None), Connection(modelId, RootId, None)];
    ExtendsTransitive(t, Connect(t, partId, modelId, None), linked);
    ExtendsTransitive(t, linked, e.session);
  }

  /**
   * The links of `_write_camera`: `(attr_id, model_id)`, `(model_id, 0)`,
   * then, with two or more keyframes, the object's curve wiring.
   */
  lemma CameraRecordLinks(s: Session, c: Camera, name: string, fps: real, f: FloatFormat)
    requires fps != 0.0
    ensures var r := CameraRecord(s, c, name, fps, f);
      var model := GetId(s, "Model::" + name);
      var attr := GetId(model.session, "NodeAttribute::" + name);
      var n := NewLinks(s, r.session);
      && Extends(s, r.session)
      && |n| >= 2
      && n[..2] == [Connection(attr.id, model.id, None), Connection(model.id, RootId, None)]
      && (|c.keyframes| < 2 ==> |n| == 2)
      && (|c.keyframes| >= 2 ==>
        && "AnimationLayer::BaseLayer" in r.session.objectIds
        && Wired(n[2..], r.session, name, Groups(c.keyframes), model.id, r.session.objectIds["AnimationLayer::BaseLayer"]))
  {
    var model := GetId(s, "Model::" + name);
    var attr := GetId(model.session, "NodeAttribute::" + name);
    ObjectLinks(s, model, attr, c.keyframes, name, fps, f);
  }

  /**
   * The links of `_write_mesh`, when it returns: `(geom_id, model_id)`,
   * `(model_id, 0)`, then, for a transform-only mesh with two or more
   * keyframes, the object's curve wiring.
   */
  lemma MeshRecordLinks(s: Session, m: Mesh, name: string, fps: real, f: FloatFormat)
    requires fps != 0.0
    ensures var r := MeshRecord(s, m, name, fps, f);
      var model := GetId(s, "Model::" + name);
      var geom := GetId(model.session, "Geometry::" + name);
      r.Some? ==>
        var n := NewLinks(s, r.value.session);
        && Extends(s, r.value.session)
        && |n| >= 2
        && n[..2] == [Connection(geom.id, model.id, None), Connection(model.id, RootId, None)]
        && (m.animationType != TransformOnly || |m.keyframes| < 2 ==> |n| == 2)
        && (m.animationType == TransformOnly && |m.keyframes| >= 2 ==>
          && "AnimationLayer::BaseLayer" in r.value.session.objectIds
          && Wired(n[2..], r.value.session, name, Groups(m.keyframes), model.id, r.value.session.objectIds["AnimationLayer::BaseLayer"]))
  {
    var model := GetId(s, "Model::" + name);
    var geom := GetId(model.session, "Geometry::" + name);
    if MeshRecord(s, m, name, fps, f).Some? {
      if m.animationType == TransformOnly {
        ObjectLinks(s, model, geom, m.keyframes, name, fps, f);
      } else {
        ObjectLinks(s, model, geom, [], name, fps, f);
      }
    }
  }

  /**
   * The links of `_write_locator`: `(attr_id, model_id)`, `(model_id, 0)`,
   * then, with two or more keyframes, the object's curve wiring.
   */
  lemma LocatorRecordLinks(s: Session, t: Transform, name: string, fps: real, f: FloatFormat)
    requires fps != 0.0
    ensures var r := LocatorRecord(s, t, name, fps, f);
      var model := GetId(s, "Model::" + name);
      var attr := GetId(model.session, "NodeAttribute::" + name);
      var n := NewLinks(s, r.session);
      && Extends(s, r.session)
      && |n| >= 2
      && n[..2] == [Connection(attr.id, model.id, None), Connection(model.id, RootId, None)]
      && (|t.keyframes| < 2 ==> |n| == 2)
      && (|t.keyframes| >= 2 ==>
        && "AnimationLayer::BaseLayer" in r.session.objectIds
        && Wired(n[2..], r.session, name, Groups(t.keyframes), model.id, r.session.objectIds["AnimationLayer::BaseLayer"]))
  {
    var model := GetId(s, "Model::" + name);
    var attr := GetId(model.session, "NodeAttribute::" + name);
    ObjectLinks(s, model, attr, t.keyframes, name, fps, f);
  }

  /** The shared step of the three record lemmas: allocate model then part, link, write the curves. */
  lemma ObjectLinks(s: Session, model: Allocation, part: Allocation, kfs: seq<Keyframe>, name: string, fps: real, f: FloatFormat)
    requires fps != 0.0
    requires model == GetId(s, "Model::" + name)
    requires part.session.connections == model.session.connections && Extends(model.session, part.session)
    ensures var e := AnimationCurves(LinkObject(part.session, part.id, model.id), kfs, name, fps, f);
      var n := NewLinks(s, e.session);
      && Extends(s, e.session)
      && |n| >= 2
      && n[..2] == [Connection(part.id, model.id, None), Connection(model.id, RootId, None)]
      && (|kfs| < 2 ==> |n| == 2)
      && (|kfs| >= 2 ==>
        && "AnimationLayer::BaseLayer" in e.session.objectIds
        && Wired(n[2..], e.session, name, Groups(kfs), model.id, e.session.objectIds["AnimationLayer::BaseLayer"]))
  {
    var linked := LinkObject(part.session, part.id, model.id);
    var e := AnimationCurves(linked, kfs, name, fps, f);
    LinkedCurvesLinks(part.session, part.id, model.id, kfs, name, fps, f);
    AnimationCurvesWiring(linked, kfs, name, fps, f);
    ExtendsTransitive(s, model.session, part.session);
    ExtendsTransitive(s, part.session, e.session);
    assert part.session.connections == s.connections;
    assert NewLinks(s, e.session) == NewLinks(part.session, e.session);
    if |kfs| < 2 {
      assert e.session == linked;
    }
  }

  lemma AnimationStackValid(s: Session, fps: real, frameCount: int)
    requires Valid(s) && fps != 0.0
    ensures Valid(AnimationStackRecord(s, fps, frameCount).session)
    ensures Extends(s, AnimationStackRecord(s, fps, frameCount).session)
  {
    var stack := GetId(s, "AnimationStack::Take001");
    var layer := GetId(stack.session, "AnimationLayer::BaseLayer");
    TwoAllocations(s, "AnimationStack::Take001", "AnimationLayer::BaseLayer");
    ConnectValid(layer.session, layer.id, stack.id, None);
    ExtendsTransitive(s, layer.session, AnimationStackRecord(s, fps, frameCount).session);
  }

  lemma {:induction false} CameraRecordsValid(s: Session, cams: seq<Camera>, fps: real, f: FloatFormat)
    requires Valid(s) && fps != 0.0
    ensures Valid(CameraRecords(s, cams, fps, f).session) && Extends(s, CameraRecords(s, cams, fps, f).session)
    decreases |cams|
  {
    if cams != [] {
      var e := CameraRecords(s, cams[..|cams| - 1], fps, f);
      CameraRecordsValid(s, cams[..|cams| - 1], fps, f);
      var c := cams[|cams| - 1];
      CameraRecordValid(e.session, c, CameraName(c), fps, f);
      ExtendsTransitive(s, e.session, CameraRecords(s, cams, fps, f).session);
    }
  }

  lemma {:induction false} MeshRecordsValid(s: Session, meshes: seq<Mesh>, fps: real, f: FloatFormat)
    requires Valid(s) && fps != 0.0
    requires MeshRecords(s, meshes, fps, f).Some?
    ensures Valid(MeshRecords(s, meshes, fps, f).value.session) && Extends(s, MeshRecords(s, meshes, fps, f).value.session)
    decreases |meshes|
  {
    if meshes != [] {
      var e := MeshRecords(s, meshes[..|meshes| - 1], fps, f).value;
      MeshRecordsValid(s, meshes[..|meshes| - 1], fps, f);
      var m := meshes[|meshes| - 1];
      if m.animationType != VertexAnimated {
        MeshRecordValid(e.session, m, MeshName(m), fps, f);
        ExtendsTransitive(s, e.session, MeshRecords(s, meshes, fps, f).value.session);
      }
    }
  }

  lemma {:induction false} LocatorRecordsValid(s: Session, xs: seq<Transform>, fps: real, f: FloatFormat)
    requires Valid(s) && fps != 0.0
    ensures Valid(LocatorRecords(s, xs, fps, f).session) && Extends(s, LocatorRecords(s, xs, fps, f).session)
    decreases |xs|
  {
    if xs != [] {
      var e := LocatorRecords(s, xs[..|xs| - 1], fps, f);
      LocatorRecordsValid(s, xs[..|xs| - 1], fps, f);
      var t := xs[|xs| - 1];
      if t.keyframes != [] {
        LocatorRecordValid(e.session, t, SanitizeName(t.name), fps, f);
        ExtendsTransitive(s, e.session, LocatorRecords(s, xs, fps, f).session);
      }
    }
  }

  /**
   * After a successful export the session invariant holds: identifiers
   * are distinct and start at `1000000000`, and every connection written
   * to the Connections block links objects that were given identifiers
   * (or the root).
   */
  lemma ExportValid(scene: SceneData, shot: string, f: FloatFormat)
    requires Export(scene, shot, f).Success?
    ensures Valid(Export(scene, shot, f).session)
    ensures Export(scene, shot, f).session.nextId >= IdBase
  {
    var fps := scene.metadata.fps;
    FreshValid();
    var cams := CameraRecords(Fresh(), scene.cameras, fps, f);
    CameraRecordsValid(Fresh(), scene.cameras, fps, f);
    var meshes := MeshRecords(cams.session, scene.meshes, fps, f).value;
    MeshRecordsValid(cams.session, scene.meshes, fps, f);
    var locs := LocatorRecords(meshes.session, scene.transforms, fps, f);
    LocatorRecordsValid(meshes.session, scene.transforms, fps, f);
    AnimationStackValid(locs.session, fps, scene.metadata.frameCount);
  }
}
