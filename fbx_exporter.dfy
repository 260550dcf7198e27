/**
 * The `FBXExporter` object: its identifier table, id counter and
 * connection registry are fields that the writers update in place, as in
 * the exporter. Every method is proved to leave the fields, and to return
 * the lines, that the corresponding function of FbxWriters or FbxCurves
 * computes from the fields it started with.
 */
module FbxExport {
  import opened Basics
  import opened Text
  import opened ZUp
  import opened Naming
  import opened FbxScene
  import opened FbxSession
  import opened FbxPolygons
  import opened FbxCurves
  import opened FbxWriters

  class FbxExporter {
    var shotName: string
    var fps: real
    var frameCount: int
    var nextId: int
    var objectIds: map<string, int>
    var connections: seq<Connection>
    /** How the host formats and rounds floats. */
    const floats: FloatFormat

    /** The bookkeeping fields as a session value. */
    function State(): Session
      reads this
    {
      Session(nextId, objectIds, connections)
    }

    /** `__init__`: 24 fps, one frame, an empty session. */
    constructor(floats: FloatFormat)
      ensures this.floats == floats
      ensures shotName == "" && fps == 24.0 && frameCount == 1
      ensures State() == Fresh()
    {
      this.floats := floats;
      shotName := "";
      fps := 24.0;
      frameCount := 1;
      nextId := IdBase;
      objectIds := map[];
      connections := [];
    }

    /** `_get_id(name)`. */
    method GetId(name: string) returns (id: int)
      modifies this
      ensures Allocation(State(), id) == FbxSession.GetId(old(State()), name)
      ensures shotName == old(shotName) && fps == old(fps) && frameCount == old(frameCount)
    {
      if name !in objectIds {
        objectIds := objectIds[name := nextId];
        nextId := nextId + 1;
      }
      id := objectIds[name];
    }

    /** `_write_connections()`: the registry in insertion order. */
    method WriteConnections() returns (lines: seq<string>)
      ensures lines == ConnectionLines(connections)
    {
      var cs := connections;
      lines := ["Connections:  {"];
      var i := 0;
      while i < |cs|
        invariant 0 <= i <= |cs|
        invariant lines == ["Connections:  {"] + seq(i, j requires 0 <= j < i => ConnectionLine(cs[j]))
      {
        var c := cs[i];
        var line;
        if Truthy(c.property) {
          line := OpPrefix + IntToString(c.child) + "," + IntToString(c.parent) + ", \"" + c.property.value + "\"";
        } else {
          line := OoPrefix + IntToString(c.child) + "," + IntToString(c.parent);
        }
        assert line == ConnectionLine(cs[i]);
        ConnectionLinesStep(cs, i);
        lines := lines + [line];
        i := i + 1;
      }
      lines := lines + ["}", ""];
    }

    /** The per-axis loop of one group; `nodeId` is the group's curve node. */
    method AddAxisCurves(objName: string, prefix: string, axes: seq<Axis>, times: seq<int>, nodeId: int) returns (added: seq<string>)
      modifies this
      ensures Emitted(State(), added) == AxisCurves(old(State()), objName, prefix, axes, times, nodeId, floats)
      ensures shotName == old(shotName) && fps == old(fps) && frameCount == old(frameCount)
    {
      added := [];
      var a := 0;
      while a < |axes|
        invariant 0 <= a <= |axes|
        invariant Emitted(State(), added) == AxisCurves(old(State()), objName, prefix, axes[..a], times, nodeId, floats)
        invariant shotName == old(shotName) && fps == old(fps) && frameCount == old(frameCount)
      {
        var axis := axes[a];
        assert axes[..a + 1][..a] == axes[..a];
        if AxisAnimated(axis, floats) {
          var curveId := GetId(CurveKey(objName, prefix, axis.name));
          added := added + CurveLines(curveId, times, axis.values, floats);
          connections := connections + [Connection(curveId, nodeId, Some("d|" + axis.name))];
        }
        a := a + 1;
      }
      assert axes[..a] == axes;
    }

    /** One iteration of the group loop of `_add_animation_curves`: the curve node, its two links, then its axis curves. */
    method AddGroupCurve(objName: string, grp: Group, times: seq<int>, modelId: int, layerId: int) returns (added: seq<string>)
      requires WellFormedGroup(grp, |times|) && |times| > 0
      modifies this
      ensures Emitted(State(), added) == GroupCurve(old(State()), objName, grp, times, modelId, layerId, floats)
      ensures shotName == old(shotName) && fps == old(fps) && frameCount == old(frameCount)
    {
      added := [];
      if GroupAnimated(grp, floats) {
        var nodeId := GetId(NodeKey(objName, grp.prefix));
        var defaults := Vec3(grp.axes[0].values[0], grp.axes[1].values[0], grp.axes[2].values[0]);
        var nodeLines := CurveNodeLines(nodeId, grp.prefix, defaults, floats);
        connections := connections + [Connection(nodeId, layerId, None)];
        connections := connections + [Connection(nodeId, modelId, Some(grp.property))];
        var curves := AddAxisCurves(objName, grp.prefix, grp.axes, times, nodeId);
        added := nodeLines + curves;
      }
    }

    /** `_add_animation_curves(keyframes, obj_name, lines)`; returns what it appends to `lines`. */
    method AddAnimationCurves(keyframes: seq<Keyframe>, objName: string) returns (added: seq<string>)
      requires |keyframes| < 2 || fps != 0.0
      modifies this
      ensures Emitted(State(), added) == AnimationCurves(old(State()), keyframes, objName, old(fps), floats)
      ensures shotName == old(shotName) && fps == old(fps) && frameCount == old(frameCount)
    {
      if |keyframes| < 2 {
        return [];
      }
      var modelId := GetId("Model::" + objName);
      var layerId := GetId("AnimationLayer::BaseLayer");
      ghost var start := State();
      var times := KeyTimes(keyframes, fps);
      var channels := Groups(keyframes);
      added := [];
      var g := 0;
      while g < |channels|
        invariant 0 <= g <= |channels|
        invariant Emitted(State(), added) == GroupCurves(start, objName, channels[..g], times, modelId, layerId, floats)
        invariant shotName == old(shotName) && fps == old(fps) && frameCount == old(frameCount)
      {
        var grp := channels[g];
        assert channels[..g + 1][..g] == channels[..g];
        var more := AddGroupCurve(objName, grp, times, modelId, layerId);
        added := added + more;
        g := g + 1;
      }
      assert channels[..g] == channels;
    }

    /** `_write_camera(cam, cam_name)`. */
    method WriteCamera(cam: Camera, camName: string) returns (lines: seq<string>)
      requires fps != 0.0
      modifies this
      ensures Emitted(State(), lines) == CameraRecord(old(State()), cam, camName, old(fps), floats)
      ensures shotName == old(shotName) && fps == old(fps) && frameCount == old(frameCount)
    {
      var modelId := GetId("Model::" + camName);
      var attrId := GetId("NodeAttribute::" + camName);
      var pos := InitialPosition(cam.keyframes);
      var rot := InitialRotation(cam.keyframes);
      lines := CameraAttributeLines(attrId, camName, cam.focalLength, floats)
        + ModelLines(modelId, camName, "Camera", pos, rot, "1,1,1", floats);
      connections := connections + [Connection(attrId, modelId, None)];
      connections := connections + [Connection(modelId, RootId, None)];
      var curves := AddAnimationCurves(cam.keyframes, camName);
      lines := lines + curves;
    }

    /** `_write_locator(transform, loc_name)`. */
    method WriteLocator(t: Transform, locName: string) returns (lines: seq<string>)
      requires fps != 0.0
      modifies this
      ensures Emitted(State(), lines) == LocatorRecord(old(State()), t, locName, old(fps), floats)
      ensures shotName == old(shotName) && fps == old(fps) && frameCount == old(frameCount)
    {
      var modelId := GetId("Model::" + locName);
      var attrId := GetId("NodeAttribute::" + locName);
      var pos := InitialPosition(t.keyframes);
      var rot := InitialRotation(t.keyframes);
      var scale := InitialScale(t.keyframes);
      lines := NullAttributeLines(attrId, locName)
        + ModelLines(modelId, locName, "Null", pos, rot, Fixed3(scale, floats), floats);
      connections := connections + [Connection(attrId, modelId, None)];
      connections := connections + [Connection(modelId, RootId, None)];
      var curves := AddAnimationCurves(t.keyframes, locName);
      lines := lines + curves;
    }

    /** The `pos_array` loop of `_write_mesh`. */
    static method FlattenLoop(converted: seq<Vec3>) returns (posArray: seq<real>)
      ensures posArray == FlattenPositions(converted)
    {
      posArray := [];
      var i := 0;
      while i < |converted|
        invariant 0 <= i <= |converted|
        invariant posArray == FlattenPositions(converted[..i])
      {
        var p := converted[i];
        assert converted[..i + 1][..i] == converted[..i];
        posArray := posArray + [p.x, p.y, p.z];
        i := i + 1;
      }
      assert converted[..i] == converted;
    }

    /**
     * The inner `for i in range(count - 1)` loop of `_write_mesh` for one
     * polygon starting at `offset`; `None` where Python raises `IndexError`.
     */
    static method PolygonBodyLoop(indices: seq<int>, offset: int, m: int) returns (r: Option<seq<int>>)
      ensures r == PolygonBody(indices, offset, m)
    {
      var body: seq<int> := [];
      var i := 0;
      while i < m
        invariant 0 <= i <= if m < 0 then 0 else m
        invariant PolygonBody(indices, offset, i) == Some(body)
      {
        var v := PyIndex(indices, offset + i);
        if v.None? {
          BodyFailure(indices, offset, i + 1, m);
          return None;
        }
        body := body + [v.value];
        i := i + 1;
      }
      r := Some(body);
    }

    /**
     * The `poly_indices` loop of `_write_mesh`, with its running offset;
     * `None` where Python raises `IndexError`.
     */
    static method PolygonLoop(indices: seq<int>, counts: seq<int>) returns (r: Option<seq<int>>)
      ensures r == PolygonVertexIndex(indices, counts)
    {
      var poly: seq<int> := [];
      var idxOffset := 0;
      var k := 0;
      while k < |counts|
        invariant 0 <= k <= |counts|
        invariant PolygonVertexIndex(indices, counts[..k]) == Some(poly)
        invariant idxOffset == Sum(counts[..k])
      {
        var count := counts[k];
        assert counts[..k + 1][..k] == counts[..k];
        var body := PolygonBodyLoop(indices, idxOffset, count - 1);
        if body.None? {
          PrefixFailure(indices, counts, k + 1);
          return None;
        }
        var last := PyIndex(indices, idxOffset + count - 1);
        if last.None? {
          PrefixFailure(indices, counts, k + 1);
          return None;
        }
        assert poly + (body.value + [-last.value - 1]) == poly + body.value + [-last.value - 1];
        poly := poly + body.value + [-last.value - 1];
        idxOffset := idxOffset + count;
        k := k + 1;
      }
      assert counts[..k] == counts;
      r := Some(poly);
    }

    /** `_write_mesh(mesh, mesh_name)`; `None` where Python raises `IndexError`. */
    method WriteMesh(mesh: Mesh, meshName: string) returns (r: Option<seq<string>>)
      requires fps != 0.0
      modifies this
      ensures r.None? <==> MeshRecord(old(State()), mesh, meshName, old(fps), floats).None?
      ensures r.Some? ==> Emitted(State(), r.value) == MeshRecord(old(State()), mesh, meshName, old(fps), floats).value
      ensures r.None? ==> State() == MeshIds(old(State()), meshName)
      ensures shotName == old(shotName) && fps == old(fps) && frameCount == old(frameCount)
    {
      var modelId := GetId("Model::" + meshName);
      var geomId := GetId("Geometry::" + meshName);
      var pos := InitialPosition(mesh.keyframes);
      var rot := InitialRotation(mesh.keyframes);
      var scale := InitialScale(mesh.keyframes);
      var posArray := FlattenLoop(ConvertedPositions(mesh.geometry.positions));
      var poly := PolygonLoop(mesh.geometry.indices, mesh.geometry.counts);
      if poly.None? {
        return None;
      }
      var lines := GeometryLines(geomId, meshName, posArray, poly.value, floats)
        + ModelLines(modelId, meshName, "Mesh", pos, rot, Fixed3(scale, floats), floats);
      connections := connections + [Connection(geomId, modelId, None)];
      connections := connections + [Connection(modelId, RootId, None)];
      if mesh.animationType == TransformOnly {
        var curves := AddAnimationCurves(mesh.keyframes, meshName);
        lines := lines + curves;
      }
      r := Some(lines);
    }

    /** `_write_animation_stack()`. */
    method WriteAnimationStack() returns (lines: seq<string>)
      requires fps != 0.0
      modifies this
      ensures shotName == old(shotName) && fps == old(fps) && frameCount == old(frameCount)
      ensures Emitted(State(), lines) == AnimationStackRecord(old(State()), fps, frameCount)
    {
      var stackId := GetId("AnimationStack::Take001");
      var layerId := GetId("AnimationLayer::BaseLayer");
      lines := AnimationStackLines(stackId, layerId, EndTime(frameCount, fps));
      connections := connections + [Connection(layerId, stackId, None)];
    }

    /** The camera loop of `export`. */
    method WriteCameras(cams: seq<Camera>) returns (lines: seq<string>)
      requires fps != 0.0
      modifies this
      ensures shotName == old(shotName) && fps == old(fps) && frameCount == old(frameCount)
      ensures Emitted(State(), lines) == CameraRecords(old(State()), cams, fps, floats)
    {
      ghost var start := State();
      lines := [];
      var i := 0;
      while i < |cams|
        invariant 0 <= i <= |cams|
        invariant shotName == old(shotName) && fps == old(fps) && frameCount == old(frameCount)
        invariant Emitted(State(), lines) == CameraRecords(start, cams[..i], fps, floats)
      {
        var cam := cams[i];
        ghost var prefix := cams[..i + 1];
        assert prefix[..i] == cams[..i] && prefix[i] == cam && |prefix| == i + 1;
        var camName := SanitizeName(DisplayName(cam.name, cam.parentName));
        assert camName == CameraName(cam);
        ghost var before := State();
        var more := WriteCamera(cam, camName);
        assert Emitted(State(), more) == CameraRecord(before, cam, CameraName(cam), fps, floats);
        assert CameraRecords(start, prefix, fps, floats) == Emitted(State(), lines + more);
        lines := lines + more;
        i := i + 1;
      }
      assert cams[..i] == cams;
    }

    /**
     * The mesh loop of `export`: vertex-animated meshes are only named in
     * `skipped`; `None` where a mesh raises `IndexError`.
     */
    method WriteMeshes(meshes: seq<Mesh>) returns (r: Option<seq<string>>, skipped: seq<string>)
      requires fps != 0.0
      modifies this
      ensures shotName == old(shotName) && fps == old(fps) && frameCount == old(frameCount)
      ensures r.None? <==> MeshRecords(old(State()), meshes, fps, floats).None?
      ensures r.Some? ==> Some(Emitted(State(), r.value)) == MeshRecords(old(State()), meshes, fps, floats)
      ensures r.Some? ==> skipped == VertexAnimatedNames(meshes)
      ensures r.None? ==> State() == MeshFailureSession(old(State()), meshes, fps, floats)
    {
      ghost var start := State();
      var lines: seq<string> := [];
      skipped := [];
      var i := 0;
      while i < |meshes|
        invariant 0 <= i <= |meshes|
        invariant shotName == old(shotName) && fps == old(fps) && frameCount == old(frameCount)
        invariant MeshRecords(start, meshes[..i], fps, floats) == Some(Emitted(State(), lines))
        invariant skipped == VertexAnimatedNames(meshes[..i])
      {
        var mesh := meshes[i];
        assert meshes[..i + 1][..i] == meshes[..i];
        var meshName := SanitizeName(DisplayName(mesh.name, mesh.parentName));
        assert meshName == MeshName(mesh);
        ghost var prefix := meshes[..i + 1];
        assert prefix[..i] == meshes[..i] && prefix[i] == mesh && |prefix| == i + 1;
        if mesh.animationType == VertexAnimated {
          assert VertexAnimatedNames(prefix) == VertexAnimatedNames(meshes[..i]) + [MeshName(mesh)];
          assert MeshRecords(start, prefix, fps, floats) == MeshRecords(start, meshes[..i], fps, floats);
          skipped := skipped + [meshName];
          assert skipped == VertexAnimatedNames(prefix);
        } else {
          assert VertexAnimatedNames(prefix) == VertexAnimatedNames(meshes[..i]);
          ghost var before := State();
          var more := WriteMesh(mesh, meshName);
          if more.None? {
            MeshFailureStep(start, meshes, fps, floats, i, Emitted(before, lines));
            return None, skipped;
          }
          assert Emitted(State(), more.value) == MeshRecord(before, mesh, MeshName(mesh), fps, floats).value;
          assert MeshRecords(start, prefix, fps, floats) == Some(Emitted(State(), lines + more.value));
          lines := lines + more.value;
          assert skipped == VertexAnimatedNames(prefix);
        }
        i := i + 1;
      }
      assert meshes[..i] == meshes;
      r := Some(lines);
    }

    /** The locator loop of `export`: transforms without keyframes are skipped. */
    method WriteLocators(xs: seq<Transform>) returns (lines: seq<string>)
      requires fps != 0.0
      modifies this
      ensures shotName == old(shotName) && fps == old(fps) && frameCount == old(frameCount)
      ensures Emitted(State(), lines) == LocatorRecords(old(State()), xs, fps, floats)
    {
      ghost var start := State();
      lines := [];
      var i := 0;
      while i < |xs|
        invariant 0 <= i <= |xs|
        invariant shotName == old(shotName) && fps == old(fps) && frameCount == old(frameCount)
        invariant Emitted(State(), lines) == LocatorRecords(start, xs[..i], fps, floats)
      {
        var t := xs[i];
        assert xs[..i + 1][..i] == xs[..i];
        var xformName := SanitizeName(t.name);
        if t.keyframes != [] {
          ghost var before := State();
          var more := WriteLocator(t, xformName);
          assert Emitted(State(), more) == LocatorRecord(before, t, SanitizeName(t.name), fps, floats);
          lines := lines + more;
        }
        i := i + 1;
      }
      assert xs[..i] == xs;
    }

    /**
     * `export(scene_data, output_path, shot_name)`: resets the session,
     * then writes definitions, cameras, meshes, locators, the animation
     * stack and the connections. Whatever state the exporter was in, the
     * outcome is the one the reset session determines.
     */
    method Export(scene: SceneData, shot: string) returns (outcome: Outcome)
      modifies this
      ensures outcome == FbxWriters.Export(scene, shot, floats)
      ensures outcome.Success? ==> State() == outcome.session
      ensures outcome.Failure? ==> State() == FailureSession(scene, floats)
      ensures shotName == shot && fps == scene.metadata.fps && frameCount == scene.metadata.frameCount
    {
      shotName := shot;
      fps := scene.metadata.fps;
      frameCount := scene.metadata.frameCount;
      objectIds := map[];
      connections := [];
      nextId := IdBase;
      if fps == 0.0 {
        ExportZeroRate(scene, shot, floats);
        return Fail(DivisionByZero);
      }
      outcome := WriteDocument(scene, shot);
    }

    /** The body of `export` once the settings are taken from the scene and the session is reset. */
    method WriteDocument(scene: SceneData, shot: string) returns (outcome: Outcome)
      requires State() == Fresh() && fps == scene.metadata.fps != 0.0 && frameCount == scene.metadata.frameCount
      modifies this
      ensures outcome == FbxWriters.Export(scene, shot, floats)
      ensures outcome.Success? ==> State() == outcome.session
      ensures outcome.Failure? ==> State() == FailureSession(scene, floats)
      ensures shotName == old(shotName) && fps == old(fps) && frameCount == old(frameCount)
    {
      var numMeshes := |EmbeddableMeshes(scene.meshes)|;
      var defs := DefinitionsLines(|scene.cameras|, numMeshes, |scene.transforms|);
      var camLines := WriteCameras(scene.cameras);
      assert fps == scene.metadata.fps && frameCount == scene.metadata.frameCount;
      ghost var cams := Emitted(State(), camLines);
      var meshLines, skipped := WriteMeshes(scene.meshes);
      assert fps == scene.metadata.fps && frameCount == scene.metadata.frameCount;
      if meshLines.None? {
        ExportMeshFailure(scene, shot, floats, cams);
        return Fail(IndexOutOfRange);
      }
      ghost var meshes := Emitted(State(), meshLines.value);
      var locLines := WriteLocators(scene.transforms);
      assert fps == scene.metadata.fps && frameCount == scene.metadata.frameCount;
      ghost var locs := Emitted(State(), locLines);
      var stackLines := WriteAnimationStack();
      assert fps == scene.metadata.fps && frameCount == scene.metadata.frameCount;
      ghost var stack := Emitted(State(), stackLines);
      var connectionLines := WriteConnections();
      var lines := defs + ["Objects:  {"] + camLines + meshLines.value + locLines + stackLines + ["}", ""] + connectionLines;
      assert State() == stack.session && connectionLines == ConnectionLines(stack.session.connections);
      assert skipped == VertexAnimatedNames(scene.meshes);
      var message := CompletionMessage(shot, skipped);
      ExportSuccess(scene, shot, floats, cams, meshes, locs, stack);
      outcome := Success(lines, message, skipped, State());
    }
  }

  /** A zero frame rate fails before anything is written. */
  lemma ExportZeroRate(scene: SceneData, shot: string, f: FloatFormat)
    requires scene.metadata.fps == 0.0
    ensures Export(scene, shot, f) == Fail(DivisionByZero)
  {
  }

  /** The mesh loop's failure is the export's. */
  lemma ExportMeshFailure(scene: SceneData, shot: string, f: FloatFormat, cams: Emitted)
    requires scene.metadata.fps != 0.0
    requires cams == CameraRecords(Fresh(), scene.cameras, scene.metadata.fps, f)
    requires MeshRecords(cams.session, scene.meshes, scene.metadata.fps, f).None?
    ensures Export(scene, shot, f) == Fail(IndexOutOfRange)
    ensures FailureSession(scene, f) == MeshFailureSession(cams.session, scene.meshes, scene.metadata.fps, f)
  {
  }

  /** A successful export is the concatenation of its sections, in order. */
  lemma ExportSuccess(scene: SceneData, shot: string, f: FloatFormat, cams: Emitted, meshes: Emitted, locs: Emitted, stack: Emitted)
    requires scene.metadata.fps != 0.0
    requires cams == CameraRecords(Fresh(), scene.cameras, scene.metadata.fps, f)
    requires MeshRecords(cams.session, scene.meshes, scene.metadata.fps, f) == Some(meshes)
    requires locs == LocatorRecords(meshes.session, scene.transforms, scene.metadata.fps, f)
    requires stack == AnimationStackRecord(locs.session, scene.metadata.fps, scene.metadata.frameCount)
    ensures Export(scene, shot, f) == Success(
      DefinitionsLines(|scene.cameras|, |EmbeddableMeshes(scene.meshes)|, |scene.transforms|)
        + ["Objects:  {"] + cams.lines + meshes.lines + locs.lines + stack.lines + ["}", ""]
        + ConnectionLines(stack.session.connections),
      CompletionMessage(shot, VertexAnimatedNames(scene.meshes)),
      VertexAnimatedNames(scene.meshes),
      stack.session)
  {
  }

  /** The first `i + 1` connection lines are the first `i` and the next one. */
  lemma ConnectionLinesStep(cs: seq<Connection>, i: nat)
    requires i < |cs|
    ensures seq(i + 1, j requires 0 <= j < i + 1 => ConnectionLine(cs[j]))
      == seq(i, j requires 0 <= j < i => ConnectionLine(cs[j])) + [ConnectionLine(cs[i])]
  {
  }

  /** A mesh that raises after the meshes before it have been written ends the loop in its own two ids. */
  lemma MeshFailureStep(s: Session, meshes: seq<Mesh>, fps: real, f: FloatFormat, i: nat, e: Emitted)
    requires fps != 0.0 && i < |meshes|
    requires MeshRecords(s, meshes[..i], fps, f) == Some(e)
    requires meshes[i].animationType != VertexAnimated
    requires MeshRecord(e.session, meshes[i], MeshName(meshes[i]), fps, f).None?
    ensures MeshRecords(s, meshes, fps, f).None?
    ensures MeshFailureSession(s, meshes, fps, f) == MeshIds(e.session, MeshName(meshes[i]))
  {
    var prefix := meshes[..i + 1];
    assert prefix[..i] == meshes[..i] && prefix[i] == meshes[i];
    assert MeshRecords(s, prefix, fps, f).None?;
    assert MeshFailureSession(s, prefix, fps, f) == MeshIds(e.session, MeshName(meshes[i]));
    PrefixMeshFailure(s, meshes, fps, f, i + 1);
  }

  /** Once the mesh loop fails on a prefix of the meshes, it fails on all of them, and stops where the prefix did. */
  lemma {:induction false} PrefixMeshFailure(s: Session, meshes: seq<Mesh>, fps: real, f: FloatFormat, k: nat)
    requires fps != 0.0 && k <= |meshes|
    requires MeshRecords(s, meshes[..k], fps, f).None?
    ensures MeshRecords(s, meshes, fps, f).None?
    ensures MeshFailureSession(s, meshes, fps, f) == MeshFailureSession(s, meshes[..k], fps, f)
    decreases |meshes| - k
  {
    if k < |meshes| {
      assert meshes[..k + 1][..k] == meshes[..k];
      PrefixMeshFailure(s, meshes, fps, f, k + 1);
    } else {
      assert meshes[..k] == meshes;
    }
  }
}
