/**
 * The `MayaMAExporter` object. Its one piece of state is `shot_name`,
 * which `export` sets before the header is written; the block builders
 * are methods whose loops are proved to produce the lines the functions
 * of MayaNodes, MayaAnimation and MayaDocument describe. A division by a
 * zero frame rate, which raises in the exporter, makes a method return
 * `None`.
 */
module MayaExport {
  import opened Basics
  import opened Text
  import opened Naming
  import opened MayaScene
  import opened MayaNodes
  import opened MayaAnimation
  import MayaDocument

  class MayaMAExporter {
    var shotName: string
    /** How the host formats and rounds floats. */
    const floats: FloatFormat

    /** `__init__`: no shot yet. */
    constructor(floats: FloatFormat)
      ensures this.floats == floats && shotName == ""
    {
      this.floats := floats;
      shotName := "";
    }

    /** `_set_mesh_vertices(mesh_node, positions)`. */
    method SetMeshVertices(positions: seq<Vec3>) returns (lines: seq<string>)
      ensures lines == VertexLines(positions, floats)
    {
      var header := VertexHeaderPrefix + IntToString(|positions| - 1) + "]\"";
      lines := [header];
      var i := 0;
      while i < |positions|
        invariant 0 <= i <= |positions|
        invariant lines == [header] + seq(i, j requires 0 <= j < i => ItemLine(VertexText(positions[j], floats)))
      {
        var pos := positions[i];
        lines := lines + [ItemLine(VertexText(pos, floats))];
        assert seq(i + 1, j requires 0 <= j < i + 1 => ItemLine(VertexText(positions[j], floats)))
            == seq(i, j requires 0 <= j < i => ItemLine(VertexText(positions[j], floats))) + [ItemLine(VertexText(positions[i], floats))];
        i := i + 1;
      }
      lines := lines[..|lines| - 1] + [lines[|lines| - 1] + ";"];
    }

    /** The `for count in counts` / `for idx in indices` loops of `_set_mesh_faces`. */
    static method IntBlock(header: string, xs: seq<int>) returns (lines: seq<string>)
      ensures lines == TerminatedBlock(header, IntItems(xs))
    {
      lines := [header];
      var i := 0;
      while i < |xs|
        invariant 0 <= i <= |xs|
        invariant lines == [header] + seq(i, j requires 0 <= j < i => ItemLine(IntToString(xs[j])))
      {
        lines := lines + [ItemLine(IntToString(xs[i]))];
        assert seq(i + 1, j requires 0 <= j < i + 1 => ItemLine(IntToString(xs[j])))
            == seq(i, j requires 0 <= j < i => ItemLine(IntToString(xs[j]))) + [ItemLine(IntToString(xs[i]))];
        i := i + 1;
      }
      var items := IntItems(xs);
      assert seq(|items|, j requires 0 <= j < |items| => ItemLine(items[j]))
          == seq(i, j requires 0 <= j < i => ItemLine(IntToString(xs[j])));
      lines := lines[..|lines| - 1] + [lines[|lines| - 1] + ";"];
    }

    /** `_set_mesh_faces(mesh_node, indices, counts)`: the face counts, then the face indices. */
    method SetMeshFaces(indices: seq<int>, counts: seq<int>) returns (lines: seq<string>)
      ensures lines == FaceLines(indices, counts)
    {
      var countLines := IntBlock(SizedHeaderPrefix + IntToString(|counts|) + " \".fc[0:" + IntToString(|counts| - 1) + "]\"", counts);
      var indexLines := IntBlock(SizedHeaderPrefix + IntToString(|indices|) + " \".pt[0:" + IntToString(|indices| - 1) + "]\"", indices);
      lines := countLines + indexLines;
    }

    /** `_create_anim_curve(...)`: the lines and the curve's name; keys come from `zip(times, values)`. */
    method CreateAnimCurve(nodeName: string, attrName: string, attrType: string, times: seq<int>, values: seq<real>)
      returns (lines: seq<string>, curveName: string)
      ensures lines == AnimCurveLines(nodeName, attrName, attrType, times, values, floats)
      ensures curveName == AnimCurveName(nodeName, attrName)
    {
      curveName := nodeName + "_" + attrName;
      var header := AnimCurveHeader(nodeName, attrName, attrType, |times|);
      var n := Min(|times|, |values|);
      lines := header;
      var i := 0;
      while i < |times| && i < |values|
        invariant 0 <= i <= n
        invariant lines == header + seq(i, j requires 0 <= j < i => ItemLine(KeyText(times[j], values[j], floats)))
      {
        lines := lines + [ItemLine(KeyText(times[i], values[i], floats))];
        assert seq(i + 1, j requires 0 <= j < i + 1 => ItemLine(KeyText(times[j], values[j], floats)))
            == seq(i, j requires 0 <= j < i => ItemLine(KeyText(times[j], values[j], floats))) + [ItemLine(KeyText(times[i], values[i], floats))];
        i := i + 1;
      }
      assert i == n;
      assert |lines| == 4 + n;
      lines := lines[..|lines| - 1] + [lines[|lines| - 1] + ";"];
    }

    /**
     * `_animate_transform(reader, obj, node_name, fps, frame_count)`:
     * sample the nine channels at every frame, then emit a curve for each
     * channel that varies. `None` is the `frame / fps` division by zero.
     */
    method AnimateTransform(at: real -> Sample, nodeName: string, fps: real, frameCount: int) returns (r: Option<seq<string>>)
      ensures r.None? <==> fps == 0.0 && frameCount >= 1
      ensures r.Some? ==> r.value == TransformAnimationLines(at, nodeName, fps, frameCount, floats)
    {
      var times: seq<int> := [];
      var tx: seq<real>, ty: seq<real>, tz: seq<real> := [], [], [];
      var rx: seq<real>, ry: seq<real>, rz: seq<real> := [], [], [];
      var sx: seq<real>, sy: seq<real>, sz: seq<real> := [], [], [];
      var frame := 1;
      while frame <= frameCount
        invariant 1 <= frame <= (if frameCount < 0 then 0 else frameCount) + 1
        invariant frame > 1 ==> fps != 0.0
        invariant times == Times(frame - 1)
        invariant tx == Values(at, frame - 1, fps, 0) && ty == Values(at, frame - 1, fps, 1) && tz == Values(at, frame - 1, fps, 2)
        invariant rx == Values(at, frame - 1, fps, 3) && ry == Values(at, frame - 1, fps, 4) && rz == Values(at, frame - 1, fps, 5)
        invariant sx == Values(at, frame - 1, fps, 6) && sy == Values(at, frame - 1, fps, 7) && sz == Values(at, frame - 1, fps, 8)
      {
        if fps == 0.0 {
          return None;
        }
        var timeSec := frame as real / fps;
        var s := at(timeSec);
        times := times + [frame];
        tx, ty, tz := tx + [s.pos.x], ty + [s.pos.y], tz + [s.pos.z];
        rx, ry, rz := rx + [s.rot.x], ry + [s.rot.y], rz + [s.rot.z];
        sx, sy, sz := sx + [s.scale.x], sy + [s.scale.y], sz + [s.scale.z];
        frame := frame + 1;
      }
      assert Times(frame - 1) == Times(frameCount);
      var channels := [tx, ty, tz, rx, ry, rz, sx, sy, sz];
      assert channels == SampledChannels(at, frameCount, fps);
      var lines := CurveLoop(nodeName, times, channels);
      return Some(lines);
    }

    /** The `for attr_name, attr_type, shortname, values in attrs` loop. */
    method CurveLoop(nodeName: string, times: seq<int>, channels: seq<seq<real>>) returns (lines: seq<string>)
      requires |channels| == |TransformAttrs|
      ensures lines == CurveBlocks(nodeName, times, channels, floats, |TransformAttrs|)
    {
      lines := [];
      var k := 0;
      while k < |TransformAttrs|
        invariant 0 <= k <= |TransformAttrs|
        invariant lines == CurveBlocks(nodeName, times, channels, floats, k)
      {
        var attr := TransformAttrs[k];
        assert CurveBlocks(nodeName, times, channels, floats, k + 1)
            == lines + (if Varying(channels[k], floats) then CurveBlock(nodeName, attr, times, channels[k], floats) else []);
        if Varying(channels[k], floats) {
          var curveLines, curveName := CreateAnimCurve(nodeName, attr.name, attr.curveType, times, channels[k]);
          assert curveLines + ConnectAnimCurveLines(curveName, nodeName, attr.shortName)
              == CurveBlock(nodeName, attr, times, channels[k], floats);
          lines := lines + (curveLines + ConnectAnimCurveLines(curveName, nodeName, attr.shortName));
        }
        k := k + 1;
      }
    }

    /** `_export_camera(reader, cam, cam_name, fps, frame_count)`. */
    method ExportCamera(cam: CameraObject, camName: string, fps: real, frameCount: int) returns (r: Option<seq<string>>)
      ensures r == MayaDocument.CameraBlock(cam, camName, fps, frameCount, floats)
    {
      var lines := TransformNodeLines(camName, None);
      if fps == 0.0 {
        return None;
      }
      var props := cam.propertiesAt(1.0 / fps);
      var focalLength := Property(props, "focal_length", 35.0);
      var hAperture := Property(props, "h_aperture", 36.0);
      var vAperture := Property(props, "v_aperture", 24.0);
      lines := lines + CameraNodeLines(camName + "Shape", camName, focalLength, hAperture, vAperture, floats);
      var animation := AnimateTransform(cam.transformAt, camName, fps, frameCount);
      return Some(lines + animation.value);
    }

    /** `_export_static_mesh(reader, mesh, mesh_name, fps, frame_count, is_animated)`. */
    method ExportStaticMesh(mesh: MeshObject, meshName: string, fps: real, frameCount: int, isAnimated: bool) returns (r: Option<seq<string>>)
      ensures r == MayaDocument.StaticMeshBlock(mesh, meshName, fps, frameCount, isAnimated, floats)
    {
      var meshShape := meshName + "Shape";
      var lines := TransformNodeLines(meshName, None) + MeshNodeLines(meshShape, meshName);
      if fps == 0.0 {
        return None;
      }
      var data := mesh.dataAt(1.0 / fps);
      var vertexLines := SetMeshVertices(data.positions);
      var faceLines := SetMeshFaces(data.indices, data.counts);
      lines := lines + vertexLines + faceLines;
      var animation: seq<string> := [];
      if isAnimated {
        var sampled := AnimateTransform(mesh.transformAt, meshName, fps, frameCount);
        animation := sampled.value;
      }
      return Some(lines + animation);
    }

    /** The camera loop of `_generate_scene_nodes`. */
    method CameraLoop(cameras: seq<CameraObject>, fps: real, frameCount: int) returns (r: Option<seq<string>>)
      ensures r == MayaDocument.CameraNodes(cameras, fps, frameCount, floats)
    {
      var lines: seq<string> := [];
      var i := 0;
      while i < |cameras|
        invariant 0 <= i <= |cameras|
        invariant MayaDocument.CameraNodes(cameras[..i], fps, frameCount, floats) == Some(lines)
      {
        var cam := cameras[i];
        assert cameras[..i + 1][..i] == cameras[..i];
        var camName := SanitizeName(cam.name);
        var block := ExportCamera(cam, camName, fps, frameCount);
        if block.None? {
          MayaDocument.CameraNodesFailure(cameras, fps, frameCount, floats);
          return None;
        }
        lines := lines + block.value;
        i := i + 1;
      }
      assert cameras[..i] == cameras;
      return Some(lines);
    }

    /** The mesh loop of `_generate_scene_nodes`: Alembic reference or embedded geometry, by name. */
    method MeshLoop(meshes: seq<MeshObject>, fps: real, frameCount: int, anim: AnimationData, abcFilePath: Option<string>)
      returns (r: Option<seq<string>>)
      ensures r == MayaDocument.MeshNodes(meshes, fps, frameCount, anim, abcFilePath, floats)
    {
      var lines: seq<string> := [];
      var m := 0;
      while m < |meshes|
        invariant 0 <= m <= |meshes|
        invariant MayaDocument.MeshNodes(meshes[..m], fps, frameCount, anim, abcFilePath, floats) == Some(lines)
      {
        var mesh := meshes[m];
        assert meshes[..m + 1][..m] == meshes[..m];
        assert MayaDocument.MeshNodes(meshes[..m + 1], fps, frameCount, anim, abcFilePath, floats)
            == match MayaDocument.MeshBlock(mesh, fps, frameCount, anim, abcFilePath, floats)
               case None => None
               case Some(block) => Some(lines + block);
        var meshName := SanitizeName(mesh.name);
        if meshName in anim.vertexAnimated {
          lines := lines + MayaDocument.VertexAnimatedMeshBlock(meshName, abcFilePath);
        } else {
          var isAnimated := meshName in anim.transformOnly;
          var block := ExportStaticMesh(mesh, meshName, fps, frameCount, isAnimated);
          if block.None? {
            MayaDocument.MeshNodesFailure(meshes, fps, frameCount, anim, abcFilePath, floats);
            assert MayaDocument.Embedded(meshes[m], anim);
            return None;
          }
          lines := lines + block.value;
        }
        m := m + 1;
      }
      assert meshes[..m] == meshes;
      return Some(lines);
    }

    /** `_generate_scene_nodes(...)`: every camera, then every mesh. */
    method GenerateSceneNodes(archive: Archive, fps: real, frameCount: int, anim: AnimationData, abcFilePath: Option<string>)
      returns (r: Option<seq<string>>)
      ensures r == MayaDocument.SceneNodes(archive, fps, frameCount, anim, abcFilePath, floats)
    {
      var camLines := CameraLoop(archive.cameras, fps, frameCount);
      if camLines.None? {
        return None;
      }
      var meshLines := MeshLoop(archive.meshes, fps, frameCount, anim, abcFilePath);
      if meshLines.None? {
        return None;
      }
      return Some(camLines.value + meshLines.value);
    }

    /**
     * `export(reader, output_path, shot_name, fps, frame_count,
     * animation_data, abc_file_path)`: records the shot name, then builds
     * the document; the writing of the file is not modelled.
     */
    method Export(archive: Archive, shot: string, fps: real, frameCount: int, anim: AnimationData,
                  abcFilePath: Option<string>, timestamp: string) returns (outcome: MayaDocument.MayaOutcome)
      modifies this
      ensures shotName == shot
      ensures outcome == MayaDocument.Export(archive, shot, fps, frameCount, anim, abcFilePath, timestamp, floats)
    {
      shotName := shot;
      var lines := HeaderLines(shotName, timestamp);
      var hasVertexAnim := |anim.vertexAnimated| > 0;
      lines := lines + RequirementsLines(hasVertexAnim);
      lines := lines + UnitsLines(fps, floats);
      lines := lines + FileInfoLines(abcFilePath);
      var nodes := GenerateSceneNodes(archive, fps, frameCount, anim, abcFilePath);
      if nodes.None? {
        return MayaDocument.Failure(MayaDocument.FailureMessage);
      }
      lines := lines + nodes.value;
      var message := "Maya MA export complete: " + BaseName(shot + ".ma");
      if hasVertexAnim {
        message := message + MayaDocument.AlembicWarning;
      }
      return MayaDocument.Success(lines, message);
    }
  }

}
