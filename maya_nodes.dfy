/**
 * The line builders of the Maya ASCII writer: the document preamble, the
 * node-creation statements, the geometry blocks and the animation curves.
 * Blocks that the writer builds one element at a time and closes with
 * `lines[-1] += ';'` are specified here as functions; the writer methods
 * in MayaExport are proved to produce them.
 */
module MayaNodes {
  import opened Basics
  import opened Text
  import opened MelString

  const MayaVersion: string := "2020"

  /** `_generate_header()`; the timestamp comes from the clock. */
  function HeaderLines(shotName: string, timestamp: string): seq<string>
  {
    [ "//Maya ASCII " + MayaVersion + " scene",
      "//Name: " + shotName + ".ma",
      "//Last modified: " + timestamp,
      "//Codeset: UTF-8" ]
  }

  const MayaRequirement: string := "requires maya \"2020\";"
  const AbcImportRequirement: string := "requires \"AbcImport\" \"1.0\";"

  /** `_generate_requirements(has_vertex_anim)`. */
  function RequirementsLines(hasVertexAnim: bool): seq<string>
  {
    [MayaRequirement] + (if hasVertexAnim then [AbcImportRequirement] else [])
  }

  /** The Alembic import plug-in is required exactly when some mesh is vertex-animated. */
  lemma RequirementsAbcImport(hasVertexAnim: bool)
    ensures RequirementsLines(hasVertexAnim)[0] == MayaRequirement
    ensures |RequirementsLines(hasVertexAnim)| == if hasVertexAnim then 2 else 1
    ensures AbcImportRequirement in RequirementsLines(hasVertexAnim) <==> hasVertexAnim
  {
    assert |MayaRequirement| != |AbcImportRequirement|;
  }

  /** `_generate_units(fps)`. */
  function UnitsLines(fps: real, f: FloatFormat): seq<string>
  {
    [ "currentUnit -l centimeter -a degree -t film;",
      "currentUnit -t \"" + f.repr(fps) + "fps\";" ]
  }

  const SourceAlembicPrefix: string := "fileInfo \"sourceAlembic\" \""

  /** `_generate_file_info(abc_filename)`: the source file is recorded when one is given. */
  function FileInfoLines(abcFileName: Option<string>): seq<string>
  {
    [ "fileInfo \"application\" \"abcConverter\";",
      "fileInfo \"product\" \"Maya 2020\";",
      "fileInfo \"version\" \"2020\";" ]
    + (if Truthy(abcFileName) then [SourceAlembicPrefix + MelEscape(abcFileName) + "\";"] else [])
  }

  /**
   * The source line is present exactly for a non-empty file name, and its
   * quoted payload is a well-formed MEL literal that reads back as the
   * path with forward slashes.
   */
  lemma FileInfoSource(abcFileName: Option<string>)
    ensures |FileInfoLines(abcFileName)| == if Truthy(abcFileName) then 4 else 3
    ensures Truthy(abcFileName) ==>
      var line := FileInfoLines(abcFileName)[3];
      var payload := line[|SourceAlembicPrefix|..|line| - 2];
      && StartsWith(line, SourceAlembicPrefix)
      && EndsWith(line, "\";")
      && (forall i :: 0 <= i < |payload| && payload[i] == '"' ==> i > 0 && payload[i - 1] == '\\')
      && Unescape(payload) == Replace(abcFileName.value, '\\', "/")
  {
    if Truthy(abcFileName) {
      var e := MelEscape(abcFileName);
      var line := FileInfoLines(abcFileName)[3];
      assert line == SourceAlembicPrefix + e + "\";";
      assert line[..|SourceAlembicPrefix|] == SourceAlembicPrefix;
      assert line[|line| - 2..] == "\";";
      assert line[|SourceAlembicPrefix|..|line| - 2] == e;
      MelEscapeCorrect(abcFileName.value);
    }
  }

  // ---- Node creation ----

  const TransformPrefix: string := "createNode transform -n \""
  const ParentFlag: string := " -p \""

  /** `_create_transform_node(name, parent)`: the parent flag only when `parent` is truthy. */
  function TransformNodeLines(name: string, parent: Option<string>): seq<string>
  {
    if Truthy(parent) then [TransformPrefix + name + "\"" + ParentFlag + parent.value + "\";"]
    else [TransformPrefix + name + "\";"]
  }

  /** Reads the parent back out of a transform statement for the node `name`. */
  function ParentOf(line: string, name: string): Option<string>
  {
    var head := TransformPrefix + name + "\"";
    if !StartsWith(line, head) then None
    else
      var rest := line[|head|..];
      if StartsWith(rest, ParentFlag) && EndsWith(rest, "\";") && |rest| >= |ParentFlag| + 2
      then Some(rest[|ParentFlag|..|rest| - 2])
      else None
  }

  /** The statement names a parent exactly when one is given, and it is that parent. */
  lemma TransformNodeParent(name: string, parent: Option<string>)
    ensures |TransformNodeLines(name, parent)| == 1
    ensures ParentOf(TransformNodeLines(name, parent)[0], name) == if Truthy(parent) then parent else None
  {
    var line := TransformNodeLines(name, parent)[0];
    var head := TransformPrefix + name + "\"";
    assert line[..|head|] == head;
    var rest := line[|head|..];
    if Truthy(parent) {
      assert rest == ParentFlag + parent.value + "\";";
      assert rest[..|ParentFlag|] == ParentFlag;
      assert rest[|rest| - 2..] == "\";";
      assert rest[|ParentFlag|..|rest| - 2] == parent.value;
    } else {
      assert rest == ";";
    }
  }

  /** `_create_camera_node(...)`: apertures are converted from centimetres to millimetres. */
  function CameraNodeLines(name: string, parent: string, focalLength: real, hAperture: real, vAperture: real, f: FloatFormat): seq<string>
  {
    [ "createNode camera -n \"" + name + "\" -p \"" + parent + "\";",
      "    setAttr -k off \".v\";",
      "    setAttr \".fl\" " + f.repr(focalLength) + ";",
      "    setAttr \".hfa\" " + f.repr(hAperture * 10.0) + ";",
      "    setAttr \".vfa\" " + f.repr(vAperture * 10.0) + ";",
      "    setAttr \".fd\" 5.0;",
      "    setAttr \".coi\" 5.0;" ]
  }

  /** `_create_mesh_node(name, parent_transform)`. */
  function MeshNodeLines(name: string, parent: string): seq<string>
  {
    [ "createNode mesh -n \"" + name + "\" -p \"" + parent + "\";",
      "    setAttr -k off \".v\";",
      "    setAttr \".vir\" yes;",
      "    setAttr \".vif\" yes;",
      "    setAttr \".uvst[0].uvsn\" -type \"string\" \"map1\";",
      "    setAttr \".cuvs\" -type \"string\" \"map1\";" ]
  }

  function AlembicNodeName(meshName: string): string
  {
    meshName + "_alembicNode"
  }

  /** `_create_alembic_reference_node(...)`: the lines; the node is `AlembicNodeName(meshName)`. */
  function AlembicReferenceLines(meshName: string, abcFilePath: Option<string>): seq<string>
  {
    [ "createNode AlembicNode -n \"" + AlembicNodeName(meshName) + "\";",
      "    setAttr \".abc_File\" -type \"string\" \"" + MelEscape(abcFilePath) + "\";",
      "    setAttr \".abc_layerFileName\" -type \"string\" \"\";",
      "    setAttr \".time\" 1;" ]
  }

  // ---- Geometry blocks ----

  /** `f'        {item}'`: one element line of a block. */
  function ItemLine(item: string): string
  {
    "        " + item
  }

  /** A header followed by one line per element, the last line terminated. */
  function TerminatedBlock(header: string, items: seq<string>): seq<string>
  {
    Terminate([header] + seq(|items|, i requires 0 <= i < |items| => ItemLine(items[i])))
  }

  /**
   * One header line and one line per element, in order; the last line is
   * the only one that gains `;` (the header itself when there are no
   * elements).
   */
  lemma TerminatedBlockShape(header: string, items: seq<string>)
    ensures var r := TerminatedBlock(header, items);
      && |r| == |items| + 1
      && r[0] == (if items == [] then header + ";" else header)
      && (forall i :: 0 <= i < |items| - 1 ==> r[i + 1] == ItemLine(items[i]))
      && (items != [] ==> r[|items|] == ItemLine(items[|items| - 1]) + ";")
      && EndsWith(r[|r| - 1], ";")
  {
    var r := TerminatedBlock(header, items);
    var last := r[|r| - 1];
    assert last[|last| - 1..] == ";";
  }

  const VertexHeaderPrefix: string := "    setAttr \".vt[0:"
  const SizedHeaderPrefix: string := "    setAttr -s "

  function VertexText(p: Vec3, f: FloatFormat): string
  {
    f.repr(p.x) + " " + f.repr(p.y) + " " + f.repr(p.z)
  }

  /** `_set_mesh_vertices(mesh_node, positions)`. */
  function VertexLines(positions: seq<Vec3>, f: FloatFormat): seq<string>
  {
    TerminatedBlock(VertexHeaderPrefix + IntToString(|positions| - 1) + "]\"",
      seq(|positions|, i requires 0 <= i < |positions| => VertexText(positions[i], f)))
  }

  function IntItems(xs: seq<int>): (r: seq<string>)
    ensures |r| == |xs|
  {
    seq(|xs|, i requires 0 <= i < |xs| => IntToString(xs[i]))
  }

  /** The face-count block of `_set_mesh_faces`. */
  function FaceCountLines(counts: seq<int>): seq<string>
  {
    TerminatedBlock(SizedHeaderPrefix + IntToString(|counts|) + " \".fc[0:" + IntToString(|counts| - 1) + "]\"", IntItems(counts))
  }

  /** The face-index block of `_set_mesh_faces`. */
  function FaceIndexLines(indices: seq<int>): seq<string>
  {
    TerminatedBlock(SizedHeaderPrefix + IntToString(|indices|) + " \".pt[0:" + IntToString(|indices| - 1) + "]\"", IntItems(indices))
  }

  /** `_set_mesh_faces(mesh_node, indices, counts)`. */
  function FaceLines(indices: seq<int>, counts: seq<int>): seq<string>
  {
    FaceCountLines(counts) + FaceIndexLines(indices)
  }

  /** The vertex block: its header, then one line per vertex, closed by `;`. */
  lemma VertexBlockShape(positions: seq<Vec3>, f: FloatFormat)
    ensures |VertexLines(positions, f)| == |positions| + 1
    ensures StartsWith(VertexLines(positions, f)[0], VertexHeaderPrefix)
    ensures VertexLines(positions, f)[0]
         == VertexHeaderPrefix + IntToString(|positions| - 1) + "]\"" + (if positions == [] then ";" else "")
    ensures forall i :: 0 <= i < |positions| - 1 ==> VertexLines(positions, f)[i + 1] == ItemLine(VertexText(positions[i], f))
    ensures positions != [] ==> VertexLines(positions, f)[|positions|] == ItemLine(VertexText(positions[|positions| - 1], f)) + ";"
    ensures EndsWith(VertexLines(positions, f)[|positions|], ";")
  {
    var items := seq(|positions|, i requires 0 <= i < |positions| => VertexText(positions[i], f));
    var rest := IntToString(|positions| - 1) + "]\"";
    var header := VertexHeaderPrefix + rest;
    TerminatedBlockShape(header, items);
    var v0 := VertexLines(positions, f)[0];
    if positions == [] {
      assert v0 == VertexHeaderPrefix + (rest + ";");
    } else {
      assert v0 == VertexHeaderPrefix + rest;
      assert header + "" == header;
    }
    assert v0[..|VertexHeaderPrefix|] == VertexHeaderPrefix;
  }

  /** The face-count block: its header, then one line per face count, closed by `;`. */
  lemma FaceCountBlockShape(counts: seq<int>)
    ensures |FaceCountLines(counts)| == |counts| + 1
    ensures FaceCountLines(counts)[0]
         == SizedHeaderPrefix + IntToString(|counts|) + " \".fc[0:" + IntToString(|counts| - 1) + "]\"" + (if counts == [] then ";" else "")
    ensures forall i :: 0 <= i < |counts| - 1 ==> FaceCountLines(counts)[i + 1] == ItemLine(IntToString(counts[i]))
    ensures counts != [] ==> FaceCountLines(counts)[|counts|] == ItemLine(IntToString(counts[|counts| - 1])) + ";"
    ensures EndsWith(FaceCountLines(counts)[|counts|], ";")
  {
    var header := SizedHeaderPrefix + IntToString(|counts|) + " \".fc[0:" + IntToString(|counts| - 1) + "]\"";
    IntBlockShape(header, counts);
  }

  /** The face-index block: its header, then one line per index, closed by `;`. */
  lemma FaceIndexBlockShape(indices: seq<int>)
    ensures |FaceIndexLines(indices)| == |indices| + 1
    ensures FaceIndexLines(indices)[0]
         == SizedHeaderPrefix + IntToString(|indices|) + " \".pt[0:" + IntToString(|indices| - 1) + "]\"" + (if indices == [] then ";" else "")
    ensures forall i :: 0 <= i < |indices| - 1 ==> FaceIndexLines(indices)[i + 1] == ItemLine(IntToString(indices[i]))
    ensures indices != [] ==> FaceIndexLines(indices)[|indices|] == ItemLine(IntToString(indices[|indices| - 1])) + ";"
    ensures EndsWith(FaceIndexLines(indices)[|indices|], ";")
  {
    var header := SizedHeaderPrefix + IntToString(|indices|) + " \".pt[0:" + IntToString(|indices| - 1) + "]\"";
    IntBlockShape(header, indices);
  }

  /** A terminated block of integers, one per line after the header. */
  lemma IntBlockShape(header: string, xs: seq<int>)
    ensures var r := TerminatedBlock(header, IntItems(xs));
      && |r| == |xs| + 1
      && r[0] == header + (if xs == [] then ";" else "")
      && (forall i :: 0 <= i < |xs| - 1 ==> r[i + 1] == ItemLine(IntToString(xs[i])))
      && (xs != [] ==> r[|xs|] == ItemLine(IntToString(xs[|xs| - 1])) + ";")
      && EndsWith(r[|xs|], ";")
  {
    TerminatedBlockShape(header, IntItems(xs));
    assert header + "" == header;
  }

  // ---- Animation curves ----

  function AnimCurveName(nodeName: string, attrName: string): string
  {
    nodeName + "_" + attrName
  }

  function KeyText(frame: int, value: real, f: FloatFormat): string
  {
    IntToString(frame) + " " + f.repr(value)
  }

  function Min(a: int, b: int): int
  {
    if a <= b then a else b
  }

  /** The four header lines of `_create_anim_curve`; the key count is `len(times)`. */
  function AnimCurveHeader(nodeName: string, attrName: string, attrType: string, keyCount: int): seq<string>
  {
    [ "createNode animCurve" + attrType + " -n \"" + AnimCurveName(nodeName, attrName) + "\";",
      "    setAttr \".tan\" 18;",
      "    setAttr \".wgt\" no;",
      "    setAttr -s " + IntToString(keyCount) + " \".ktv[0:" + IntToString(keyCount - 1) + "]\"" ]
  }

  /** `_create_anim_curve(...)`: one key per pair of `zip(times, values)`. */
  function AnimCurveLines(nodeName: string, attrName: string, attrType: string, times: seq<int>, values: seq<real>, f: FloatFormat): seq<string>
  {
    var n := Min(|times|, |values|);
    Terminate(AnimCurveHeader(nodeName, attrName, attrType, |times|)
      + seq(n, i requires 0 <= i < n => ItemLine(KeyText(times[i], values[i], f))))
  }

  /**
   * The curve is named `<node>_<attr>` and typed `animCurve<type>`; it is
   * four header lines and one key line per zipped pair, and the final
   * line ends with `;`.
   */
  lemma AnimCurveShape(nodeName: string, attrName: string, attrType: string, times: seq<int>, values: seq<real>, f: FloatFormat)
    ensures var r := AnimCurveLines(nodeName, attrName, attrType, times, values, f);
      var n := Min(|times|, |values|);
      && |r| == 4 + n
      && r[0] == "createNode animCurve" + attrType + " -n \"" + nodeName + "_" + attrName + "\";"
      && (forall i :: 0 <= i < n - 1 ==> r[4 + i] == ItemLine(KeyText(times[i], values[i], f)))
      && (n > 0 ==> r[3 + n] == ItemLine(KeyText(times[n - 1], values[n - 1], f)) + ";")
      && EndsWith(r[|r| - 1], ";")
  {
    var n := Min(|times|, |values|);
    var header := AnimCurveHeader(nodeName, attrName, attrType, |times|);
    var keys := seq(n, i requires 0 <= i < n => ItemLine(KeyText(times[i], values[i], f)));
    TerminateAfterHeader(header, keys);
    var r := AnimCurveLines(nodeName, attrName, attrType, times, values, f);
    assert r == Terminate(header + keys);
    forall i | 0 <= i < n - 1
      ensures r[4 + i] == ItemLine(KeyText(times[i], values[i], f))
    {
      assert r[|header| + i] == keys[i];
    }
  }

  /**
   * The three setAttr lines of a curve: linear tangents, no weights, and
   * `len(times)` keys `.ktv[0:len(times)-1]`; the last takes the `;` when
   * there is no key.
   */
  lemma AnimCurveHeaderShape(nodeName: string, attrName: string, attrType: string, times: seq<int>, values: seq<real>, f: FloatFormat)
    ensures var r := AnimCurveLines(nodeName, attrName, attrType, times, values, f);
      && |r| >= 4
      && r[1] == "    setAttr \".tan\" 18;"
      && r[2] == "    setAttr \".wgt\" no;"
      && r[3] == "    setAttr -s " + IntToString(|times|) + " \".ktv[0:" + IntToString(|times| - 1) + "]\""
        + (if Min(|times|, |values|) == 0 then ";" else "")
  {
    var n := Min(|times|, |values|);
    var header := AnimCurveHeader(nodeName, attrName, attrType, |times|);
    var keys := seq(n, i requires 0 <= i < n => ItemLine(KeyText(times[i], values[i], f)));
    TerminateAfterHeader(header, keys);
    assert AnimCurveLines(nodeName, attrName, attrType, times, values, f) == Terminate(header + keys);
  }

  /** Terminating a header followed by items: the header lines are kept, and the last line, item or header, gains `;`. */
  lemma TerminateAfterHeader(header: seq<string>, items: seq<string>)
    requires |header| >= 2
    ensures var r := Terminate(header + items);
      && |r| == |header| + |items|
      && r[0] == header[0]
      && (forall i :: 0 <= i < |header| - 1 ==> r[i] == header[i])
      && r[|header| - 1] == header[|header| - 1] + (if items == [] then ";" else "")
      && (forall i :: 0 <= i < |items| - 1 ==> r[|header| + i] == items[i])
      && (items != [] ==> r[|header| + |items| - 1] == items[|items| - 1] + ";")
      && EndsWith(r[|r| - 1], ";")
  {
    var lines := header + items;
    TerminateShape(lines);
    assert lines[0] == header[0];
    assert forall i :: 0 <= i < |header| ==> lines[i] == header[i];
    assert forall i :: 0 <= i < |items| ==> lines[|header| + i] == items[i];
    assert header[|header| - 1] + "" == header[|header| - 1];
  }

  /** `_connect_anim_curve(curve_name, node_name, attr_shortname)`. */
  function ConnectAnimCurveLines(curveName: string, nodeName: string, shortName: string): seq<string>
  {
    ["connectAttr \"" + curveName + ".o\" \"" + nodeName + "." + shortName + "\";"]
  }
}
