/**
 * `_add_animation_curves`: the AnimationCurveNode and AnimationCurve
 * records of one object and the connections that wire them to the
 * object's model and to the base animation layer. A group (translation
 * `T` or rotation `R`) gets a curve node when any of its three axes is
 * animated, and each animated axis gets its own curve.
 */
module FbxCurves {
  import opened Basics
  import opened Text
  import opened ZUp
  import opened Channels
  import opened FbxScene
  import opened FbxSession

  /** FBX time units per second. */
  const KTimePerSecond: int := 46186158000

  /** Python `int(x)` on a float: truncation toward zero. */
  function Trunc(x: real): (r: int)
    ensures x >= 0.0 ==> r as real <= x < r as real + 1.0
    ensures x < 0.0 ==> r as real - 1.0 < x <= r as real
  {
    if x >= 0.0 then x.Floor else -((-x).Floor)
  }

  /** `int(frame * (46186158000 / fps))`, on exact reals. */
  function KTime(frame: real, fps: real): int
    requires fps != 0.0
  {
    Trunc(frame * (KTimePerSecond as real / fps))
  }

  /** One axis of a group: its letter and the value of every keyframe. */
  datatype Axis = Axis(name: string, values: seq<real>)

  /** `(prefix, prop_name, axes)`, one entry of the `channels` list. */
  datatype Group = Group(prefix: string, property: string, axes: seq<Axis>)

  /** The `what` coordinate (0, 1, 2 for x, y, z) of a triple. */
  function Component(v: Vec3, what: nat): real
    requires what < 3
  {
    if what == 0 then v.x else if what == 1 then v.y else v.z
  }

  /** `tx`, `ty`, `tz` (or `rx`, `ry`, `rz`): one converted component per keyframe. */
  function AxisValues(kfs: seq<Keyframe>, rotation: bool, what: nat): (r: seq<real>)
    requires what < 3
    ensures |r| == |kfs|
  {
    seq(|kfs|, i requires 0 <= i < |kfs| =>
      Component(if rotation then RotationToZUp(kfs[i].rotation) else PositionToZUp(kfs[i].position), what))
  }

  function GroupOf(kfs: seq<Keyframe>, prefix: string, property: string, rotation: bool): Group
  {
    Group(prefix, property, [
      Axis("X", AxisValues(kfs, rotation, 0)),
      Axis("Y", AxisValues(kfs, rotation, 1)),
      Axis("Z", AxisValues(kfs, rotation, 2))])
  }

  /** The `channels` list: translation then rotation, both converted to Z-up; scale has none. */
  function Groups(kfs: seq<Keyframe>): seq<Group>
  {
    [GroupOf(kfs, "T", "Lcl Translation", false), GroupOf(kfs, "R", "Lcl Rotation", true)]
  }

  /** Every axis of the group carries one value per key time, and there are three axes. */
  predicate WellFormedGroup(g: Group, n: nat)
  {
    |g.axes| == 3 && forall i :: 0 <= i < 3 ==> |g.axes[i].values| == n
  }

  /** `is_animated(vals)`: more than one distinct `round(v, 4)`. */
  predicate AxisAnimated(a: Axis, f: FloatFormat)
  {
    IsAnimated(a.values, f.round4)
  }

  /** `any(is_animated(vals) for _, vals in axes)`. */
  predicate GroupAnimated(g: Group, f: FloatFormat)
  {
    exists i :: 0 <= i < |g.axes| && AxisAnimated(g.axes[i], f)
  }

  function IntStrings(ts: seq<int>): seq<string>
  {
    seq(|ts|, i requires 0 <= i < |ts| => IntToString(ts[i]))
  }

  function FixedStrings(vs: seq<real>, f: FloatFormat): seq<string>
  {
    seq(|vs|, i requires 0 <= i < |vs| => f.fixed6(vs[i]))
  }

  /** The seven lines of one AnimationCurveNode record, with the first value of each axis as default. */
  function CurveNodeLines(id: int, prefix: string, defaults: Vec3, f: FloatFormat): seq<string>
  {
    [ "    AnimationCurveNode: " + IntToString(id) + ", \"AnimCurveNode::" + prefix + "\", \"\" {",
      "        Properties70:  {",
      "            P: \"d|X\", \"Number\", \"\", \"A\"," + f.fixed6(defaults.x),
      "            P: \"d|Y\", \"Number\", \"\", \"A\"," + f.fixed6(defaults.y),
      "            P: \"d|Z\", \"Number\", \"\", \"A\"," + f.fixed6(defaults.z),
      "        }",
      "    }" ]
  }

  /** The nineteen lines of one AnimationCurve record. */
  function CurveLines(id: int, times: seq<int>, vals: seq<real>, f: FloatFormat): seq<string>
  {
    var n := |times|;
    [ "    AnimationCurve: " + IntToString(id) + ", \"AnimCurve::\", \"\" {",
      "        Default: 0",
      "        KeyVer: 4009" ]
    + Block("        KeyTime: *", n, Join(",", IntStrings(times)))
    + Block("        KeyValueFloat: *", n, Join(",", FixedStrings(vals, f)))
    + Block("        KeyAttrFlags: *", n, Join(",", Repeat("24836", n)))
    + Block("        KeyAttrDataFloat: *", n * 4, Join(",", Repeat("0,0,0,0", n)))
    + Block("        KeyAttrRefCount: *", n, Join(",", Repeat("1", n)))
    + [ "    }" ]
  }

  /** An FBX array property: its declared `*count`, then its entries on one line. */
  function Block(header: string, count: int, entries: string): seq<string>
  {
    [ header + IntToString(count) + " {",
      "            a: " + entries,
      "        }" ]
  }

  /** An FBX array property whose declared `*N` is the number of entries it lists. */
  function ArrayBlock(header: string, items: seq<string>): seq<string>
  {
    Block(header, |items|, Join(",", items))
  }

  /**
   * Every array of a curve declares as many entries as it lists: the key
   * count for times, values, flags and reference counts, and four times
   * that for the tangent data.
   */
  lemma CurveArraysConsistent(id: int, times: seq<int>, vals: seq<real>, f: FloatFormat)
    requires |vals| == |times|
    ensures var c := CurveLines(id, times, vals, f);
      && |c| == 19
      && c[3..6] == ArrayBlock("        KeyTime: *", IntStrings(times))
      && c[6..9] == ArrayBlock("        KeyValueFloat: *", FixedStrings(vals, f))
      && c[9..12] == ArrayBlock("        KeyAttrFlags: *", Repeat("24836", |times|))
      && c[12..15] == ArrayBlock("        KeyAttrDataFloat: *", Repeat("0", 4 * |times|))
      && c[15..18] == ArrayBlock("        KeyAttrRefCount: *", Repeat("1", |times|))
  {
    var n := |times|;
    JoinRepeatedQuads(n);
    assert |IntStrings(times)| == n && |FixedStrings(vals, f)| == n;
    assert |Repeat("0", 4 * n)| == n * 4;
    assert |Repeat("24836", n)| == n && |Repeat("1", n)| == n;
    BlocksOfCurve(
      [ "    AnimationCurve: " + IntToString(id) + ", \"AnimCurve::\", \"\" {",
        "        Default: 0",
        "        KeyVer: 4009" ],
      Block("        KeyTime: *", n, Join(",", IntStrings(times))),
      Block("        KeyValueFloat: *", n, Join(",", FixedStrings(vals, f))),
      Block("        KeyAttrFlags: *", n, Join(",", Repeat("24836", n))),
      Block("        KeyAttrDataFloat: *", n * 4, Join(",", Repeat("0,0,0,0", n))),
      Block("        KeyAttrRefCount: *", n, Join(",", Repeat("1", n))),
      [ "    }" ]);
  }

  /** Where the five arrays sit among the nineteen lines of a curve. */
  lemma BlocksOfCurve<T>(a: seq<T>, b1: seq<T>, b2: seq<T>, b3: seq<T>, b4: seq<T>, b5: seq<T>, z: seq<T>)
    requires |a| == 3 && |b1| == 3 && |b2| == 3 && |b3| == 3 && |b4| == 3 && |b5| == 3 && |z| == 1
    ensures var c := a + b1 + b2 + b3 + b4 + b5 + z;
      && |c| == 19
      && c[3..6] == b1 && c[6..9] == b2 && c[9..12] == b3 && c[12..15] == b4 && c[15..18] == b5
  {
    var c := a + b1 + b2 + b3 + b4 + b5 + z;
    assert c[3..6] == b1;
    assert c[6..9] == b2;
    assert c[9..12] == b3;
    assert c[12..15] == b4;
    assert c[15..18] == b5;
  }

  /** What one writer step adds: the new session and the lines it emitted. */
  datatype Emitted = Emitted(session: Session, lines: seq<string>)

  /** The identifier-table key of the curve node of group `prefix` of `obj`. */
  function NodeKey(obj: string, prefix: string): string
  {
    "AnimCurveNode::" + obj + "_" + prefix
  }

  /** The identifier-table key of the curve of axis `axis` of group `prefix` of `obj`. */
  function CurveKey(obj: string, prefix: string, axis: string): string
  {
    "AnimCurve::" + obj + "_" + prefix + "_" + axis
  }

  /** The per-axis loop of one group, as a left fold over `axes`. */
  function AxisCurves(s: Session, obj: string, prefix: string, axes: seq<Axis>, times: seq<int>, nodeId: int, f: FloatFormat): Emitted
    decreases |axes|
  {
    if axes == [] then Emitted(s, [])
    else
      var e := AxisCurves(s, obj, prefix, axes[..|axes| - 1], times, nodeId, f);
      var a := axes[|axes| - 1];
      if !AxisAnimated(a, f) then e
      else
        var c := GetId(e.session, CurveKey(obj, prefix, a.name));
        Emitted(Connect(c.session, c.id, nodeId, Some("d|" + a.name)), e.lines + CurveLines(c.id, times, a.values, f))
  }

  /** One iteration of the group loop: curve node, its two links, then the axis curves. */
  function GroupCurve(s: Session, obj: string, g: Group, times: seq<int>, modelId: int, layerId: int, f: FloatFormat): Emitted
    requires WellFormedGroup(g, |times|) && |times| > 0
  {
    if !GroupAnimated(g, f) then Emitted(s, [])
    else
      var node := GetId(s, NodeKey(obj, g.prefix));
      var linked := Connect(Connect(node.session, node.id, layerId, None), node.id, modelId, Some(g.property));
      var defaults := Vec3(g.axes[0].values[0], g.axes[1].values[0], g.axes[2].values[0]);
      var curves := AxisCurves(linked, obj, g.prefix, g.axes, times, node.id, f);
      Emitted(curves.session, CurveNodeLines(node.id, g.prefix, defaults, f) + curves.lines)
  }

  /** The group loop, as a left fold over `gs`. */
  function GroupCurves(s: Session, obj: string, gs: seq<Group>, times: seq<int>, modelId: int, layerId: int, f: FloatFormat): Emitted
    requires forall i :: 0 <= i < |gs| ==> WellFormedGroup(gs[i], |times|)
    requires |times| > 0
    decreases |gs|
  {
    if gs == [] then Emitted(s, [])
    else
      var e := GroupCurves(s, obj, gs[..|gs| - 1], times, modelId, layerId, f);
      var g := GroupCurve(e.session, obj, gs[|gs| - 1], times, modelId, layerId, f);
      Emitted(g.session, e.lines + g.lines)
  }

  function KeyTimes(kfs: seq<Keyframe>, fps: real): (r: seq<int>)
    requires fps != 0.0
    ensures |r| == |kfs|
  {
    seq(|kfs|, i requires 0 <= i < |kfs| => KTime(kfs[i].frame, fps))
  }

  /**
   * `_add_animation_curves(keyframes, obj_name, lines)`: nothing with fewer
   * than two keyframes; otherwise the model and layer identifiers are
   * fetched (or allocated) and the groups emitted. The source divides by
   * `fps` only past the early return.
   */
  function AnimationCurves(s: Session, kfs: seq<Keyframe>, obj: string, fps: real, f: FloatFormat): Emitted
    requires |kfs| < 2 || fps != 0.0
  {
    if |kfs| < 2 then Emitted(s, [])
    else
      var model := GetId(s, "Model::" + obj);
      var layer := GetId(model.session, "AnimationLayer::BaseLayer");
      GroupCurves(layer.session, obj, Groups(kfs), KeyTimes(kfs, fps), model.id, layer.id, f)
  }

  // ---- Counting what was emitted ----

  /** The registry entries `t` holds beyond those of `s`. */
  function NewLinks(s: Session, t: Session): seq<Connection>
  {
    if |s.connections| <= |t.connections| then t.connections[|s.connections|..] else []
  }

  /** Number of registry entries with exactly this property. */
  function CountProperty(cs: seq<Connection>, p: Option<string>): nat
  {
    if cs == [] then 0
    else CountProperty(cs[..|cs| - 1], p) + (if cs[|cs| - 1].property == p then 1 else 0)
  }

  /** A curve-to-node link: its property is `d|<axis>`. */
  predicate AxisLink(c: Connection)
  {
    c.property.Some? && StartsWith(c.property.value, "d|")
  }

  function CountAxisLinks(cs: seq<Connection>): nat
  {
    if cs == [] then 0
    else CountAxisLinks(cs[..|cs| - 1]) + (if AxisLink(cs[|cs| - 1]) then 1 else 0)
  }

  function AnimatedAxes(axes: seq<Axis>, f: FloatFormat): nat
  {
    if axes == [] then 0
    else AnimatedAxes(axes[..|axes| - 1], f) + (if AxisAnimated(axes[|axes| - 1], f) then 1 else 0)
  }

  /** The letters of the animated axes, in axis order. */
  function AnimatedAxisNames(axes: seq<Axis>, f: FloatFormat): seq<string>
  {
    if axes == [] then []
    else AnimatedAxisNames(axes[..|axes| - 1], f) + (if AxisAnimated(axes[|axes| - 1], f) then [axes[|axes| - 1].name] else [])
  }

  function AnimatedGroups(gs: seq<Group>, f: FloatFormat): nat
  {
    if gs == [] then 0
    else AnimatedGroups(gs[..|gs| - 1], f) + (if GroupAnimated(gs[|gs| - 1], f) then 1 else 0)
  }

  /** Curves over all groups: the animated axes of each. */
  function CurveCount(gs: seq<Group>, f: FloatFormat): nat
  {
    if gs == [] then 0
    else CurveCount(gs[..|gs| - 1], f) + AnimatedAxes(gs[|gs| - 1].axes, f)
  }

  /** Animated groups whose property is `p`. */
  function GroupsWithProperty(gs: seq<Group>, p: string, f: FloatFormat): nat
  {
    if gs == [] then 0
    else
      var g := gs[|gs| - 1];
      GroupsWithProperty(gs[..|gs| - 1], p, f) + (if GroupAnimated(g, f) && g.property == p then 1 else 0)
  }

  lemma {:induction false} CountsAppend(a: seq<Connection>, b: seq<Connection>, p: Option<string>)
    ensures CountProperty(a + b, p) == CountProperty(a, p) + CountProperty(b, p)
    ensures CountAxisLinks(a + b) == CountAxisLinks(a) + CountAxisLinks(b)
    decreases |b|
  {
    if b == [] {
      assert a + b == a;
    } else {
      assert (a + b)[..|a + b| - 1] == a + b[..|b| - 1];
      assert (a + b)[|a + b| - 1] == b[|b| - 1];
      CountsAppend(a, b[..|b| - 1], p);
    }
  }

  lemma NewLinksSplit(s: Session, e: Session, t: Session)
    requires s.connections <= e.connections && e.connections <= t.connections
    ensures s.connections <= t.connections
    ensures NewLinks(s, t) == NewLinks(s, e) + NewLinks(e, t)
  {
  }

  lemma {:induction false} GroupAnimatedIffAxisCount(axes: seq<Axis>, f: FloatFormat)
    ensures AnimatedAxes(axes, f) > 0 <==> exists i :: 0 <= i < |axes| && AxisAnimated(axes[i], f)
    decreases |axes|
  {
    if axes != [] {
      var front := axes[..|axes| - 1];
      GroupAnimatedIffAxisCount(front, f);
      if exists i :: 0 <= i < |front| && AxisAnimated(front[i], f) {
        var i :| 0 <= i < |front| && AxisAnimated(front[i], f);
        assert axes[i] == front[i];
      }
      if exists i :: 0 <= i < |axes| && AxisAnimated(axes[i], f) {
        var i :| 0 <= i < |axes| && AxisAnimated(axes[i], f);
        if i < |front| {
          assert front[i] == axes[i];
        }
      }
    }
  }

  // ---- The session invariant ----

  lemma GetIdAllocated(s: Session, name: string)
    requires Valid(s)
    ensures Valid(GetId(s, name).session)
    ensures Allocated(GetId(s, name).session, GetId(s, name).id)
  {
    GetIdValid(s, name);
  }

  lemma {:induction false} AxisCurvesValid(s: Session, obj: string, prefix: string, axes: seq<Axis>, times: seq<int>, nodeId: int, f: FloatFormat)
    requires Valid(s) && Allocated(s, nodeId)
    ensures Valid(AxisCurves(s, obj, prefix, axes, times, nodeId, f).session)
    ensures Extends(s, AxisCurves(s, obj, prefix, axes, times, nodeId, f).session)
    decreases |axes|
  {
    if axes != [] {
      var front := axes[..|axes| - 1];
      var e := AxisCurves(s, obj, prefix, front, times, nodeId, f);
      AxisCurvesValid(s, obj, prefix, front, times, nodeId, f);
      var a := axes[|axes| - 1];
      if AxisAnimated(a, f) {
        var name := CurveKey(obj, prefix, a.name);
        var c := GetId(e.session, name);
        GetIdAllocated(e.session, name);
        var t := Connect(c.session, c.id, nodeId, Some("d|" + a.name));
        ConnectValid(c.session, c.id, nodeId, Some("d|" + a.name));
        ExtendsTransitive(s, e.session, c.session);
        ExtendsTransitive(s, c.session, t);
      }
    }
  }

  lemma GroupCurveValid(s: Session, obj: string, g: Group, times: seq<int>, modelId: int, layerId: int, f: FloatFormat)
    requires WellFormedGroup(g, |times|) && |times| > 0
    requires Valid(s) && Allocated(s, modelId) && Allocated(s, layerId)
    ensures Valid(GroupCurve(s, obj, g, times, modelId, layerId, f).session)
    ensures Extends(s, GroupCurve(s, obj, g, times, modelId, layerId, f).session)
  {
    if GroupAnimated(g, f) {
      var name := "AnimCurveNode::" + obj + "_" + g.prefix;
      var node := GetId(s, name);
      GetIdAllocated(s, name);
      var once := Connect(node.session, node.id, layerId, None);
      ConnectValid(node.session, node.id, layerId, None);
      var linked := Connect(once, node.id, modelId, Some(g.property));
      ConnectValid(once, node.id, modelId, Some(g.property));
      AxisCurvesValid(linked, obj, g.prefix, g.axes, times, node.id, f);
      ExtendsTransitive(s, node.session, once);
      ExtendsTransitive(s, once, linked);
      ExtendsTransitive(s, linked, GroupCurve(s, obj, g, times, modelId, layerId, f).session);
    }
  }

  lemma {:induction false} GroupCurvesValid(s: Session, obj: string, gs: seq<Group>, times: seq<int>, modelId: int, layerId: int, f: FloatFormat)
    requires forall i :: 0 <= i < |gs| ==> WellFormedGroup(gs[i], |times|)
    requires |times| > 0
    requires Valid(s) && Allocated(s, modelId) && Allocated(s, layerId)
    ensures Valid(GroupCurves(s, obj, gs, times, modelId, layerId, f).session)
    ensures Extends(s, GroupCurves(s, obj, gs, times, modelId, layerId, f).session)
    decreases |gs|
  {
    if gs != [] {
      var front := gs[..|gs| - 1];
      var e := GroupCurves(s, obj, front, times, modelId, layerId, f);
      GroupCurvesValid(s, obj, front, times, modelId, layerId, f);
      GroupCurveValid(e.session, obj, gs[|gs| - 1], times, modelId, layerId, f);
      ExtendsTransitive(s, e.session, GroupCurves(s, obj, gs, times, modelId, layerId, f).session);
    }
  }

  /** `_add_animation_curves` keeps the session invariant and only adds to the session. */
  lemma AnimationCurvesValid(s: Session, kfs: seq<Keyframe>, obj: string, fps: real, f: FloatFormat)
    requires Valid(s)
    requires |kfs| < 2 || fps != 0.0
    ensures Valid(AnimationCurves(s, kfs, obj, fps, f).session)
    ensures Extends(s, AnimationCurves(s, kfs, obj, fps, f).session)
  {
    if |kfs| >= 2 {
      var model := GetId(s, "Model::" + obj);
      GetIdAllocated(s, "Model::" + obj);
      var layer := GetId(model.session, "AnimationLayer::BaseLayer");
      GetIdAllocated(model.session, "AnimationLayer::BaseLayer");
      ExtendsTransitive(s, model.session, layer.session);
      GroupCurvesValid(layer.session, obj, Groups(kfs), KeyTimes(kfs, fps), model.id, layer.id, f);
      ExtendsTransitive(s, layer.session, AnimationCurves(s, kfs, obj, fps, f).session);
    }
  }

  // ---- What is emitted ----

  /**
   * The axis loop emits nineteen lines per animated axis and exactly one
   * link per animated axis, each from a curve to the curve node with a
   * `d|<axis>` property.
   */
  lemma {:induction false} AxisCurvesShape(s: Session, obj: string, prefix: string, axes: seq<Axis>, times: seq<int>, nodeId: int, f: FloatFormat)
    ensures var e := AxisCurves(s, obj, prefix, axes, times, nodeId, f);
      && s.connections <= e.session.connections
      && |e.lines| == 19 * AnimatedAxes(axes, f)
      && |NewLinks(s, e.session)| == AnimatedAxes(axes, f)
      && (forall c :: c in NewLinks(s, e.session) ==> AxisLink(c) && c.parent == nodeId)
    decreases |axes|
  {
    if axes != [] {
      var front := axes[..|axes| - 1];
      var e := AxisCurves(s, obj, prefix, front, times, nodeId, f);
      AxisCurvesShape(s, obj, prefix, front, times, nodeId, f);
      var a := axes[|axes| - 1];
      if AxisAnimated(a, f) {
        var c := GetId(e.session, CurveKey(obj, prefix, a.name));
        var link := Connection(c.id, nodeId, Some("d|" + a.name));
        var t := Connect(c.session, c.id, nodeId, Some("d|" + a.name));
        assert c.session.connections == e.session.connections;
        assert StartsWith("d|" + a.name, "d|");
        assert NewLinks(s, t) == NewLinks(s, e.session) + [link];
      }
    }
  }

  /** Link counts of a run of axis links, whatever the property asked about. */
  lemma {:induction false} AxisLinkCounts(cs: seq<Connection>, p: string)
    requires forall c :: c in cs ==> AxisLink(c)
    requires !StartsWith(p, "d|")
    ensures CountAxisLinks(cs) == |cs|
    ensures CountProperty(cs, None) == 0
    ensures CountProperty(cs, Some(p)) == 0
    decreases |cs|
  {
    if cs != [] {
      var last := cs[|cs| - 1];
      assert last in cs;
      assert forall c :: c in cs[..|cs| - 1] ==> c in cs;
      AxisLinkCounts(cs[..|cs| - 1], p);
    }
  }

  /** The two links of a curve node: to the layer without a property, to the model with one. */
  lemma NodeLinkCounts(c1: Connection, c2: Connection, property: string, p: string)
    requires c1.property == None && c2.property == Some(property)
    requires !StartsWith(property, "d|")
    ensures CountProperty([c1, c2], None) == 1
    ensures CountProperty([c1, c2], Some(p)) == (if property == p then 1 else 0)
    ensures CountAxisLinks([c1, c2]) == 0
  {
    var cs := [c1, c2];
    assert !AxisLink(c2);
    assert cs[..1] == [c1];
    assert [c1][..0] == [];
    assert CountProperty([c1], None) == 1 && CountProperty([c1], Some(p)) == 0 && CountAxisLinks([c1]) == 0;
  }

  /**
   * One group: nothing unless some axis is animated; otherwise the seven
   * curve-node lines and nineteen per animated axis, two links for the
   * node (to the layer with no property, to the model with the group's
   * property) and one `d|` link per animated axis.
   */
  lemma GroupCurveShape(s: Session, obj: string, g: Group, times: seq<int>, modelId: int, layerId: int, f: FloatFormat, p: string)
    requires WellFormedGroup(g, |times|) && |times| > 0
    requires !StartsWith(g.property, "d|") && !StartsWith(p, "d|")
    ensures var e := GroupCurve(s, obj, g, times, modelId, layerId, f);
      && s.connections <= e.session.connections
      && |e.lines| == (if GroupAnimated(g, f) then 7 else 0) + 19 * AnimatedAxes(g.axes, f)
      && CountProperty(NewLinks(s, e.session), None) == (if GroupAnimated(g, f) then 1 else 0)
      && CountProperty(NewLinks(s, e.session), Some(p)) == (if GroupAnimated(g, f) && g.property == p then 1 else 0)
      && CountAxisLinks(NewLinks(s, e.session)) == AnimatedAxes(g.axes, f)
  {
    GroupAnimatedIffAxisCount(g.axes, f);
    if GroupAnimated(g, f) {
      AnimatedGroupShape(s, obj, g, times, modelId, layerId, f, p);
    }
  }

  /** The animated case of `GroupCurveShape`. */
  lemma AnimatedGroupShape(s: Session, obj: string, g: Group, times: seq<int>, modelId: int, layerId: int, f: FloatFormat, p: string)
    requires WellFormedGroup(g, |times|) && |times| > 0 && GroupAnimated(g, f)
    requires !StartsWith(g.property, "d|") && !StartsWith(p, "d|")
    ensures var e := GroupCurve(s, obj, g, times, modelId, layerId, f);
      && s.connections <= e.session.connections
      && |e.lines| == 7 + 19 * AnimatedAxes(g.axes, f)
      && CountProperty(NewLinks(s, e.session), None) == 1
      && CountProperty(NewLinks(s, e.session), Some(p)) == (if g.property == p then 1 else 0)
      && CountAxisLinks(NewLinks(s, e.session)) == AnimatedAxes(g.axes, f)
  {
    var node := GetId(s, "AnimCurveNode::" + obj + "_" + g.prefix);
    var c1 := Connection(node.id, layerId, None);
    var c2 := Connection(node.id, modelId, Some(g.property));
    var linked := Connect(Connect(node.session, node.id, layerId, None), node.id, modelId, Some(g.property));
    assert linked.connections == s.connections + [c1, c2];
    var curves := AxisCurves(linked, obj, g.prefix, g.axes, times, node.id, f);
    AxisCurvesShape(linked, obj, g.prefix, g.axes, times, node.id, f);
    var tail := NewLinks(linked, curves.session);
    assert NewLinks(s, curves.session) == [c1, c2] + tail;
    NodeThenAxisLinks(c1, c2, tail, g.property, p);
    assert GroupCurve(s, obj, g, times, modelId, layerId, f)
        == Emitted(curves.session, CurveNodeLines(node.id, g.prefix, Vec3(g.axes[0].values[0], g.axes[1].values[0], g.axes[2].values[0]), f) + curves.lines);
  }

  /** Link counts of a curve node's two links followed by its axis links. */
  lemma NodeThenAxisLinks(c1: Connection, c2: Connection, tail: seq<Connection>, property: string, p: string)
    requires c1.property == None && c2.property == Some(property)
    requires !StartsWith(property, "d|") && !StartsWith(p, "d|")
    requires forall c :: c in tail ==> AxisLink(c)
    ensures CountProperty([c1, c2] + tail, None) == 1
    ensures CountProperty([c1, c2] + tail, Some(p)) == (if property == p then 1 else 0)
    ensures CountAxisLinks([c1, c2] + tail) == |tail|
  {
    AxisLinkCounts(tail, p);
    AxisLinkCounts(tail, property);
    NodeLinkCounts(c1, c2, property, p);
    CountsAppend([c1, c2], tail, None);
    CountsAppend([c1, c2], tail, Some(p));
  }

  /**
   * The whole group loop: seven lines per animated group and nineteen per
   * curve; one property-less link per animated group (to the layer), one
   * link per animated group carrying that group's property (to the model),
   * and one `d|` link per curve.
   */
  lemma {:induction false} GroupCurvesShape(s: Session, obj: string, gs: seq<Group>, times: seq<int>, modelId: int, layerId: int, f: FloatFormat, p: string)
    requires forall i :: 0 <= i < |gs| ==> WellFormedGroup(gs[i], |times|)
    requires |times| > 0
    requires forall i :: 0 <= i < |gs| ==> !StartsWith(gs[i].property, "d|")
    requires !StartsWith(p, "d|")
    ensures var e := GroupCurves(s, obj, gs, times, modelId, layerId, f);
      && s.connections <= e.session.connections
      && |e.lines| == 7 * AnimatedGroups(gs, f) + 19 * CurveCount(gs, f)
      && CountProperty(NewLinks(s, e.session), None) == AnimatedGroups(gs, f)
      && CountProperty(NewLinks(s, e.session), Some(p)) == GroupsWithProperty(gs, p, f)
      && CountAxisLinks(NewLinks(s, e.session)) == CurveCount(gs, f)
    decreases |gs|
  {
    if gs != [] {
      var front := gs[..|gs| - 1];
      var e := GroupCurves(s, obj, front, times, modelId, layerId, f);
      GroupCurvesShape(s, obj, front, times, modelId, layerId, f, p);
      var g := gs[|gs| - 1];
      GroupCurveShape(e.session, obj, g, times, modelId, layerId, f, p);
      var t := GroupCurve(e.session, obj, g, times, modelId, layerId, f);
      NewLinksSplit(s, e.session, t.session);
      CountsAppend(NewLinks(s, e.session), NewLinks(e.session, t.session), None);
      CountsAppend(NewLinks(s, e.session), NewLinks(e.session, t.session), Some(p));
    }
  }

  /** A group none of whose axes has two samples is static. */
  lemma ShortGroupStatic(g: Group, f: FloatFormat)
    requires forall i :: 0 <= i < |g.axes| ==> |g.axes[i].values| < 2
    ensures !GroupAnimated(g, f) && AnimatedAxes(g.axes, f) == 0
  {
    forall i | 0 <= i < |g.axes|
      ensures !AxisAnimated(g.axes[i], f)
    {
      ShortChannelNotAnimated(g.axes[i].values, f.round4);
    }
    GroupAnimatedIffAxisCount(g.axes, f);
  }

  /** `_add_animation_curves` with fewer than two keyframes adds no line and no link. */
  lemma TooFewKeyframes(s: Session, kfs: seq<Keyframe>, obj: string, fps: real, f: FloatFormat)
    requires |kfs| < 2
    ensures AnimationCurves(s, kfs, obj, fps, f) == Emitted(s, [])
    ensures AnimatedGroups(Groups(kfs), f) == 0 && CurveCount(Groups(kfs), f) == 0
  {
    var gs := Groups(kfs);
    ShortGroupStatic(gs[0], f);
    ShortGroupStatic(gs[1], f);
    ZeroOverStaticPair(gs, f);
  }

  lemma ZeroOverStaticPair(gs: seq<Group>, f: FloatFormat)
    requires |gs| == 2
    requires !GroupAnimated(gs[0], f) && AnimatedAxes(gs[0].axes, f) == 0
    requires !GroupAnimated(gs[1], f) && AnimatedAxes(gs[1].axes, f) == 0
    ensures AnimatedGroups(gs, f) == 0 && CurveCount(gs, f) == 0
  {
    assert gs[..1] == [gs[0]];
    assert [gs[0]][..0] == [];
    assert AnimatedGroups([gs[0]], f) == 0;
    assert CurveCount([gs[0]], f) == 0;
  }

  /**
   * `_add_animation_curves` as a whole: it emits a curve node (and its two
   * links) for each of translation and rotation exactly when one of its
   * axes is animated, a curve and a `d|` link per animated axis, and
   * never anything for scale.
   */
  lemma AnimationCurvesShape(s: Session, kfs: seq<Keyframe>, obj: string, fps: real, f: FloatFormat)
    requires |kfs| < 2 || fps != 0.0
    ensures var e := AnimationCurves(s, kfs, obj, fps, f);
      var n := NewLinks(s, e.session);
      var gs := Groups(kfs);
      && s.connections <= e.session.connections
      && |e.lines| == 7 * AnimatedGroups(gs, f) + 19 * CurveCount(gs, f)
      && CountProperty(n, Some("Lcl Translation")) == (if GroupAnimated(gs[0], f) then 1 else 0)
      && CountProperty(n, Some("Lcl Rotation")) == (if GroupAnimated(gs[1], f) then 1 else 0)
      && CountProperty(n, Some("Lcl Scaling")) == 0
      && CountProperty(n, None) == AnimatedGroups(gs, f)
      && CountAxisLinks(n) == CurveCount(gs, f)
  {
    var gs := Groups(kfs);
    assert gs[..1] == [gs[0]] && gs[..1][..0] == [];
    PropertyCountsOfGroups(kfs, f);
    if |kfs| < 2 {
      TooFewKeyframes(s, kfs, obj, fps, f);
      ShortGroupStatic(gs[0], f);
      ShortGroupStatic(gs[1], f);
    } else {
      assert !StartsWith("Lcl Translation", "d|") by { DiffersAt("Lcl Translation", "d|", 0); }
      assert !StartsWith("Lcl Rotation", "d|") by { DiffersAt("Lcl Rotation", "d|", 0); }
      assert !StartsWith("Lcl Scaling", "d|") by { DiffersAt("Lcl Scaling", "d|", 0); }
      var model := GetId(s, "Model::" + obj);
      var layer := GetId(model.session, "AnimationLayer::BaseLayer");
      assert layer.session.connections == s.connections;
      var times := KeyTimes(kfs, fps);
      GroupCurvesShape(layer.session, obj, gs, times, model.id, layer.id, f, "Lcl Translation");
      GroupCurvesShape(layer.session, obj, gs, times, model.id, layer.id, f, "Lcl Rotation");
      GroupCurvesShape(layer.session, obj, gs, times, model.id, layer.id, f, "Lcl Scaling");
    }
  }

  // ---- Where the links go ----

  /** `id` is, in the table of `t`, the curve node of one of the groups `gs` of `obj`. */
  ghost predicate IsCurveNode(t: Session, obj: string, gs: seq<Group>, id: int)
  {
    exists k :: 0 <= k < |gs| && NodeKey(obj, gs[k].prefix) in t.objectIds && t.objectIds[NodeKey(obj, gs[k].prefix)] == id
  }

  /**
   * `c` runs, in the table of `t`, from the curve of one axis of `g` into
   * the curve node of `g`, under the property `d|<axis>`.
   */
  ghost predicate IsCurveLinkOf(t: Session, obj: string, g: Group, c: Connection)
  {
    && NodeKey(obj, g.prefix) in t.objectIds && c.parent == t.objectIds[NodeKey(obj, g.prefix)]
    && exists j :: 0 <= j < |g.axes| && IsAxisCurveLink(t, obj, g.prefix, g.axes[j], c)
  }

  /** `c` runs from the curve of axis `a` of group `prefix` of `obj`, under `d|<axis>`. */
  ghost predicate IsAxisCurveLink(t: Session, obj: string, prefix: string, a: Axis, c: Connection)
  {
    && CurveKey(obj, prefix, a.name) in t.objectIds
    && c.child == t.objectIds[CurveKey(obj, prefix, a.name)]
    && c.property == Some("d|" + a.name)
  }

  /**
   * The curve wiring: a link without a property goes from a curve node to
   * the layer, a link with a non-`d|` property from a curve node to the
   * model, and a `d|` link from an axis curve into its group's curve node.
   */
  ghost predicate Wired(cs: seq<Connection>, t: Session, obj: string, gs: seq<Group>, modelId: int, layerId: int)
  {
    forall c :: c in cs ==>
      && (c.property == None ==> c.parent == layerId && IsCurveNode(t, obj, gs, c.child))
      && (c.property.Some? && !AxisLink(c) ==> c.parent == modelId && IsCurveNode(t, obj, gs, c.child))
      && (AxisLink(c) ==> IsCurveNode(t, obj, gs, c.parent) && exists k :: 0 <= k < |gs| && IsCurveLinkOf(t, obj, gs[k], c))
  }

  /** Each animated letter is the name of an animated axis. */
  lemma {:induction false} AnimatedAxisNameAt(axes: seq<Axis>, f: FloatFormat, i: int)
    requires 0 <= i < |AnimatedAxisNames(axes, f)|
    ensures exists j :: 0 <= j < |axes| && axes[j].name == AnimatedAxisNames(axes, f)[i] && AxisAnimated(axes[j], f)
    decreases |axes|
  {
    var front := axes[..|axes| - 1];
    var names := AnimatedAxisNames(front, f);
    if i < |names| {
      AnimatedAxisNameAt(front, f, i);
      var j :| 0 <= j < |front| && front[j].name == names[i] && AxisAnimated(front[j], f);
      assert axes[j] == front[j];
    } else {
      assert axes[|axes| - 1].name == AnimatedAxisNames(axes, f)[i];
    }
  }

  lemma IsCurveLinkOfLift(t1: Session, t2: Session, obj: string, g: Group, c: Connection)
    requires IsCurveLinkOf(t1, obj, g, c) && Extends(t1, t2)
    ensures IsCurveLinkOf(t2, obj, g, c)
  {
    var j :| 0 <= j < |g.axes| && IsAxisCurveLink(t1, obj, g.prefix, g.axes[j], c);
    assert IsAxisCurveLink(t2, obj, g.prefix, g.axes[j], c);
  }

  lemma {:induction false} AxisCurvesExtends(s: Session, obj: string, prefix: string, axes: seq<Axis>, times: seq<int>, nodeId: int, f: FloatFormat)
    ensures Extends(s, AxisCurves(s, obj, prefix, axes, times, nodeId, f).session)
    decreases |axes|
  {
    if axes != [] {
      var front := axes[..|axes| - 1];
      var e := AxisCurves(s, obj, prefix, front, times, nodeId, f);
      AxisCurvesExtends(s, obj, prefix, front, times, nodeId, f);
      var a := axes[|axes| - 1];
      if AxisAnimated(a, f) {
        var c := GetId(e.session, CurveKey(obj, prefix, a.name));
        var t := Connect(c.session, c.id, nodeId, Some("d|" + a.name));
        ExtendsTransitive(s, e.session, c.session);
        ExtendsTransitive(s, c.session, t);
      }
    }
  }

  /**
   * The `d|` links of one group, read against the identifier table `ids`:
   * for each axis letter, in order, a link from that axis's curve to the
   * curve node under the property `d|<letter>`.
   */
  function AxisLinksFor(ids: map<string, int>, obj: string, prefix: string, names: seq<string>, nodeId: int): seq<Connection>
    requires forall i :: 0 <= i < |names| ==> CurveKey(obj, prefix, names[i]) in ids
  {
    seq(|names|, i requires 0 <= i < |names| => Connection(ids[CurveKey(obj, prefix, names[i])], nodeId, Some("d|" + names[i])))
  }

  /** Appending a letter appends its link. */
  lemma AxisLinksSnoc(ids: map<string, int>, obj: string, prefix: string, names: seq<string>, name: string, nodeId: int)
    requires forall i :: 0 <= i < |names| ==> CurveKey(obj, prefix, names[i]) in ids
    requires CurveKey(obj, prefix, name) in ids
    ensures forall i :: 0 <= i < |names + [name]| ==> CurveKey(obj, prefix, (names + [name])[i]) in ids
    ensures AxisLinksFor(ids, obj, prefix, names + [name], nodeId)
      == AxisLinksFor(ids, obj, prefix, names, nodeId) + [Connection(ids[CurveKey(obj, prefix, name)], nodeId, Some("d|" + name))]
  {
    var all := names + [name];
    assert forall i :: 0 <= i < |names| ==> all[i] == names[i];
    assert all[|names|] == name;
  }

  /** The links read against a table are the same read against any table that extends it. */
  lemma AxisLinksStable(ids: map<string, int>, later: map<string, int>, obj: string, prefix: string, names: seq<string>, nodeId: int)
    requires forall i :: 0 <= i < |names| ==> CurveKey(obj, prefix, names[i]) in ids
    requires forall k :: k in ids ==> k in later && later[k] == ids[k]
    ensures forall i :: 0 <= i < |names| ==> CurveKey(obj, prefix, names[i]) in later
    ensures AxisLinksFor(ids, obj, prefix, names, nodeId) == AxisLinksFor(later, obj, prefix, names, nodeId)
  {
  }

  /**
   * The axis loop adds exactly one link per animated axis, in axis order:
   * from the curve `AnimCurve::<obj>_<prefix>_<axis>` to the curve node,
   * under the property `d|<axis>`.
   */
  lemma {:induction false} AxisCurvesLinks(s: Session, obj: string, prefix: string, axes: seq<Axis>, times: seq<int>, nodeId: int, f: FloatFormat)
    ensures var e := AxisCurves(s, obj, prefix, axes, times, nodeId, f);
      var names := AnimatedAxisNames(axes, f);
      && (forall i :: 0 <= i < |names| ==> CurveKey(obj, prefix, names[i]) in e.session.objectIds)
      && NewLinks(s, e.session) == AxisLinksFor(e.session.objectIds, obj, prefix, names, nodeId)
    decreases |axes|
  {
    if axes != [] {
      var front := axes[..|axes| - 1];
      var e := AxisCurves(s, obj, prefix, front, times, nodeId, f);
      var names := AnimatedAxisNames(front, f);
      AxisCurvesLinks(s, obj, prefix, front, times, nodeId, f);
      AxisCurvesExtends(s, obj, prefix, front, times, nodeId, f);
      var a := axes[|axes| - 1];
      if AxisAnimated(a, f) {
        var key := CurveKey(obj, prefix, a.name);
        var c := GetId(e.session, key);
        var t := Connect(c.session, c.id, nodeId, Some("d|" + a.name));
        var link := Connection(c.id, nodeId, Some("d|" + a.name));
        assert AnimatedAxisNames(axes, f) == names + [a.name];
        AxisLinksStable(e.session.objectIds, t.objectIds, obj, prefix, names, nodeId);
        AxisLinksSnoc(t.objectIds, obj, prefix, names, a.name, nodeId);
        assert NewLinks(s, t) == NewLinks(s, e.session) + [link];
      } else {
        assert AnimatedAxisNames(axes, f) == names;
      }
    }
  }

  /**
   * One group's links: none when it is static; otherwise first the curve
   * node to the layer without a property, then the curve node to the
   * model with the group's property, then, in axis order, one link per
   * animated axis from its curve into that node under `d|<axis>`.
   */
  lemma GroupCurveWiring(s: Session, obj: string, g: Group, times: seq<int>, modelId: int, layerId: int, f: FloatFormat)
    requires WellFormedGroup(g, |times|) && |times| > 0
    ensures var e := GroupCurve(s, obj, g, times, modelId, layerId, f);
      var node := GetId(s, NodeKey(obj, g.prefix));
      var n := NewLinks(s, e.session);
      var names := AnimatedAxisNames(g.axes, f);
      && Extends(s, e.session)
      && (!GroupAnimated(g, f) ==> n == [])
      && (GroupAnimated(g, f) ==>
        && NodeKey(obj, g.prefix) in e.session.objectIds && e.session.objectIds[NodeKey(obj, g.prefix)] == node.id
        && |n| >= 2
        && n[..2] == [Connection(node.id, layerId, None), Connection(node.id, modelId, Some(g.property))]
        && (forall i :: 2 <= i < |n| ==> AxisLink(n[i]) && n[i].parent == node.id)
        && (forall i :: 0 <= i < |names| ==> CurveKey(obj, g.prefix, names[i]) in e.session.objectIds)
        && n[2..] == AxisLinksFor(e.session.objectIds, obj, g.prefix, names, node.id))
  {
    if GroupAnimated(g, f) {
      AnimatedGroupWiring(s, obj, g, times, modelId, layerId, f);
    }
  }

  /** The animated case of `GroupCurveWiring`. */
  lemma AnimatedGroupWiring(s: Session, obj: string, g: Group, times: seq<int>, modelId: int, layerId: int, f: FloatFormat)
    requires WellFormedGroup(g, |times|) && |times| > 0 && GroupAnimated(g, f)
    ensures var e := GroupCurve(s, obj, g, times, modelId, layerId, f);
      var node := GetId(s, NodeKey(obj, g.prefix));
      var n := NewLinks(s, e.session);
      var names := AnimatedAxisNames(g.axes, f);
      && Extends(s, e.session)
      && NodeKey(obj, g.prefix) in e.session.objectIds && e.session.objectIds[NodeKey(obj, g.prefix)] == node.id
      && |n| >= 2
      && n[..2] == [Connection(node.id, layerId, None), Connection(node.id, modelId, Some(g.property))]
      && (forall i :: 2 <= i < |n| ==> AxisLink(n[i]) && n[i].parent == node.id)
      && (forall i :: 0 <= i < |names| ==> CurveKey(obj, g.prefix, names[i]) in e.session.objectIds)
      && n[2..] == AxisLinksFor(e.session.objectIds, obj, g.prefix, names, node.id)
  {
    var node := GetId(s, NodeKey(obj, g.prefix));
    var c1 := Connection(node.id, layerId, None);
    var c2 := Connection(node.id, modelId, Some(g.property));
    var once := Connect(node.session, node.id, layerId, None);
    var linked := Connect(once, node.id, modelId, Some(g.property));
    assert linked.connections == s.connections + [c1, c2];
    var curves := AxisCurves(linked, obj, g.prefix, g.axes, times, node.id, f);
    AxisCurvesShape(linked, obj, g.prefix, g.axes, times, node.id, f);
    AxisCurvesExtends(linked, obj, g.prefix, g.axes, times, node.id, f);
    AxisCurvesLinks(linked, obj, g.prefix, g.axes, times, node.id, f);
    ExtendsTransitive(s, node.session, once);
    ExtendsTransitive(s, once, linked);
    ExtendsTransitive(s, linked, curves.session);
    ExtendsTransitive(node.session, once, linked);
    ExtendsTransitive(node.session, linked, curves.session);
    LinksAfterTwo(s, linked, curves.session, c1, c2);
  }

  /** Two links appended before a later state: the new links are those two, then the rest. */
  lemma LinksAfterTwo(s: Session, linked: Session, t: Session, c1: Connection, c2: Connection)
    requires linked.connections == s.connections + [c1, c2] && linked.connections <= t.connections
    ensures var n := NewLinks(s, t);
      && |n| >= 2 && n[..2] == [c1, c2] && n[2..] == NewLinks(linked, t)
      && (forall i :: 2 <= i < |n| ==> n[i] in NewLinks(linked, t))
  {
    var n := NewLinks(s, t);
    var tail := NewLinks(linked, t);
    assert n == [c1, c2] + tail;
    forall i | 2 <= i < |n|
      ensures n[i] in tail
    {
      assert n[i] == tail[i - 2];
    }
  }

  /** The links of one group are wired to its own curve node, the layer and the model. */
  lemma GroupCurveWired(s: Session, obj: string, g: Group, times: seq<int>, modelId: int, layerId: int, f: FloatFormat)
    requires WellFormedGroup(g, |times|) && |times| > 0
    requires !StartsWith(g.property, "d|")
    ensures var e := GroupCurve(s, obj, g, times, modelId, layerId, f);
      Wired(NewLinks(s, e.session), e.session, obj, [g], modelId, layerId)
  {
    var e := GroupCurve(s, obj, g, times, modelId, layerId, f);
    GroupCurveWiring(s, obj, g, times, modelId, layerId, f);
    if GroupAnimated(g, f) {
      var node := GetId(s, NodeKey(obj, g.prefix));
      WiredFromLinks(NewLinks(s, e.session), e.session, obj, g, AnimatedAxisNames(g.axes, f), node.id, modelId, layerId, f);
    }
  }

  /** The links of an animated group, as `GroupCurveWiring` lists them, are wired. */
  lemma WiredFromLinks(n: seq<Connection>, t: Session, obj: string, g: Group, names: seq<string>, nodeId: int, modelId: int, layerId: int, f: FloatFormat)
    requires !StartsWith(g.property, "d|")
    requires NodeKey(obj, g.prefix) in t.objectIds && t.objectIds[NodeKey(obj, g.prefix)] == nodeId
    requires |n| >= 2 && n[..2] == [Connection(nodeId, layerId, None), Connection(nodeId, modelId, Some(g.property))]
    requires names == AnimatedAxisNames(g.axes, f)
    requires forall i :: 0 <= i < |names| ==> CurveKey(obj, g.prefix, names[i]) in t.objectIds
    requires n[2..] == AxisLinksFor(t.objectIds, obj, g.prefix, names, nodeId)
    ensures Wired(n, t, obj, [g], modelId, layerId)
  {
    assert [g][0] == g;
    assert IsCurveNode(t, obj, [g], nodeId);
    forall c | c in n
      ensures c.property == None ==> c.parent == layerId && IsCurveNode(t, obj, [g], c.child)
      ensures c.property.Some? && !AxisLink(c) ==> c.parent == modelId && IsCurveNode(t, obj, [g], c.child)
      ensures AxisLink(c) ==> IsCurveNode(t, obj, [g], c.parent) && exists k :: 0 <= k < |[g]| && IsCurveLinkOf(t, obj, [g][k], c)
    {
      var i :| 0 <= i < |n| && n[i] == c;
      if i < 2 {
        assert c == n[..2][i];
      } else {
        assert c == AxisLinksFor(t.objectIds, obj, g.prefix, names, nodeId)[i - 2];
        AnimatedAxisNameAt(g.axes, f, i - 2);
        var j :| 0 <= j < |g.axes| && g.axes[j].name == names[i - 2] && AxisAnimated(g.axes[j], f);
        assert IsAxisCurveLink(t, obj, g.prefix, g.axes[j], c);
        assert IsCurveLinkOf(t, obj, g, c);
      }
    }
  }

  lemma IsCurveNodeLift(t1: Session, t2: Session, obj: string, gs1: seq<Group>, gs2: seq<Group>, id: int)
    requires IsCurveNode(t1, obj, gs1, id) && Extends(t1, t2)
    requires forall k :: 0 <= k < |gs1| ==> gs1[k] in gs2
    ensures IsCurveNode(t2, obj, gs2, id)
  {
    var k :| 0 <= k < |gs1| && NodeKey(obj, gs1[k].prefix) in t1.objectIds && t1.objectIds[NodeKey(obj, gs1[k].prefix)] == id;
    assert gs1[k] in gs2;
    var j :| 0 <= j < |gs2| && gs2[j] == gs1[k];
  }

  lemma WiredLift(cs: seq<Connection>, t1: Session, t2: Session, obj: string, gs1: seq<Group>, gs2: seq<Group>, modelId: int, layerId: int)
    requires Wired(cs, t1, obj, gs1, modelId, layerId) && Extends(t1, t2)
    requires forall k :: 0 <= k < |gs1| ==> gs1[k] in gs2
    ensures Wired(cs, t2, obj, gs2, modelId, layerId)
  {
    forall c | c in cs
      ensures c.property == None ==> c.parent == layerId && IsCurveNode(t2, obj, gs2, c.child)
      ensures c.property.Some? && !AxisLink(c) ==> c.parent == modelId && IsCurveNode(t2, obj, gs2, c.child)
      ensures AxisLink(c) ==> IsCurveNode(t2, obj, gs2, c.parent) && exists k :: 0 <= k < |gs2| && IsCurveLinkOf(t2, obj, gs2[k], c)
    {
      if AxisLink(c) {
        IsCurveNodeLift(t1, t2, obj, gs1, gs2, c.parent);
        var k :| 0 <= k < |gs1| && IsCurveLinkOf(t1, obj, gs1[k], c);
        IsCurveLinkOfLift(t1, t2, obj, gs1[k], c);
        assert gs1[k] in gs2;
        var k2 :| 0 <= k2 < |gs2| && gs2[k2] == gs1[k];
      } else {
        IsCurveNodeLift(t1, t2, obj, gs1, gs2, c.child);
      }
    }
  }

  /**
   * Over the whole group loop every new link is wired: property-less links
   * go from a curve node of `obj` to the layer, property links from a curve
   * node to the model, and `d|<axis>` links from an axis curve into its
   * group's curve node.
   */
  lemma {:induction false} GroupCurvesWiring(s: Session, obj: string, gs: seq<Group>, times: seq<int>, modelId: int, layerId: int, f: FloatFormat)
    requires forall i :: 0 <= i < |gs| ==> WellFormedGroup(gs[i], |times|)
    requires |times| > 0
    requires forall i :: 0 <= i < |gs| ==> !StartsWith(gs[i].property, "d|")
    ensures var e := GroupCurves(s, obj, gs, times, modelId, layerId, f);
      && Extends(s, e.session)
      && Wired(NewLinks(s, e.session), e.session, obj, gs, modelId, layerId)
    decreases |gs|
  {
    if gs != [] {
      var front := gs[..|gs| - 1];
      var e := GroupCurves(s, obj, front, times, modelId, layerId, f);
      GroupCurvesWiring(s, obj, front, times, modelId, layerId, f);
      var g := gs[|gs| - 1];
      var t := GroupCurve(e.session, obj, g, times, modelId, layerId, f);
      GroupCurveWiring(e.session, obj, g, times, modelId, layerId, f);
      GroupCurveWired(e.session, obj, g, times, modelId, layerId, f);
      ExtendsTransitive(s, e.session, t.session);
      NewLinksSplit(s, e.session, t.session);
      forall k | 0 <= k < |front|
        ensures front[k] in gs
      {
        assert front[k] == gs[k];
      }
      WiredLift(NewLinks(s, e.session), e.session, t.session, obj, front, gs, modelId, layerId);
      assert [g][0] in gs;
      WiredLift(NewLinks(e.session, t.session), t.session, t.session, obj, [g], gs, modelId, layerId);
      assert GroupCurves(s, obj, gs, times, modelId, layerId, f).session == t.session;
    }
  }

  /**
   * `_add_animation_curves` wires every curve node to the object's
   * `Model::<obj>` entry (with its `Lcl` property) and to the
   * `AnimationLayer::BaseLayer` entry (without one), and every curve
   * `AnimCurve::<obj>_<prefix>_<axis>` into its group's curve node under
   * `d|<axis>`; with fewer than two keyframes it adds no link.
   */
  lemma AnimationCurvesWiring(s: Session, kfs: seq<Keyframe>, obj: string, fps: real, f: FloatFormat)
    requires |kfs| < 2 || fps != 0.0
    ensures var e := AnimationCurves(s, kfs, obj, fps, f);
      var n := NewLinks(s, e.session);
      && Extends(s, e.session)
      && (|kfs| < 2 ==> n == [])
      && (|kfs| >= 2 ==>
        && "Model::" + obj in e.session.objectIds
        && "AnimationLayer::BaseLayer" in e.session.objectIds
        && Wired(n, e.session, obj, Groups(kfs), e.session.objectIds["Model::" + obj], e.session.objectIds["AnimationLayer::BaseLayer"]))
  {
    if |kfs| >= 2 {
      var gs := Groups(kfs);
      assert !StartsWith("Lcl Translation", "d|") by { DiffersAt("Lcl Translation", "d|", 0); }
      assert !StartsWith("Lcl Rotation", "d|") by { DiffersAt("Lcl Rotation", "d|", 0); }
      var model := GetId(s, "Model::" + obj);
      var layer := GetId(model.session, "AnimationLayer::BaseLayer");
      assert layer.session.connections == s.connections;
      var times := KeyTimes(kfs, fps);
      var e := GroupCurves(layer.session, obj, gs, times, model.id, layer.id, f);
      GroupCurvesWiring(layer.session, obj, gs, times, model.id, layer.id, f);
      ExtendsTransitive(s, model.session, layer.session);
      ExtendsTransitive(s, layer.session, e.session);
      assert NewLinks(s, e.session) == NewLinks(layer.session, e.session);
    }
  }

  lemma PropertyCountsOfGroups(kfs: seq<Keyframe>, f: FloatFormat)
    ensures var gs := Groups(kfs);
      && GroupsWithProperty(gs, "Lcl Translation", f) == (if GroupAnimated(gs[0], f) then 1 else 0)
      && GroupsWithProperty(gs, "Lcl Rotation", f) == (if GroupAnimated(gs[1], f) then 1 else 0)
      && GroupsWithProperty(gs, "Lcl Scaling", f) == 0
  {
    var gs := Groups(kfs);
    PairPropertyCount(gs, "Lcl Translation", f);
    PairPropertyCount(gs, "Lcl Rotation", f);
    PairPropertyCount(gs, "Lcl Scaling", f);
    assert "Lcl Rotation" != "Lcl Translation" by { assert |"Lcl Rotation"| != |"Lcl Translation"|; }
    assert "Lcl Rotation" != "Lcl Scaling" by { assert |"Lcl Rotation"| != |"Lcl Scaling"|; }
    assert "Lcl Translation" != "Lcl Scaling" by { assert "Lcl Translation"[4] != "Lcl Scaling"[4]; }
  }

  lemma PairPropertyCount(gs: seq<Group>, p: string, f: FloatFormat)
    requires |gs| == 2
    ensures GroupsWithProperty(gs, p, f) ==
      (if GroupAnimated(gs[0], f) && gs[0].property == p then 1 else 0)
      + (if GroupAnimated(gs[1], f) && gs[1].property == p then 1 else 0)
  {
    assert gs[..1] == [gs[0]];
    assert [gs[0]][..0] == [];
    assert GroupsWithProperty([gs[0]], p, f) == (if GroupAnimated(gs[0], f) && gs[0].property == p then 1 else 0);
  }

  /** Truncated FBX times keep the order of the frames for a positive frame rate. */
  lemma KTimeMonotone(f1: real, f2: real, fps: real)
    requires fps > 0.0 && f1 <= f2
    ensures KTime(f1, fps) <= KTime(f2, fps)
  {
    var k := KTimePerSecond as real / fps;
    assert k > 0.0;
    assert f2 * k - f1 * k == (f2 - f1) * k;
    TruncMonotone(f1 * k, f2 * k);
  }

  lemma TruncMonotone(x: real, y: real)
    requires x <= y
    ensures Trunc(x) <= Trunc(y)
  {
  }

  /** Frame `n * fps` is exactly `n` seconds. */
  lemma KTimeWholeSeconds(n: nat, fps: real)
    requires fps > 0.0
    ensures KTime(n as real * fps, fps) == n * KTimePerSecond
  {
    var k := KTimePerSecond as real / fps;
    assert k * fps == KTimePerSecond as real;
    assert n as real * fps * k == n as real * KTimePerSecond as real;
  }
}
