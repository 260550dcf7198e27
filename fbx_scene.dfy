/**
 * The pre-sampled scene the FBX exporter consumes (the `SceneData` the
 * archive reader produces): cameras, meshes and transforms, each with its
 * keyframes, plus the frame rate and frame count.
 */
module FbxScene {
  import opened Basics
  import opened Naming

  /** One sampled frame: position, rotation (`rotation_maya`, degrees) and scale, all Y-up. */
  datatype Keyframe = Keyframe(frame: real, position: Vec3, rotation: Vec3, scale: Vec3)

  /** How a mesh moves: not at all, as a rigid transform, or per vertex. */
  datatype AnimationType = Static | TransformOnly | VertexAnimated

  /** Vertex positions, the flattened polygon-vertex indices and the per-polygon vertex counts. */
  datatype Geometry = Geometry(positions: seq<Vec3>, indices: seq<int>, counts: seq<int>)

  datatype Camera = Camera(name: string, parentName: Option<string>, keyframes: seq<Keyframe>, focalLength: real)

  datatype Mesh = Mesh(
    name: string,
    parentName: Option<string>,
    keyframes: seq<Keyframe>,
    geometry: Geometry,
    animationType: AnimationType)

  datatype Transform = Transform(name: string, keyframes: seq<Keyframe>)

  datatype Metadata = Metadata(fps: real, frameCount: int)

  datatype SceneData = SceneData(
    cameras: seq<Camera>,
    meshes: seq<Mesh>,
    transforms: seq<Transform>,
    metadata: Metadata)

  /** `parent_name if parent_name else name`. */
  function DisplayName(name: string, parentName: Option<string>): string
  {
    if Truthy(parentName) then parentName.value else name
  }

  function CameraName(c: Camera): string
  {
    SanitizeName(DisplayName(c.name, c.parentName))
  }

  function MeshName(m: Mesh): string
  {
    SanitizeName(DisplayName(m.name, m.parentName))
  }

  /** The meshes the FBX document can embed: all but the vertex-animated ones, in order. */
  function EmbeddableMeshes(meshes: seq<Mesh>): (r: seq<Mesh>)
    ensures forall m :: m in r <==> m in meshes && m.animationType != VertexAnimated
    decreases |meshes|
  {
    if meshes == [] then []
    else
      var rest := EmbeddableMeshes(meshes[..|meshes| - 1]);
      var last := meshes[|meshes| - 1];
      assert meshes == meshes[..|meshes| - 1] + [last];
      if last.animationType == VertexAnimated then rest else rest + [last]
  }

  /** The sanitised names of the vertex-animated meshes, in order. */
  function VertexAnimatedNames(meshes: seq<Mesh>): (r: seq<string>)
    ensures |r| + |EmbeddableMeshes(meshes)| == |meshes|
    decreases |meshes|
  {
    if meshes == [] then []
    else
      var rest := VertexAnimatedNames(meshes[..|meshes| - 1]);
      var last := meshes[|meshes| - 1];
      if last.animationType == VertexAnimated then rest + [MeshName(last)] else rest
  }

  /**
   * Filtering keeps order: an embeddable mesh lands at the position given
   * by the number of embeddable meshes before it.
   */
  lemma EmbeddableMeshesOrder(meshes: seq<Mesh>)
    ensures forall i :: 0 <= i < |meshes| && meshes[i].animationType != VertexAnimated ==>
      |EmbeddableMeshes(meshes[..i])| < |EmbeddableMeshes(meshes)|
      && EmbeddableMeshes(meshes)[|EmbeddableMeshes(meshes[..i])|] == meshes[i]
  {
    forall i | 0 <= i < |meshes| && meshes[i].animationType != VertexAnimated
      ensures |EmbeddableMeshes(meshes[..i])| < |EmbeddableMeshes(meshes)|
      ensures EmbeddableMeshes(meshes)[|EmbeddableMeshes(meshes[..i])|] == meshes[i]
    {
      EmbeddableMeshAt(meshes, i);
    }
  }

  lemma {:induction false} EmbeddableMeshAt(meshes: seq<Mesh>, i: int)
    requires 0 <= i < |meshes| && meshes[i].animationType != VertexAnimated
    ensures |EmbeddableMeshes(meshes[..i])| < |EmbeddableMeshes(meshes)|
    ensures EmbeddableMeshes(meshes)[|EmbeddableMeshes(meshes[..i])|] == meshes[i]
    decreases |meshes|
  {
    var front := meshes[..|meshes| - 1];
    var last := meshes[|meshes| - 1];
    var rest := EmbeddableMeshes(front);
    assert EmbeddableMeshes(meshes) == if last.animationType == VertexAnimated then rest else rest + [last];
    if i < |front| {
      assert meshes[..i] == front[..i];
      assert meshes[i] == front[i];
      EmbeddableMeshAt(front, i);
    } else {
      assert meshes[..i] == front;
    }
  }

  /**
   * The skipped names are those of the vertex-animated meshes, in scene
   * order: each such mesh's name sits at the position given by the number
   * of vertex-animated meshes before it.
   */
  lemma {:induction false} VertexAnimatedNamesOrder(meshes: seq<Mesh>)
    ensures forall i :: 0 <= i < |meshes| && meshes[i].animationType == VertexAnimated ==>
      |VertexAnimatedNames(meshes[..i])| < |VertexAnimatedNames(meshes)|
      && VertexAnimatedNames(meshes)[|VertexAnimatedNames(meshes[..i])|] == MeshName(meshes[i])
  {
    forall i | 0 <= i < |meshes| && meshes[i].animationType == VertexAnimated
      ensures |VertexAnimatedNames(meshes[..i])| < |VertexAnimatedNames(meshes)|
      ensures VertexAnimatedNames(meshes)[|VertexAnimatedNames(meshes[..i])|] == MeshName(meshes[i])
    {
      VertexAnimatedNameAt(meshes, i);
    }
  }

  lemma {:induction false} VertexAnimatedNameAt(meshes: seq<Mesh>, i: int)
    requires 0 <= i < |meshes| && meshes[i].animationType == VertexAnimated
    ensures |VertexAnimatedNames(meshes[..i])| < |VertexAnimatedNames(meshes)|
    ensures VertexAnimatedNames(meshes)[|VertexAnimatedNames(meshes[..i])|] == MeshName(meshes[i])
    decreases |meshes|
  {
    var front := meshes[..|meshes| - 1];
    var last := meshes[|meshes| - 1];
    var rest := VertexAnimatedNames(front);
    var r := VertexAnimatedNames(meshes);
    var name := MeshName(meshes[i]);
    if i < |front| {
      assert meshes[..i] == front[..i];
      assert meshes[i] == front[i];
      VertexAnimatedNameAt(front, i);
      VertexAnimatedNamesExtend(meshes, |VertexAnimatedNames(front[..i])|);
    } else {
      assert meshes[..i] == front;
      assert r == rest + [name];
    }
  }

  /** Appending a mesh keeps every earlier skipped name where it was. */
  lemma VertexAnimatedNamesExtend(meshes: seq<Mesh>, k: int)
    requires meshes != [] && 0 <= k < |VertexAnimatedNames(meshes[..|meshes| - 1])|
    ensures k < |VertexAnimatedNames(meshes)|
    ensures VertexAnimatedNames(meshes)[k] == VertexAnimatedNames(meshes[..|meshes| - 1])[k]
  {
  }

  /** Every skipped name is the name of a vertex-animated mesh. */
  lemma {:induction false} VertexAnimatedNamesFrom(meshes: seq<Mesh>)
    ensures forall n :: n in VertexAnimatedNames(meshes) ==>
      exists i :: 0 <= i < |meshes| && meshes[i].animationType == VertexAnimated && MeshName(meshes[i]) == n
    decreases |meshes|
  {
    if meshes != [] {
      var front := meshes[..|meshes| - 1];
      var last := meshes[|meshes| - 1];
      VertexAnimatedNamesFrom(front);
      var r := VertexAnimatedNames(meshes);
      var rest := VertexAnimatedNames(front);
      assert r == (if last.animationType == VertexAnimated then rest + [MeshName(last)] else rest);
      forall n | n in r
        ensures exists i :: 0 <= i < |meshes| && meshes[i].animationType == VertexAnimated && MeshName(meshes[i]) == n
      {
        if n in rest {
          var i :| 0 <= i < |front| && front[i].animationType == VertexAnimated && MeshName(front[i]) == n;
          assert meshes[i] == front[i];
        } else {
          assert meshes[|meshes| - 1] == last;
        }
      }
    }
  }
}
