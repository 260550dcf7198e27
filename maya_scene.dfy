/**
 * What the Maya exporter reads from the Alembic archive. The reader calls
 * (`get_cameras`, `get_meshes`, `get_camera_properties`,
 * `get_mesh_data_at_time`, `get_transform_at_time`) are inputs: each
 * object carries what the reader returns for it at a given time.
 */
module MayaScene {
  import opened Basics

  /** `reader.get_transform_at_time(obj, t)`: translation, rotation, scale. */
  datatype Sample = Sample(pos: Vec3, rot: Vec3, scale: Vec3)

  /** `reader.get_mesh_data_at_time(mesh, t)`: the `positions`, `indices` and `counts` entries. */
  datatype MeshData = MeshData(positions: seq<Vec3>, indices: seq<int>, counts: seq<int>)

  /** A camera: `getName()`, `get_camera_properties` and its transform, each as a function of time. */
  datatype CameraObject = CameraObject(
    name: string,
    propertiesAt: real -> map<string, real>,
    transformAt: real -> Sample)

  /** A mesh: `getName()`, its geometry and its transform, each as a function of time. */
  datatype MeshObject = MeshObject(
    name: string,
    dataAt: real -> MeshData,
    transformAt: real -> Sample)

  /** `reader.get_cameras()` and `reader.get_meshes()`, in the reader's order. */
  datatype Archive = Archive(cameras: seq<CameraObject>, meshes: seq<MeshObject>)

  /**
   * The `animation_data` lists of sanitised mesh names; a missing key
   * reads as an empty list (`animation_data.get(key, [])`).
   */
  datatype AnimationData = AnimationData(vertexAnimated: seq<string>, transformOnly: seq<string>)

  /** `props.get(key, default)`. */
  function Property(props: map<string, real>, key: string, default: real): real
  {
    if key in props then props[key] else default
  }

  /**
   * The nine channels in the order `_animate_transform` lists them:
   * translate, rotate and scale, each X, Y, Z.
   */
  function Component(s: Sample, k: nat): real
    requires k < 9
  {
    var v := if k < 3 then s.pos else if k < 6 then s.rot else s.scale;
    if k % 3 == 0 then v.x else if k % 3 == 1 then v.y else v.z
  }
}
