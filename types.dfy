/** Value types of nerfview/types.py: small vectors and matrices, the requested
    image size, the camera snapshot `CameraState` and its `projection`. */
module Types {

  /** A 3-vector, such as a camera position. */
  datatype Vec3 = Vec3(x: real, y: real, z: real) {
    function At(i: nat): real
      requires i < 3
    {
      if i == 0 then x else if i == 1 then y else z
    }
  }

  /** A 3x3 matrix given by its rows, such as a camera rotation. */
  datatype Mat3 = Mat3(row0: Vec3, row1: Vec3, row2: Vec3) {
    function Row(i: nat): Vec3
      requires i < 3
    {
      if i == 0 then row0 else if i == 1 then row1 else row2
    }

    function At(i: nat, j: nat): real
      requires i < 3 && j < 3
    {
      Row(i).At(j)
    }
  }

  /** A dense matrix as a sequence of rows (a numpy array). */
  type Matrix = seq<seq<real>>

  predicate Is4x4(m: Matrix)
  {
    |m| == 4 && forall i :: 0 <= i < 4 ==> |m[i]| == 4
  }

  /** The (width, height) pair handed to the render callback. The source
      annotates it as a pair of ints, but the long edge is a float product
      and may be non-integral, so both edges are reals here. */
  datatype ImageSize = ImageSize(width: real, height: real)

  /** A snapshot of a client's camera: field of view (radians), aspect ratio
      (width / height) and the 4x4 camera-to-world transform. */
  datatype CameraState = CameraState(fov: real, aspect: real, cameraTWorld: Matrix)

  /** `CameraState.projection`: the pinhole intrinsics [fx, fy, cx, cy] for an
      image of the given size, with fx = fy = h / 2 / tan(fov / 2) and the
      principal point at the image centre. `tan` is the tangent as the numeric
      library computes it; the model leaves it uninterpreted. */
  function Projection(camera: CameraState, imageSize: ImageSize, tan: real -> real): (k: seq<real>)
    requires tan(camera.fov / 2.0) != 0.0
    ensures |k| == 4
    ensures k[0] == k[1]
    ensures 2.0 * k[2] == imageSize.width && 2.0 * k[3] == imageSize.height
    ensures 2.0 * k[0] * tan(camera.fov / 2.0) == imageSize.height
  {
    var w, h := imageSize.width, imageSize.height;
    var f := h / 2.0 / tan(camera.fov / 2.0);
    [f, f, w / 2.0, h / 2.0]
  }

  /** The focal length depends on the height and the field of view only:
      neither the width nor the pose nor the aspect field changes it. */
  lemma FocalIgnoresWidthAndPose(c1: CameraState, c2: CameraState, w1: real, w2: real, h: real, tan: real -> real)
    requires c1.fov == c2.fov
    requires tan(c1.fov / 2.0) != 0.0
    ensures Projection(c1, ImageSize(w1, h), tan)[0] == Projection(c2, ImageSize(w2, h), tan)[0]
  {
    var t := tan(c1.fov / 2.0);
    var f1 := Projection(c1, ImageSize(w1, h), tan)[0];
    var f2 := Projection(c2, ImageSize(w2, h), tan)[0];
    assert 2.0 * f1 * t == 2.0 * f2 * t;
  }

  /** The focal length is linear in the image height for a fixed field of view. */
  lemma FocalLinearInHeight(camera: CameraState, w: real, h: real, s: real, tan: real -> real)
    requires tan(camera.fov / 2.0) != 0.0
    ensures Projection(camera, ImageSize(w, s * h), tan)[0] == s * Projection(camera, ImageSize(w, h), tan)[0]
  {
    var t := tan(camera.fov / 2.0);
    var f := Projection(camera, ImageSize(w, h), tan)[0];
    var g := Projection(camera, ImageSize(w, s * h), tan)[0];
    assert 2.0 * g * t == s * h;
    assert 2.0 * (s * f) * t == s * (2.0 * f * t);
    assert 2.0 * (s * f) * t == s * h;
    assert (g - s * f) * (2.0 * t) == 0.0;
  }

  /** For a field of view whose half-angle has a positive tangent (any fov in
      (0, pi)) and a positive height the focal length is positive. */
  lemma FocalPositive(camera: CameraState, w: real, h: real, tan: real -> real)
    requires tan(camera.fov / 2.0) > 0.0 && h > 0.0
    ensures Projection(camera, ImageSize(w, h), tan)[0] > 0.0
  {
  }
}
