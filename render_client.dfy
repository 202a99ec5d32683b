/** nerfview/render_client.py: the shared render configuration and the
    per-client scheduler `RenderClient`, with its pure helpers for the image
    size and the camera state. */
module Render {
  import opened Types
  import opened Host

  /** Python's `int()` on a float: truncation toward zero. */
  function Trunc(x: real): (n: int)
    ensures 0.0 <= x ==> 0 <= n && n as real <= x < n as real + 1.0
    ensures x < 0.0 ==> n <= 0 && n as real - 1.0 < x <= n as real
  {
    if x >= 0.0 then x.Floor else -((-x).Floor)
  }

  /** `short` is an integer obtained by cutting `exact` toward zero. */
  predicate TruncatedFrom(short: real, exact: real)
  {
    && short == short.Floor as real
    && (0.0 <= exact ==> 0.0 <= short <= exact < short + 1.0)
    && (exact < 0.0 ==> short - 1.0 < exact <= short <= 0.0)
  }

  /** The edge the scaled maximum resolution is applied to: the width for a
      landscape aspect (> 1), the height otherwise. */
  function LongEdge(size: ImageSize, aspect: real): real
  {
    if aspect > 1.0 then size.width else size.height
  }

  function ShortEdge(size: ImageSize, aspect: real): real
  {
    if aspect > 1.0 then size.height else size.width
  }

  /** The aspect-preserving length of the short edge before truncation. */
  function ExactShortEdge(maxSize: real, aspect: real): real
  {
    if aspect > 1.0 then maxSize / aspect else maxSize * aspect
  }

  /** `get_image_size`: the long edge is `maxSize` unchanged (it may be
      non-integral), the short edge is the aspect-preserving length truncated
      toward zero. */
  function GetImageSize(maxSize: real, aspect: real): (size: ImageSize)
    ensures LongEdge(size, aspect) == maxSize
    ensures TruncatedFrom(ShortEdge(size, aspect), ExactShortEdge(maxSize, aspect))
  {
    if aspect > 1.0 then
      ImageSize(maxSize, Trunc(maxSize / aspect) as real)
    else
      ImageSize(Trunc(maxSize * aspect) as real, maxSize)
  }

  /** The landscape case of `ImageSizeBounds`: the height is the truncated
      quotient, which lies in [0, maxSize]. */
  lemma LandscapeBounds(maxSize: real, aspect: real)
    requires 0.0 <= maxSize && 1.0 < aspect
    ensures 0.0 <= GetImageSize(maxSize, aspect).height <= maxSize / aspect <= maxSize
  {
    var q := maxSize / aspect;
    assert q * aspect == maxSize;
    assert q * 1.0 <= q * aspect;
  }

  /** The portrait case of `ImageSizeBounds`: the width is the truncated
      product, which lies in [0, maxSize]. */
  lemma PortraitBounds(maxSize: real, aspect: real)
    requires 0.0 <= maxSize && 0.0 < aspect <= 1.0
    ensures 0.0 <= GetImageSize(maxSize, aspect).width <= maxSize * aspect <= maxSize
  {
    assert maxSize * aspect <= maxSize * 1.0;
  }

  /** For a non-negative size and a positive aspect both edges lie in
      [0, maxSize], and the short edge is below the exact one by less than a pixel. */
  lemma ImageSizeBounds(maxSize: real, aspect: real)
    requires 0.0 <= maxSize && 0.0 < aspect
    ensures var size := GetImageSize(maxSize, aspect);
      && 0.0 <= size.width <= maxSize
      && 0.0 <= size.height <= maxSize
      && ExactShortEdge(maxSize, aspect) - 1.0 < ShortEdge(size, aspect) <= ExactShortEdge(maxSize, aspect)
  {
    if aspect > 1.0 {
      LandscapeBounds(maxSize, aspect);
    } else {
      PortraitBounds(maxSize, aspect);
    }
  }

  /** The default preview case: with the default configuration a 16:9
      camera gets a 1024 x 576 preview. */
  lemma DefaultPreviewSize()
    ensures GetImageSize(0.5 * 2048 as real, 16.0 / 9.0) == ImageSize(1024.0, 576.0)
  {
    assert 1024.0 / (16.0 / 9.0) == 576.0;
  }

  /** With an odd maximum resolution the preview's long edge is non-integral. */
  lemma FractionalLongEdge()
    ensures GetImageSize(0.5 * 2047 as real, 16.0 / 9.0).width == 1023.5
  {
  }

  /** The 4x4 camera-to-world transform: the rotation beside the position
      column, above the row [0, 0, 0, 1]. */
  function CameraToWorld(rotation: Mat3, position: Vec3): Matrix
  {
    var r0, r1, r2 := rotation.row0, rotation.row1, rotation.row2;
    [ [r0.x, r0.y, r0.z, position.x],
      [r1.x, r1.y, r1.z, position.y],
      [r2.x, r2.y, r2.z, position.z] ]
    + [[0.0, 0.0, 0.0, 1.0]]
  }

  /** `get_camera_state` on the client's live camera. */
  function GetCameraState(camera: Camera): (state: CameraState)
    ensures state.fov == camera.fov && state.aspect == camera.aspect
    ensures Is4x4(state.cameraTWorld)
    ensures forall i, j :: 0 <= i < 3 && 0 <= j < 3 ==> state.cameraTWorld[i][j] == camera.rotation.At(i, j)
    ensures forall i :: 0 <= i < 3 ==> state.cameraTWorld[i][3] == camera.position.At(i)
    ensures state.cameraTWorld[3] == [0.0, 0.0, 0.0, 1.0]
  {
    CameraState(camera.fov, camera.aspect, CameraToWorld(camera.rotation, camera.position))
  }

  /** The rotation block of a 4x4 transform. */
  function RotationOf(m: Matrix): Mat3
    requires Is4x4(m)
  {
    Mat3(Vec3(m[0][0], m[0][1], m[0][2]), Vec3(m[1][0], m[1][1], m[1][2]), Vec3(m[2][0], m[2][1], m[2][2]))
  }

  /** The translation column of a 4x4 transform. */
  function PositionOf(m: Matrix): Vec3
    requires Is4x4(m)
  {
    Vec3(m[0][3], m[1][3], m[2][3])
  }

  /** A 4x4 matrix applied to a homogeneous 4-vector. */
  function Apply(m: Matrix, v: seq<real>): seq<real>
    requires Is4x4(m) && |v| == 4
  {
    seq(4, i requires 0 <= i < 4 => m[i][0] * v[0] + m[i][1] * v[1] + m[i][2] * v[2] + m[i][3] * v[3])
  }

  /** The camera's rotation and position can be read back from its state. */
  lemma CameraStateRoundTrip(camera: Camera)
    ensures var m := GetCameraState(camera).cameraTWorld;
      Is4x4(m) && RotationOf(m) == camera.rotation && PositionOf(m) == camera.position
  {
    var m := GetCameraState(camera).cameraTWorld;
    var r := camera.rotation;
    assert m[0][0] == r.At(0, 0) && m[0][1] == r.At(0, 1) && m[0][2] == r.At(0, 2);
    assert m[1][0] == r.At(1, 0) && m[1][1] == r.At(1, 1) && m[1][2] == r.At(1, 2);
    assert m[2][0] == r.At(2, 0) && m[2][1] == r.At(2, 1) && m[2][2] == r.At(2, 2);
    assert m[0][3] == camera.position.At(0) && m[1][3] == camera.position.At(1) && m[2][3] == camera.position.At(2);
  }

  /** The transform maps the camera's own origin to its world position. */
  lemma CameraOriginIsPosition(camera: Camera)
    ensures var m := GetCameraState(camera).cameraTWorld;
      Is4x4(m) && Apply(m, [0.0, 0.0, 0.0, 1.0]) == [camera.position.x, camera.position.y, camera.position.z, 1.0]
  {
    var m := GetCameraState(camera).cameraTWorld;
    var p := camera.position;
    assert m[0][3] == p.At(0) && m[1][3] == p.At(1) && m[2][3] == p.At(2);
  }

  /** What `render(scale)` hands to the callback for a client whose live
      camera is `camera` under a maximum resolution `maxRenderRes`. */
  function RequestFor(camera: Camera, maxRenderRes: int, scale: real): (request: RenderRequest)
  {
    var state := GetCameraState(camera);
    RenderRequest(state, GetImageSize(scale * maxRenderRes as real, state.aspect))
  }

  /** What `render(scale)` publishes to that client. */
  function PublishedFor(camera: Camera, maxRenderRes: int, jpegQuality: int, scale: real): Background
  {
    Background(Rendered(RequestFor(camera, maxRenderRes, scale)), "jpeg", jpegQuality)
  }

  /** `RenderConfig`: shared by reference between a viewer and its clients. */
  class RenderConfig {
    var jpegQuality: int
    var maxRenderRes: int
    var fastRenderScale: real

    constructor (jpegQuality: int, maxRenderRes: int, fastRenderScale: real)
      ensures this.jpegQuality == jpegQuality && this.maxRenderRes == maxRenderRes
      ensures this.fastRenderScale == fastRenderScale
    {
      this.jpegQuality := jpegQuality;
      this.maxRenderRes := maxRenderRes;
      this.fastRenderScale := fastRenderScale;
    }

    /** `RenderConfig()` with every field at its default. */
    constructor Default()
      ensures jpegQuality == 70 && maxRenderRes == 2048 && fastRenderScale == 0.5
    {
      jpegQuality := 70;
      maxRenderRes := 2048;
      fastRenderScale := 0.5;
    }
  }

  /** `RenderClient`: the render timing state of one connected client. */
  class RenderClient {
    const client: ClientHandle
    const renderFn: RenderFn
    const config: RenderConfig
    const clock: Clock
    var lastRender: real
    var lastMoved: real

    /** Both timestamps are readings the clock has already handed out. */
    ghost predicate Valid()
      reads this`lastRender, this`lastMoved, clock`now
    {
      lastRender <= clock.now && lastMoved <= clock.now
    }

    /** `RenderClient(client, render_fn, config)`: both timestamps are taken
        from the clock at construction, `last_render` first. */
    constructor (client: ClientHandle, renderFn: RenderFn, config: RenderConfig, clock: Clock)
      modifies clock`now
      ensures this.client == client && this.renderFn == renderFn
      ensures this.config == config && this.clock == clock
      ensures old(clock.now) <= lastRender <= lastMoved == clock.now
    {
      this.client := client;
      this.renderFn := renderFn;
      this.config := config;
      this.clock := clock;
      var t0 := clock.Now();
      var t1 := clock.Now();
      lastRender := t0;
      lastMoved := t1;
    }

    /** `render(image_scale)`: stamps `last_render`, calls the callback once
        with the scaled size and publishes its output once. */
    method Render(imageScale: real)
      requires Valid()
      modifies this`lastRender, clock`now, renderFn`calls, client`backgrounds
      ensures Valid()
      ensures old(clock.now) <= lastRender == clock.now
      ensures renderFn.calls == old(renderFn.calls) + [RequestFor(client.camera, config.maxRenderRes, imageScale)]
      ensures client.backgrounds == old(client.backgrounds) + [PublishedFor(client.camera, config.maxRenderRes, config.jpegQuality, imageScale)]
    {
      lastRender := clock.Now();
      var request := RequestFor(client.camera, config.maxRenderRes, imageScale);
      var img := renderFn.Call(request.camera, request.size);
      client.SetBackgroundImage(img, "jpeg", config.jpegQuality);
    }

    /** `camera_moved`: stamps `last_moved`, then renders a preview at the
        configured fast scale, so the render is no earlier than the move. */
    method CameraMoved()
      requires Valid()
      modifies this`lastMoved, this`lastRender, clock`now, renderFn`calls, client`backgrounds
      ensures Valid()
      ensures old(clock.now) <= lastMoved <= lastRender == clock.now
      ensures renderFn.calls == old(renderFn.calls) + [RequestFor(client.camera, config.maxRenderRes, config.fastRenderScale)]
      ensures client.backgrounds == old(client.backgrounds) + [PublishedFor(client.camera, config.maxRenderRes, config.jpegQuality, config.fastRenderScale)]
    {
      lastMoved := clock.Now();
      Render(config.fastRenderScale);
    }
  }
}
