/** The collaborators the render scheduling core talks to but does not own:
    the process clock (`time.time()`), a connected client's handle with its
    live camera and its background image, and the user's render callback.
    Each is reduced to the state the core can observe. */
module Host {
  import opened Types

  /** The process clock: `now` is the latest reading handed out. Readings
      never go backwards, but successive readings may be equal. */
  class Clock {
    var now: real

    constructor (start: real)
      ensures now == start
    {
      now := start;
    }

    /** `time.time()`: some reading no earlier than the previous one. */
    method Now() returns (t: real)
      modifies this`now
      ensures old(now) <= t && now == t
    {
      var previous := now;
      assert NoEarlier(previous, previous);
      t :| NoEarlier(t, previous);
      assert NoEarlier(t, previous);
      now := t;
    }
  }

  /** A reading `t` taken no earlier than `previous`. */
  predicate NoEarlier(t: real, previous: real)
  {
    previous <= t
  }

  /** The live camera of a client as the transport reports it. The rotation
      is taken as given (the quaternion-to-matrix step is not modelled). */
  datatype Camera = Camera(fov: real, aspect: real, rotation: Mat3, position: Vec3)

  /** One invocation of the render callback: its camera and image size. */
  datatype RenderRequest = RenderRequest(camera: CameraState, size: ImageSize)

  /** The (image, depth) pair the callback returns, known only by the request
      it answers. */
  datatype Rendered = Rendered(request: RenderRequest)

  /** One `set_background_image` publication on a client's scene. */
  datatype Background = Background(image: Rendered, format: string, jpegQuality: int)

  /** A connected client: its id, its live camera and the backgrounds
      published to it so far. */
  class ClientHandle {
    const clientId: int
    var camera: Camera
    var backgrounds: seq<Background>

    constructor (clientId: int, camera: Camera)
      ensures this.clientId == clientId && this.camera == camera && backgrounds == []
    {
      this.clientId := clientId;
      this.camera := camera;
      backgrounds := [];
    }

    /** `client.scene.set_background_image(image, format, jpeg_quality, depth)`. */
    method SetBackgroundImage(image: Rendered, format: string, jpegQuality: int)
      modifies this`backgrounds
      ensures backgrounds == old(backgrounds) + [Background(image, format, jpegQuality)]
    {
      backgrounds := backgrounds + [Background(image, format, jpegQuality)];
    }
  }

  /** The user's render callback, shared by every client of a viewer; `calls`
      logs every invocation in order. */
  class RenderFn {
    var calls: seq<RenderRequest>

    constructor ()
      ensures calls == []
    {
      calls := [];
    }

    method Call(camera: CameraState, size: ImageSize) returns (out: Rendered)
      modifies this`calls
      ensures calls == old(calls) + [RenderRequest(camera, size)]
      ensures out == Rendered(RenderRequest(camera, size))
    {
      calls := calls + [RenderRequest(camera, size)];
      out := Rendered(RenderRequest(camera, size));
    }
  }
}
