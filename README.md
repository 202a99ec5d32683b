# nerfview render scheduling, modelled in Dafny

nerfview serves a live 3-D view to the browser clients connected to a viser
server. This project models the part of it that decides when each client gets
a new image:

- the `Viewer` keeps one `RenderClient` per connected client id, the pause
  flag with its Pause/Resume buttons, the shared `RenderConfig` and the
  `last_update` timestamp;
- each `RenderClient` records when its camera last moved and when it last
  rendered; `render(scale)` takes the client's camera state, derives the image
  size from the configured maximum resolution, calls the user's render
  callback and publishes the result as the client's background image;
- `Viewer.update(scene_changed)` re-renders at full scale every client when
  the scene changed, and otherwise only the clients that rendered strictly
  after the previous update, then stamps `last_update`.

Files and modules:

- `types.dfy` (`Types`): the value types of `nerfview/types.py`, namely
  vectors, matrices, `ImageSize`, `CameraState` and `projection`.
- `host.dfy` (`Host`): the collaborators the core calls but does not own,
  each reduced to what the core observes:
  - the process clock `time.time()` (`Clock`);
  - a connected client's handle with its live camera and the backgrounds
    published to it (`ClientHandle`);
  - the user's render callback, which logs its requests (`RenderFn`).
- `render_client.dfy` (`Render`): `RenderConfig`, `RenderClient` and the
  pure helpers `get_image_size` and `get_camera_state`.
- `viewer.dfy` (`View`): the `Viewer` class, the selection rule of `update`,
  `last_moved` and `metrics_text`.

The scheduler's state is the `Viewer`'s fields and the `RenderClient`s'
fields. Both are Dafny classes, and their methods update them in place. The
clock, configuration and callback are shared by reference, as in the source.
`Viewer.Valid` is the invariant every operation keeps:
- the update stamp and every client's two stamps are no later than the
  clock's latest reading;
- exactly the applicable button is shown;
- every registry entry belongs to the client with that id and shares the
  viewer's callback, configuration and clock.

As written, the code:
- compares `last_render > last_update` strictly in `update`;
- does not consult `paused` in `update`;
- takes no lock in `update`, although `Lock` is imported;
- keeps no render status and does not debounce renders;
- passes the long edge of the image size as `scale * max_render_res`
  unrounded, so it may be non-integral although the signature promises ints.

The outcome of `update` is stated on values: `View.Observed` is a snapshot of
every client's `last_render`, published backgrounds and live camera, keyed by
client id, together with the callback's log. `View.RenderedExactly` relates
the snapshot before `update` to the one after, given the selected ids and a
visiting order that lists each of them once:
- the callback log is the earlier log followed by exactly the selected
  clients' full-scale requests, in the visiting order;
- each selected client re-rendered no earlier than the call began and
  published its image once;
- every other client kept its `last_render` and its backgrounds;
- the cameras and the set of clients are unchanged.

Clock readings are modelled as non-decreasing but possibly equal. So a render
taken in the same clock tick as the update stamp is not "strictly later", and
the next `update(False)` does not upgrade it (`StrictlyLaterOnly` shows the
boundary).

## Model

| member | source | states |
|---|---|---|
| Types.Projection | nerfview/types.py:13-17 | four intrinsics; fx equals fy, the principal point is half the width and height, and 2 * fx * tan(fov / 2) equals the height |
| Types.FocalIgnoresWidthAndPose | nerfview/types.py:15 | the focal length depends only on the height and the field of view, not on the width or the pose |
| Types.FocalLinearInHeight | nerfview/types.py:15 | scaling the height by s scales the focal length by s |
| Types.FocalPositive | nerfview/types.py:15 | a positive height and a positive tan(fov / 2) give a positive focal length |
| Render.Trunc | nerfview/render_client.py:63-65 | Python `int()` on a float: the integer next to x toward zero, within one of x |
| Render.GetImageSize | nerfview/render_client.py:61-65 | the long edge (width if aspect > 1, else height) is max_size unchanged; the other edge is the aspect-preserving length truncated toward zero |
| Render.LandscapeBounds | nerfview/render_client.py:62-63 | for aspect > 1 the truncated height lies in [0, max_size / aspect], which lies within [0, max_size] |
| Render.PortraitBounds | nerfview/render_client.py:64-65 | for aspect <= 1 the truncated width lies in [0, max_size * aspect], which lies within [0, max_size] |
| Render.ImageSizeBounds | nerfview/render_client.py:61-65 | for a non-negative size and a positive aspect both edges lie in [0, max_size], and the short edge is less than one pixel below the exact one |
| Render.DefaultPreviewSize | nerfview/render_client.py:61-65 | the default preview of a 16:9 camera (0.5 * 2048) is 1024 x 576 |
| Render.FractionalLongEdge | nerfview/render_client.py:73 | with max_render_res 2047 the 0.5-scale preview has the non-integral width 1023.5 |
| Render.GetCameraState | nerfview/render_client.py:42-58 | fov and aspect are copied; camera_t_world is 4x4 with the rotation in the top-left 3x3, the position in the last column and [0, 0, 0, 1] below |
| Render.CameraStateRoundTrip | nerfview/render_client.py:44-52 | the rotation and the position can be read back from camera_t_world |
| Render.CameraOriginIsPosition | nerfview/render_client.py:44-52 | camera_t_world maps the camera origin to the camera's world position |
| Render.RenderConfig.constructor | nerfview/render_client.py:15-19 | the three fields take the given values |
| Render.RenderConfig.Default | nerfview/render_client.py:15-19 | the defaults are jpeg quality 70, maximum resolution 2048 and fast-render scale 0.5 |
| Render.RenderClient.constructor | nerfview/render_client.py:22-34 | keeps the client, callback and config; last_render and then last_moved are fresh clock readings, in that order |
| Render.RenderClient.Render | nerfview/render_client.py:69-79 | last_render becomes the current reading; the callback is called once with the live camera state and the size for scale * max_render_res; its image is published once as jpeg at the configured quality |
| Render.RenderClient.CameraMoved | nerfview/render_client.py:37-39 | last_moved is stamped, then a render at fast_render_scale follows, so last_moved <= last_render |
| View.Selected | nerfview/viewer.py:113-114 | the ids update selects: all of them on a scene change, otherwise exactly those whose last_render is strictly after last_update |
| View.SettledSelectsNothing | nerfview/viewer.py:114-117 | once no client rendered after the stamp, update(False) selects nobody |
| View.LaterUpdateSelectsFewer | nerfview/viewer.py:114 | a later update stamp never selects more clients |
| View.StrictlyLaterOnly | nerfview/viewer.py:114 | a client rendered exactly at the stamp is not selected; one rendered later is; a scene change selects all |
| View.HasGreatest | nerfview/viewer.py:109 | every finite non-empty set of reals has a greatest element |
| View.MaxOr | nerfview/viewer.py:109 | `max(times, default=d)`: d for no times, otherwise a member of times that bounds them all |
| View.MetricsText | nerfview/viewer.py:51-60 | the text starts with `<sub>` and ends with `</sub>`, and no metrics give `<sub></sub>` |
| View.SingleMetricText | nerfview/viewer.py:60 | one metric is shown alone between the tags |
| View.BoolMetricPrintsAsInt | nerfview/viewer.py:53-56 | a bool metric takes the int branch and prints as 1 or 0 |
| View.Viewer.constructor | nerfview/viewer.py:26-48 | not paused, no renderers, the Pause button shown and Resume hidden, last_update a fresh reading, Valid |
| View.Viewer.LastMoved | nerfview/viewer.py:106-109 | 0.0 without clients; otherwise the last_moved of some client, no earlier than any client's |
| View.Viewer.OnPauseTrain | nerfview/viewer.py:83-87 | paused becomes the argument; Pause is shown exactly when not paused and Resume exactly when paused |
| View.Viewer.OnMaxImgRes | nerfview/viewer.py:89-90 | the shared max_render_res becomes res unchecked, and every connected client sees it |
| View.Viewer.ConnectClient | nerfview/viewer.py:96-98 | the client's id maps to a fresh render client with the viewer's callback and config, replacing any old entry; the other entries stay |
| View.Viewer.DisconnectClient | nerfview/viewer.py:92-94 | exactly the client's entry is removed; an unknown id yields KeyError and changes nothing |
| View.EnumerationLength | nerfview/viewer.py:113 | a visiting order that lists each id of a set once is exactly as long as the set, so the loop makes one render call per selected client |
| View.FullRequests | nerfview/viewer.py:113-115 | the log a sequence of full-scale renders produces: one entry per visited client, the k-th being RequestFor of the k-th client's camera at scale 1.0 |
| View.FullRequestsGrow | nerfview/viewer.py:115 | rendering one more client appends exactly its request |
| View.LogReadBack | nerfview/viewer.py:113-115 | from the outcome of update: the earlier log survives as a prefix, one entry follows per selected client, and the k-th new entry is the request of the k-th client visited |
| View.NothingRenderedYet | nerfview/viewer.py:113 | before the loop no client has rendered and the log is unchanged |
| View.LogStep | nerfview/viewer.py:115 | one more full-scale render keeps the log equal to the earlier log followed by the visited clients' requests in order |
| View.ClientsStep | nerfview/viewer.py:115 | one more full-scale render of a client not yet rendered adds exactly that client to the re-rendered ones and leaves the others alone |
| View.RenderedStep | nerfview/viewer.py:113-115 | one selected client rendering extends the outcome of the loop by exactly that client, in log and in state |
| View.Viewer.Observe | nerfview/viewer.py:113-115 | the snapshot of every client's last_render, backgrounds and camera covers exactly the connected ids |
| View.Viewer.RenderOne | nerfview/viewer.py:115 | the selected client renders at scale 1.0: its last_render becomes the current reading, its request is appended to the log and its image published once; every other client and every camera is unchanged |
| View.Viewer.UpdateOne | nerfview/viewer.py:113-115 | one loop turn: the id renders exactly when it is selected, the visiting order grows by it in that case, and the outcome so far is kept |
| View.Viewer.RenderSelected | nerfview/viewer.py:113-115 | the loop re-renders at full scale exactly the clients selected on entry, each once and no earlier than entry, in a visiting order whose requests follow the earlier log in that order; all other clients and all cameras are untouched |
| View.Viewer.StampUpdate | nerfview/viewer.py:117 | last_update becomes a fresh reading, after which update(False) would select nobody; the clients, cameras and log are unchanged and Valid holds |
| View.Viewer.Update | nerfview/viewer.py:112-117 | re-renders exactly the selected clients once each at full scale, the callback log becoming the earlier log followed by their requests in the visiting order; the other clients and all cameras are untouched; keeps Valid, stamps last_update last, and leaves nothing due for an immediate update(False) |

## Left out

- The viser GUI is out of scope: folders, the stats markdown, the
  resolution slider and the registration of the connect and disconnect
  callbacks. Only the visibility of the Pause and Resume buttons is kept.
- View.Viewer.constructor: it reaches the button state `define_guis` sets
  without modelling `define_guis` itself. `define_guis` reads `self.metrics`
  and `self.mode`, which the constructor never assigns, so it only completes
  when a subclass or the caller provides them.
- `update_metrics` only pushes `metrics_text` into a GUI element, so it is
  left out.
- `metrics_text`: the `.3f` and `d` formatting are abstract functions, and a
  non-number value's text is given rather than derived from `str()`.
- `SO3(wxyz).as_matrix()`: the rotation matrix is an input of the camera.
  The quaternion conversion is not modelled.
- `np.tan` and float32 rounding: `tan` is a function parameter of
  `Projection`, and reals replace floats throughout.
- Projection: it requires tan(fov / 2) to be non-zero. It does not model the
  infinities numpy produces otherwise.
- `time.time()`: readings are modelled as never decreasing. A wall clock can
  step back, and the timing invariants do not cover that.
- The image the callback returns, and its depth map, are opaque: a
  `Rendered` value carries only its request.
- If the callback raises, that failure is not modelled.
- View.Viewer.Update: the visiting order it returns lists each selected id
  once, but it is not tied to the dictionary's insertion order, which the
  model does not keep. The log is pinned down entry by entry relative to that
  order; which client's request comes first is not.
- Concurrency is not modelled. The constructor registers `connect_client`
  and `disconnect_client` with the server, which calls them from its own
  threads while `update` may be iterating the same dictionary. The model runs
  operations one at a time, and the unused `Lock` import plays no part.
- `camera_moved`: no camera listener is registered anywhere in this code, and
  `connect_client` does not attach one. `CameraMoved` is modelled as a method
  that callers may invoke.
- `RenderConfig()` as the constructor's default argument is evaluated once,
  so viewers built without a config share one object. The model takes the
  config explicitly; the same object may be passed to several viewers.
