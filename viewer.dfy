/** nerfview/viewer.py: the viewer that owns one `RenderClient` per connected
    client, upgrades their images on `update`, and holds the pause state and
    the shared render configuration. */
module View {
  import opened Types
  import opened Host
  import opened Render

  /** The clients `update(scene_changed)` re-renders, given every client's
      `last_render` and the viewer's `last_update`: all of them when the scene
      changed, otherwise those that rendered strictly after the last update. */
  function Selected(sceneChanged: bool, lastRenders: map<int, real>, lastUpdate: real): (due: set<int>)
    ensures due <= lastRenders.Keys
    ensures sceneChanged ==> due == lastRenders.Keys
    ensures forall id :: id in lastRenders && lastRenders[id] > lastUpdate ==> id in due
    ensures !sceneChanged ==> forall id :: id in due ==> lastRenders[id] > lastUpdate
  {
    set id | id in lastRenders && (sceneChanged || lastRenders[id] > lastUpdate)
  }

  /** Once no client rendered after the last update, an update without a
      scene change selects nobody. */
  lemma {:induction false} SettledSelectsNothing(lastRenders: map<int, real>, lastUpdate: real)
    requires forall id :: id in lastRenders ==> lastRenders[id] <= lastUpdate
    ensures Selected(false, lastRenders, lastUpdate) == {}
  {
    var due := Selected(false, lastRenders, lastUpdate);
    assert forall id :: id in due <==> id in {};
  }

  /** Moving the update stamp later never selects more clients. */
  lemma LaterUpdateSelectsFewer(sceneChanged: bool, lastRenders: map<int, real>, u1: real, u2: real)
    requires u1 <= u2
    ensures Selected(sceneChanged, lastRenders, u2) <= Selected(sceneChanged, lastRenders, u1)
  {
  }

  /** Without a scene change a client rendered exactly at the update stamp is
      not selected; only one rendered strictly later is. */
  lemma StrictlyLaterOnly()
    ensures Selected(false, map[1 := 2.0, 2 := 3.0, 3 := 5.0], 3.0) == {3}
    ensures Selected(true, map[1 := 2.0, 2 := 3.0, 3 := 5.0], 3.0) == {1, 2, 3}
  {
  }

  /** `order` lists every element of `ids` exactly once: one visiting order
      of the ids. */
  predicate Enumerates(order: seq<int>, ids: set<int>)
  {
    && (forall i, j :: 0 <= i < j < |order| ==> order[i] != order[j])
    && (forall i :: 0 <= i < |order| ==> order[i] in ids)
    && (forall id :: id in ids ==> id in order)
  }

  /** Visiting one more id that was not yet visited extends the order. */
  lemma EnumeratesExtend(order: seq<int>, ids: set<int>, id: int)
    requires Enumerates(order, ids) && id !in ids
    ensures Enumerates(order + [id], ids + {id})
  {
  }

  /** A visiting order is exactly as long as the set it lists. */
  lemma {:induction false} EnumerationLength(order: seq<int>, ids: set<int>)
    requires Enumerates(order, ids)
    ensures |order| == |ids|
    decreases |order|
  {
    if order == [] {
      assert forall id :: id in ids <==> id in {};
    } else {
      var last, rest := order[|order| - 1], order[..|order| - 1];
      assert order == rest + [last];
      forall id | id in ids - {last} ensures id in rest {
        assert id in rest + [last];
      }
      EnumerationLength(rest, ids - {last});
    }
  }

  /** The requests `update`'s full-scale renders hand the callback when the
      clients are visited in `order`, given every client's live camera. */
  function FullRequests(cameras: map<int, Camera>, maxRenderRes: int, order: seq<int>): (requests: seq<RenderRequest>)
    requires forall i :: 0 <= i < |order| ==> order[i] in cameras
    ensures |requests| == |order|
    ensures forall i :: 0 <= i < |order| ==> requests[i] == RequestFor(cameras[order[i]], maxRenderRes, 1.0)
  {
    if order == [] then []
    else FullRequests(cameras, maxRenderRes, order[..|order| - 1]) + [RequestFor(cameras[order[|order| - 1]], maxRenderRes, 1.0)]
  }

  /** Rendering one more client appends exactly its request. */
  lemma FullRequestsGrow(cameras: map<int, Camera>, maxRenderRes: int, order: seq<int>, id: int)
    requires forall i :: 0 <= i < |order| ==> order[i] in cameras
    requires id in cameras
    ensures FullRequests(cameras, maxRenderRes, order + [id])
         == FullRequests(cameras, maxRenderRes, order) + [RequestFor(cameras[id], maxRenderRes, 1.0)]
  {
    assert (order + [id])[..|order|] == order;
  }

  /** What `update` can change, or must leave alone, as values: every
      client's `last_render`, published backgrounds and live camera, keyed
      by client id, and the callback log. */
  datatype Observed = Observed(lastRenders: map<int, real>, backgrounds: map<int, seq<Background>>,
                               cameras: map<int, Camera>, calls: seq<RenderRequest>)
  {
    /** The three per-client maps cover the same ids. */
    predicate SameIds()
    {
      backgrounds.Keys == lastRenders.Keys && cameras.Keys == lastRenders.Keys
    }
  }

  /** `o` after client `id` rendered at full scale at time `t`: its request
      is logged and its image published at the configured quality. */
  function RenderedOne(o: Observed, id: int, t: real, maxRenderRes: int, jpegQuality: int): Observed
    requires o.SameIds() && id in o.lastRenders
  {
    var camera := o.cameras[id];
    Observed(o.lastRenders[id := t],
             o.backgrounds[id := o.backgrounds[id] + [PublishedFor(camera, maxRenderRes, jpegQuality, 1.0)]],
             o.cameras,
             o.calls + [RequestFor(camera, maxRenderRes, 1.0)])
  }

  /** The log of `after` is that of `before` followed by the full-scale
      requests of the clients of `order`, in that order. */
  predicate LoggedInOrder(before: Observed, after: Observed, order: seq<int>, maxRenderRes: int)
  {
    && (forall i :: 0 <= i < |order| ==> order[i] in after.cameras)
    && after.calls == before.calls + FullRequests(after.cameras, maxRenderRes, order)
  }

  /** Every client of `done` rendered no earlier than `start` and published
      its full-scale image once; every other client kept its `last_render`
      and its backgrounds. */
  predicate RenderedClients(before: Observed, after: Observed, done: set<int>, start: real,
                            maxRenderRes: int, jpegQuality: int)
    requires before.SameIds() && after.SameIds() && after.lastRenders.Keys == before.lastRenders.Keys
  {
    forall id :: id in after.lastRenders ==>
      if id in done then
        && start <= after.lastRenders[id]
        && after.backgrounds[id] == before.backgrounds[id] + [PublishedFor(after.cameras[id], maxRenderRes, jpegQuality, 1.0)]
      else
        after.lastRenders[id] == before.lastRenders[id] && after.backgrounds[id] == before.backgrounds[id]
  }

  /** `after` against `before`: the same clients with the same cameras;
      `order` lists the ids of `done` once each, the log grew by exactly
      their full-scale requests in that order, each of them rendered no
      earlier than `start` and published its image once, and every other
      client kept its `last_render` and its backgrounds. */
  predicate RenderedExactly(before: Observed, after: Observed, done: set<int>, order: seq<int>,
                            start: real, maxRenderRes: int, jpegQuality: int)
  {
    && before.SameIds() && after.SameIds()
    && after.lastRenders.Keys == before.lastRenders.Keys
    && after.cameras == before.cameras
    && done <= after.lastRenders.Keys
    && Enumerates(order, done)
    && LoggedInOrder(before, after, order, maxRenderRes)
    && RenderedClients(before, after, done, start, maxRenderRes, jpegQuality)
  }

  /** Read back from the outcome: the earlier log survives as a prefix,
      exactly one request follows per rendered client, and the k-th new
      entry is the full-scale request of the k-th client of `order`. */
  lemma LogReadBack(before: Observed, after: Observed, done: set<int>, order: seq<int>,
                    start: real, maxRenderRes: int, jpegQuality: int)
    requires RenderedExactly(before, after, done, order, start, maxRenderRes, jpegQuality)
    ensures |after.calls| == |before.calls| + |done|
    ensures after.calls[..|before.calls|] == before.calls
    ensures forall k :: 0 <= k < |order| ==>
      order[k] in done && after.calls[|before.calls| + k] == RequestFor(after.cameras[order[k]], maxRenderRes, 1.0)
  {
    EnumerationLength(order, done);
    var logged := FullRequests(after.cameras, maxRenderRes, order);
    assert after.calls == before.calls + logged;
    forall k | 0 <= k < |order|
      ensures after.calls[|before.calls| + k] == RequestFor(after.cameras[order[k]], maxRenderRes, 1.0)
    {
      assert after.calls[|before.calls| + k] == logged[k];
    }
  }

  /** Before any render, nothing has been rendered. */
  lemma NothingRenderedYet(o: Observed, start: real, maxRenderRes: int, jpegQuality: int)
    requires o.SameIds()
    ensures RenderedExactly(o, o, {}, [], start, maxRenderRes, jpegQuality)
  {
    assert o.calls + [] == o.calls;
  }

  /** One more full-scale render appends exactly its request to the log. */
  lemma LogStep(before: Observed, now: Observed, order: seq<int>, maxRenderRes: int, jpegQuality: int, id: int, t: real)
    requires now.SameIds() && id in now.lastRenders
    requires LoggedInOrder(before, now, order, maxRenderRes)
    ensures LoggedInOrder(before, RenderedOne(now, id, t, maxRenderRes, jpegQuality), order + [id], maxRenderRes)
  {
    var logged := FullRequests(now.cameras, maxRenderRes, order);
    var request := RequestFor(now.cameras[id], maxRenderRes, 1.0);
    FullRequestsGrow(now.cameras, maxRenderRes, order, id);
    assert (before.calls + logged) + [request] == before.calls + (logged + [request]);
  }

  /** One more full-scale render, of a client not yet rendered, at a time
      no earlier than `start`, adds exactly that client to those rendered. */
  lemma ClientsStep(before: Observed, now: Observed, done: set<int>, start: real,
                    maxRenderRes: int, jpegQuality: int, id: int, t: real)
    requires before.SameIds() && now.SameIds() && now.lastRenders.Keys == before.lastRenders.Keys
    requires id in now.lastRenders && id !in done && start <= t
    requires RenderedClients(before, now, done, start, maxRenderRes, jpegQuality)
    ensures RenderedClients(before, RenderedOne(now, id, t, maxRenderRes, jpegQuality), done + {id}, start,
                            maxRenderRes, jpegQuality)
  {
  }

  /** Rendering one more client, not yet rendered, at a time no earlier than
      `start` extends the outcome by that client. */
  lemma RenderedStep(before: Observed, now: Observed, done: set<int>, order: seq<int>, start: real,
                     maxRenderRes: int, jpegQuality: int, id: int, t: real)
    requires RenderedExactly(before, now, done, order, start, maxRenderRes, jpegQuality)
    requires id in now.lastRenders && id !in done && start <= t
    ensures RenderedExactly(before, RenderedOne(now, id, t, maxRenderRes, jpegQuality), done + {id}, order + [id],
                            start, maxRenderRes, jpegQuality)
  {
    EnumeratesExtend(order, done, id);
    LogStep(before, now, order, maxRenderRes, jpegQuality, id, t);
    ClientsStep(before, now, done, start, maxRenderRes, jpegQuality, id, t);
  }

  /** A finite non-empty set of reals has a greatest element. */
  lemma {:induction false} HasGreatest(s: set<real>)
    requires s != {}
    ensures exists m :: m in s && forall t :: t in s ==> t <= m
    decreases s
  {
    if forall y :: y !in s {
      assert false;
    }
    var x :| x in s;
    var rest := s - {x};
    if rest == {} {
      forall t | t in s ensures t <= x {
        assert t !in rest;
      }
      assert x in s;
    } else {
      HasGreatest(rest);
      var m :| m in rest && forall t :: t in rest ==> t <= m;
      var g := if x <= m then m else x;
      forall t | t in s ensures t <= g {
        if t != x {
          assert t in rest;
        }
      }
      assert g in s;
    }
  }

  /** Python's `max(times, default=d)`. */
  function MaxOr(times: set<real>, default: real): (m: real)
    ensures times == {} ==> m == default
    ensures times != {} ==> m in times && forall t :: t in times ==> t <= m
  {
    if times == {} then default
    else
      HasGreatest(times);
      var m :| m in times && forall t :: t in times ==> t <= m;
      m
  }

  /** A metric value, split by the type test `metrics_text` applies. A Python
      bool is an int, so it is its own case here. */
  datatype MetricValue = FloatValue(f: real) | IntValue(n: int) | BoolValue(b: bool) | OtherValue(text: string)

  /** The number formatting the model leaves abstract: `.3f` for floats and
      `d` for ints. */
  datatype Formats = Formats(fixed3: real -> string, decimal: int -> string)

  /** The inner `f(key, value)` of `metrics_text`. */
  function FormatMetric(key: string, value: MetricValue, fmt: Formats): string
  {
    match value
    case FloatValue(x) => key + ": " + fmt.fixed3(x)
    case IntValue(n) => key + ": " + fmt.decimal(n)
    case BoolValue(b) => key + ": " + fmt.decimal(if b then 1 else 0)
    case OtherValue(s) => key + ": " + s
  }

  /** `" ".join(parts)`. */
  function JoinSpace(parts: seq<string>): string
  {
    if |parts| == 0 then ""
    else if |parts| == 1 then parts[0]
    else parts[0] + " " + JoinSpace(parts[1..])
  }

  /** `metrics_text`: every metric formatted in order, separated by spaces,
      wrapped in `<sub>` ... `</sub>`. */
  function MetricsText(metrics: seq<(string, MetricValue)>, fmt: Formats): (text: string)
    ensures |text| >= 11 && text[..5] == "<sub>" && text[|text| - 6..] == "</sub>"
    ensures metrics == [] ==> text == "<sub></sub>"
  {
    "<sub>" + JoinSpace(seq(|metrics|, i requires 0 <= i < |metrics| => FormatMetric(metrics[i].0, metrics[i].1, fmt))) + "</sub>"
  }

  /** A single metric is shown alone between the tags, with no separator. */
  lemma SingleMetricText(key: string, value: MetricValue, fmt: Formats)
    ensures MetricsText([(key, value)], fmt) == "<sub>" + FormatMetric(key, value, fmt) + "</sub>"
  {
  }

  /** A bool metric prints as the int 1 or 0. */
  lemma BoolMetricPrintsAsInt(key: string, b: bool, fmt: Formats)
    ensures FormatMetric(key, BoolValue(b), fmt) == FormatMetric(key, IntValue(if b then 1 else 0), fmt)
  {
  }

  /** The error `disconnect_client` raises for an id it does not know. */
  datatype Outcome = Removed | KeyError(key: int)

  /** `Viewer`: the registry of render clients and the viewer-wide state. */
  class Viewer {
    const renderFn: RenderFn
    const config: RenderConfig
    const clock: Clock
    var paused: bool
    var renderers: map<int, RenderClient>
    var lastUpdate: real
    var pauseButtonVisible: bool
    var resumeButtonVisible: bool

    /** Exactly the button that applies is shown: "Pause" while running,
        "Resume" while paused. */
    predicate ButtonsMatchPause()
      reads this`paused, this`pauseButtonVisible, this`resumeButtonVisible
    {
      pauseButtonVisible == !paused && resumeButtonVisible == paused
    }

    /** Every entry is the render client of the client with that id, sharing
        the viewer's callback, configuration and clock. Only constant fields
        are involved, so rendering never disturbs it. */
    ghost predicate Registry()
      reads this`renderers
    {
      forall id :: id in renderers ==>
        var r := renderers[id];
        && r.client.clientId == id
        && r.renderFn == renderFn && r.config == config && r.clock == clock
    }

    /** Every client's timestamps are readings taken before `t`. */
    ghost predicate StampedBefore(t: real)
      reads this`renderers, renderers.Values`lastRender, renderers.Values`lastMoved
    {
      forall id :: id in renderers ==> renderers[id].lastRender <= t && renderers[id].lastMoved <= t
    }

    ghost predicate Valid()
      reads this`lastUpdate, this`paused, this`pauseButtonVisible, this`resumeButtonVisible, this`renderers, renderers.Values`lastRender, renderers.Values`lastMoved, clock`now
    {
      && lastUpdate <= clock.now
      && ButtonsMatchPause()
      && Registry()
      && StampedBefore(clock.now)
    }

    /** The client handles of the connected clients. */
    ghost function Handles(): set<ClientHandle>
      reads this`renderers
    {
      set id | id in renderers :: renderers[id].client
    }

    /** Every client's published backgrounds. */
    ghost function Backgrounds(): map<int, seq<Background>>
      reads this`renderers, Handles()`backgrounds
    {
      map id | id in renderers :: renderers[id].client.backgrounds
    }

    /** Every connected client's live camera. */
    ghost function Cameras(): map<int, Camera>
      reads this`renderers, Handles()`camera
    {
      map id | id in renderers :: renderers[id].client.camera
    }

    /** Every client's `last_render`. */
    function LastRenders(): map<int, real>
      reads this`renderers, renderers.Values`lastRender
    {
      map id | id in renderers :: renderers[id].lastRender
    }

    /** The clients an `update(sceneChanged)` issued now would re-render. */
    ghost function Due(sceneChanged: bool): set<int>
      reads this`renderers, this`lastUpdate, renderers.Values`lastRender
    {
      Selected(sceneChanged, LastRenders(), lastUpdate)
    }

    /** `Viewer(server, render_fn, config)`: not paused, no clients, the
        "Pause" button shown and "Resume" hidden, `last_update` stamped. */
    constructor (renderFn: RenderFn, config: RenderConfig, clock: Clock)
      modifies clock`now
      ensures this.renderFn == renderFn && this.config == config && this.clock == clock
      ensures !paused && renderers == map[]
      ensures pauseButtonVisible && !resumeButtonVisible
      ensures old(clock.now) <= lastUpdate == clock.now
      ensures Valid()
    {
      this.renderFn := renderFn;
      this.config := config;
      this.clock := clock;
      paused := false;
      renderers := map[];
      var t := clock.Now();
      lastUpdate := t;
      pauseButtonVisible := true;
      resumeButtonVisible := false;
    }

    /** `last_moved`: the latest `last_moved` of any client, 0.0 without clients. */
    function LastMoved(): (m: real)
      reads this`renderers, renderers.Values`lastMoved
      ensures renderers == map[] ==> m == 0.0
      ensures forall id :: id in renderers ==> renderers[id].lastMoved <= m
      ensures renderers != map[] ==> exists id :: id in renderers && renderers[id].lastMoved == m
    {
      var times := set id | id in renderers :: renderers[id].lastMoved;
      assert renderers != map[] ==> times != {} by {
        if renderers != map[] {
          if forall id :: id !in renderers {
            assert false;
          }
          var id :| id in renderers;
          assert renderers[id].lastMoved in times;
        }
      }
      var m := MaxOr(times, 0.0);
      assert forall id :: id in renderers ==> renderers[id].lastMoved in times;
      m
    }

    /** `on_pause_train(pause)`: records the pause flag and shows the button
        that undoes it. */
    method OnPauseTrain(pause: bool)
      requires Valid()
      modifies this`paused, this`pauseButtonVisible, this`resumeButtonVisible
      ensures Valid()
      ensures paused == pause && pauseButtonVisible == !pause && resumeButtonVisible == pause
    {
      paused := pause;
      pauseButtonVisible := !pause;
      resumeButtonVisible := pause;
    }

    /** `on_max_img_res(res)`: sets the shared maximum resolution, which every
        connected client then renders with; nothing checks the value. */
    method OnMaxImgRes(res: int)
      requires Valid()
      modifies config`maxRenderRes
      ensures Valid()
      ensures config.maxRenderRes == res
      ensures forall id :: id in renderers ==> renderers[id].config.maxRenderRes == res
    {
      config.maxRenderRes := res;
    }

    /** `connect_client(client)`: maps the client's id to a fresh render client
        sharing the viewer's callback and configuration, replacing any entry
        the id had; the other entries stay. */
    method ConnectClient(client: ClientHandle)
      requires Valid()
      modifies this`renderers, clock`now
      ensures Valid()
      ensures client.clientId in renderers
      ensures renderers == old(renderers)[client.clientId := renderers[client.clientId]]
      ensures var r := renderers[client.clientId];
        && fresh(r) && r.client == client && r.renderFn == renderFn && r.config == config
        && old(clock.now) <= r.lastRender <= r.lastMoved == clock.now
    {
      var r := new RenderClient(client, renderFn, config, clock);
      renderers := renderers[client.clientId := r];
    }

    /** `disconnect_client(client)`: removes exactly the client's entry; for an
        unknown id `pop` raises `KeyError` and nothing changes. */
    method DisconnectClient(client: ClientHandle) returns (outcome: Outcome)
      requires Valid()
      modifies this`renderers
      ensures Valid()
      ensures renderers == old(renderers) - {client.clientId}
      ensures outcome == if client.clientId in old(renderers) then Removed else KeyError(client.clientId)
    {
      if client.clientId in renderers {
        renderers := renderers - {client.clientId};
        outcome := Removed;
      } else {
        outcome := KeyError(client.clientId);
      }
    }

    /** Every client's `last_render`, backgrounds and camera, and the log. */
    ghost function Observe(): (o: Observed)
      reads this`renderers, renderers.Values`lastRender, Handles()`backgrounds, Handles()`camera, renderFn`calls
      ensures o.SameIds() && o.lastRenders.Keys == renderers.Keys
    {
      Observed(LastRenders(), Backgrounds(), Cameras(), renderFn.calls)
    }

    /** The body of `update`'s loop for one selected id: that client renders
        at full scale, appending its request to the callback log; every other
        client keeps its state. */
    method RenderOne(id: int)
      requires id in renderers && Registry() && StampedBefore(clock.now)
      modifies clock`now, renderFn`calls, {renderers[id]}`lastRender, {renderers[id].client}`backgrounds
      ensures StampedBefore(clock.now) && old(clock.now) <= clock.now
      ensures Observe() == RenderedOne(old(Observe()), id, clock.now, config.maxRenderRes, config.jpegQuality)
    {
      var renderer := renderers[id];
      assert forall j :: j in renderers && j != id ==> renderers[j] != renderer && renderers[j].client != renderer.client;
      renderer.Render(1.0);
      assert forall j :: j in renderers ==> renderers[j].client.camera == old(renderers[j].client.camera);
      assert forall j :: j in renderers && j != id ==> renderers[j].lastRender == old(renderers[j].lastRender);
      assert forall j :: j in renderers && j != id ==> renderers[j].client.backgrounds == old(renderers[j].client.backgrounds);
      assert LastRenders() == old(LastRenders())[id := clock.now];
      assert Backgrounds() == old(Backgrounds())[id := old(renderer.client.backgrounds)
        + [PublishedFor(renderer.client.camera, config.maxRenderRes, config.jpegQuality, 1.0)]];
      assert Cameras() == old(Cameras());
    }

    /** One turn of `update`'s loop: client `id` renders at full scale when it
        is selected, and is then no longer to do. */
    method UpdateOne(sceneChanged: bool, id: int, ghost before: Observed, ghost due: set<int>,
                     ghost todo: set<int>, ghost visited: seq<int>, ghost start: real)
      returns (ghost visited': seq<int>)
      requires id in todo && todo <= renderers.Keys
      requires Registry() && StampedBefore(clock.now) && start <= clock.now
      requires due == Selected(sceneChanged, before.lastRenders, lastUpdate)
      requires RenderedExactly(before, Observe(), due - todo, visited, start, config.maxRenderRes, config.jpegQuality)
      modifies clock`now, renderFn`calls, {renderers[id]}`lastRender, {renderers[id].client}`backgrounds
      ensures StampedBefore(clock.now) && start <= clock.now
      ensures RenderedExactly(before, Observe(), due - (todo - {id}), visited', start, config.maxRenderRes, config.jpegQuality)
    {
      ghost var now := Observe();
      assert renderers[id].lastRender == now.lastRenders[id] == before.lastRenders[id];
      if sceneChanged || renderers[id].lastRender > lastUpdate {
        assert id in due;
        assert due - (todo - {id}) == (due - todo) + {id};
        RenderOne(id);
        RenderedStep(before, now, due - todo, visited, start, config.maxRenderRes, config.jpegQuality, id, clock.now);
        visited' := visited + [id];
      } else {
        assert id !in due;
        assert due - (todo - {id}) == due - todo;
        visited' := visited;
      }
    }

    /** The loop of `update(scene_changed)`: re-renders at full scale exactly
        the clients `Selected` picks from the state on entry, once each in
        the visiting order `order`, appending their requests to the callback
        log in that order, and leaves the others alone. */
    method RenderSelected(sceneChanged: bool) returns (ghost order: seq<int>)
      requires Valid()
      modifies clock`now, renderFn`calls, renderers.Values`lastRender, Handles()`backgrounds
      ensures Registry() && StampedBefore(clock.now) && old(clock.now) <= clock.now
      ensures RenderedExactly(old(Observe()), Observe(), old(Due(sceneChanged)), order, old(clock.now),
                              config.maxRenderRes, config.jpegQuality)
      ensures |order| == |old(Due(sceneChanged))|
    {
      ghost var before, due, start := Observe(), Due(sceneChanged), clock.now;
      NothingRenderedYet(before, start, config.maxRenderRes, config.jpegQuality);
      var todo := renderers.Keys;
      assert due - todo == {};
      order := [];
      while todo != {}
        invariant todo <= renderers.Keys && Registry() && StampedBefore(clock.now) && start <= clock.now
        invariant RenderedExactly(before, Observe(), due - todo, order, start, config.maxRenderRes, config.jpegQuality)
        decreases todo
      {
        if forall j :: j !in todo {
          assert false;
        }
        var id :| id in todo;
        order := UpdateOne(sceneChanged, id, before, due, todo, order, start);
        todo := todo - {id};
      }
      assert due - todo == due;
      EnumerationLength(order, due);
    }

    /** The last statement of `update`: `last_update` takes a fresh reading,
        after which no client has rendered since; the clients and the log
        are untouched. */
    method StampUpdate()
      requires ButtonsMatchPause() && Registry() && StampedBefore(clock.now)
      modifies this`lastUpdate, clock`now
      ensures old(clock.now) <= lastUpdate == clock.now
      ensures Valid() && Due(false) == {}
      ensures Observe() == old(Observe())
    {
      var t := clock.Now();
      lastUpdate := t;
      assert LastRenders() == old(LastRenders()) && Backgrounds() == old(Backgrounds());
      assert Cameras() == old(Cameras()) && renderFn.calls == old(renderFn.calls);
      SettledSelectsNothing(LastRenders(), lastUpdate);
    }

    /** `update(scene_changed)`: re-renders the selected clients once each,
        in some visiting order `order`, their requests reaching the callback
        in that order after the earlier log; keeps the registry and every
        camera; and stamps `last_update` afterwards, so that an immediate
        second `update(false)` has nothing to do. `after` is what the
        clients and the log look like on return. */
    method Update(sceneChanged: bool) returns (ghost order: seq<int>, ghost after: Observed)
      requires Valid()
      modifies this`lastUpdate, clock`now, renderFn`calls, renderers.Values`lastRender, Handles()`backgrounds
      ensures Valid()
      ensures old(clock.now) <= lastUpdate == clock.now
      ensures after == Observe()
      ensures RenderedExactly(old(Observe()), after, old(Due(sceneChanged)), order, old(clock.now),
                              config.maxRenderRes, config.jpegQuality)
      ensures |order| == |old(Due(sceneChanged))|
      ensures Due(false) == {}
    {
      ghost var before, due, start := Observe(), Due(sceneChanged), clock.now;
      order := RenderSelected(sceneChanged);
      after := Observe();
      ghost var maxRenderRes, jpegQuality := config.maxRenderRes, config.jpegQuality;
      assert RenderedExactly(before, after, due, order, start, maxRenderRes, jpegQuality);
      StampUpdate();
      assert config.maxRenderRes == maxRenderRes && config.jpegQuality == jpegQuality;
    }
  }
}
