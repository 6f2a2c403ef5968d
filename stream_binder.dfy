/** The calls each step of the networked-video-source component makes, as pure
    functions of the state that step reads, and what those calls amount to:
    the owner gate, the lazy sink set-up, the fixed attenuation override, the
    rebind on a stream delivery and the teardown. */
module StreamBinder {
  import opened Media
  import opened AudioGraph

  // ---------------------------------------------------------------------------
  // Projections of a call sequence

  /** The source nodes announced with `sound-source-set`, in order. */
  function Announced(t: seq<Effect>): seq<SourceNode>
    decreases |t|
  {
    if t == [] then []
    else (if t[0].SourceSetEmitted? then [t[0].source] else []) + Announced(t[1..])
  }

  /** The source nodes set on `sink` with `setNodeSource`, in order. */
  function NodeSources(sink: Sink, t: seq<Effect>): seq<SourceNode>
    decreases |t|
  {
    if t == [] then []
    else (if t[0].NodeSourceSet? && t[0].sink == sink then [t[0].source] else []) + NodeSources(sink, t[1..])
  }

  /** How many times `sink.disconnect()` is called. */
  function Disconnects(sink: Sink, t: seq<Effect>): nat
    decreases |t|
  {
    if t == [] then 0
    else (if t[0] == Disconnected(sink) then 1 else 0) + Disconnects(sink, t[1..])
  }

  /** The streams given to a silent playback element, in order. */
  function Shims(t: seq<Effect>): seq<Stream>
    decreases |t|
  {
    if t == [] then []
    else (if t[0].ShimCreated? then [t[0].stream] else []) + Shims(t[1..])
  }

  /** The owners a media stream is requested for, in order. */
  function Requests(t: seq<Effect>): seq<string>
    decreases |t|
  {
    if t == [] then []
    else (if t[0].StreamRequested? then [t[0].owner] else []) + Requests(t[1..])
  }

  /** The source nodes built with `createMediaStreamSource`, in order. */
  function Created(t: seq<Effect>): seq<SourceNode>
    decreases |t|
  {
    if t == [] then []
    else (if t[0].SourceCreated? then [t[0].source] else []) + Created(t[1..])
  }

  /** How many sinks are constructed. */
  function SinksCreated(t: seq<Effect>): nat
    decreases |t|
  {
    if t == [] then 0
    else (if t[0].SinkCreated? then 1 else 0) + SinksCreated(t[1..])
  }

  lemma {:induction false} AnnouncedAppend(a: seq<Effect>, b: seq<Effect>)
    ensures Announced(a + b) == Announced(a) + Announced(b)
    decreases |a|
  {
    if a == [] {
      assert a + b == b;
    } else {
      assert (a + b)[0] == a[0];
      assert (a + b)[1..] == a[1..] + b;
      AnnouncedAppend(a[1..], b);
    }
  }

  lemma {:induction false} NodeSourcesAppend(sink: Sink, a: seq<Effect>, b: seq<Effect>)
    ensures NodeSources(sink, a + b) == NodeSources(sink, a) + NodeSources(sink, b)
    decreases |a|
  {
    if a == [] {
      assert a + b == b;
    } else {
      assert (a + b)[0] == a[0];
      assert (a + b)[1..] == a[1..] + b;
      NodeSourcesAppend(sink, a[1..], b);
    }
  }

  lemma {:induction false} DisconnectsAppend(sink: Sink, a: seq<Effect>, b: seq<Effect>)
    ensures Disconnects(sink, a + b) == Disconnects(sink, a) + Disconnects(sink, b)
    decreases |a|
  {
    if a == [] {
      assert a + b == b;
    } else {
      assert (a + b)[0] == a[0];
      assert (a + b)[1..] == a[1..] + b;
      DisconnectsAppend(sink, a[1..], b);
    }
  }

  lemma {:induction false} ShimsAppend(a: seq<Effect>, b: seq<Effect>)
    ensures Shims(a + b) == Shims(a) + Shims(b)
    decreases |a|
  {
    if a == [] {
      assert a + b == b;
    } else {
      assert (a + b)[0] == a[0];
      assert (a + b)[1..] == a[1..] + b;
      ShimsAppend(a[1..], b);
    }
  }

  lemma {:induction false} RequestsAppend(a: seq<Effect>, b: seq<Effect>)
    ensures Requests(a + b) == Requests(a) + Requests(b)
    decreases |a|
  {
    if a == [] {
      assert a + b == b;
    } else {
      assert (a + b)[0] == a[0];
      assert (a + b)[1..] == a[1..] + b;
      RequestsAppend(a[1..], b);
    }
  }

  lemma {:induction false} SinksCreatedAppend(a: seq<Effect>, b: seq<Effect>)
    ensures SinksCreated(a + b) == SinksCreated(a) + SinksCreated(b)
    decreases |a|
  {
    if a == [] {
      assert a + b == b;
    } else {
      assert (a + b)[0] == a[0];
      assert (a + b)[1..] == a[1..] + b;
      SinksCreatedAppend(a[1..], b);
    }
  }

  lemma {:induction false} CreatedAppend(a: seq<Effect>, b: seq<Effect>)
    ensures Created(a + b) == Created(a) + Created(b)
    decreases |a|
  {
    if a == [] {
      assert a + b == b;
    } else {
      assert (a + b)[0] == a[0];
      assert (a + b)[1..] == a[1..] + b;
      CreatedAppend(a[1..], b);
    }
  }

  /** Every projection distributes over concatenation. */
  lemma ProjectionsAppend(sink: Sink, a: seq<Effect>, b: seq<Effect>)
    ensures Announced(a + b) == Announced(a) + Announced(b)
    ensures NodeSources(sink, a + b) == NodeSources(sink, a) + NodeSources(sink, b)
    ensures Disconnects(sink, a + b) == Disconnects(sink, a) + Disconnects(sink, b)
    ensures Shims(a + b) == Shims(a) + Shims(b)
    ensures Requests(a + b) == Requests(a) + Requests(b)
    ensures SinksCreated(a + b) == SinksCreated(a) + SinksCreated(b)
    ensures Created(a + b) == Created(a) + Created(b)
  {
    AnnouncedAppend(a, b);
    NodeSourcesAppend(sink, a, b);
    DisconnectsAppend(sink, a, b);
    ShimsAppend(a, b);
    RequestsAppend(a, b);
    SinksCreatedAppend(a, b);
    CreatedAppend(a, b);
  }

  // ---------------------------------------------------------------------------
  // Owner gate (the `then` callback of getNetworkedEntity in init)

  /** JavaScript truthiness of the resolved owner id: absent and "" are falsy. */
  predicate Truthy(owner: Option<string>)
  {
    owner.Some? && owner.value != ""
  }

  /** A media stream is requested, once, exactly when the owner is truthy. */
  function RequestEffects(owner: Option<string>): (r: seq<Effect>)
    ensures Requests(r) == (if Truthy(owner) then [owner.value] else [])
    ensures |r| == |Requests(r)|
  {
    if Truthy(owner) then [StreamRequested(owner.value)] else []
  }

  // ---------------------------------------------------------------------------
  // Sink set-up and attenuation

  /** The four setter calls of `_setPannerProperties` on an existing sink. */
  function PannerEffects(sink: Sink): seq<Effect>
  {
    [ PannerSet(sink, MaxDistance(8.0)),
      PannerSet(sink, RolloffFactor(3.0)),
      PannerSet(sink, Model(Exponential)),
      PannerSet(sink, RefDistance(2.0)) ]
  }

  /** The calls of `setupSound` before the sink is constructed: detach a
      previous sink if there is one, and build the scene listener if the
      scene has none (`newListener`). */
  function SetupPrefix(previous: Sink?, newListener: AudioListener?): seq<Effect>
  {
    (if previous != null then [SinkDetached(previous)] else [])
    + (if newListener != null then [ListenerCreated(newListener)] else [])
  }

  /** The calls of `setupSound` after the sink is constructed: attach it,
      apply the attenuation override and start playback. A `THREE.Audio`
      sink has no panner setters, so on a non-positional sink the first
      setter throws and `setupSound` stops after the attach. */
  function SetupSuffix(sink: Sink): seq<Effect>
  {
    [SinkAttached(sink)] + (if sink.positional then PannerEffects(sink) + [SinkPlayed(sink)] else [])
  }

  /** The calls of `setupSound`. */
  function SetupEffects(previous: Sink?, newListener: AudioListener?, sink: Sink): seq<Effect>
  {
    SetupPrefix(previous, newListener) + ([SinkCreated(sink)] + SetupSuffix(sink))
  }

  /** The panner calls set every parameter to the override, whatever the sink
      had before, and touch nothing else. */
  lemma {:induction false} PannerOverride(v: SinkView, sink: Sink)
    ensures Replay(v, sink, PannerEffects(sink)) == v.(panner := OverridePanner)
  {
    var t := PannerEffects(sink);
    var v1 := Apply(v, sink, t[0]);
    var v2 := Apply(v1, sink, t[1]);
    var v3 := Apply(v2, sink, t[2]);
    ReplayCons(v, sink, t[0], t[1..]);
    ReplayCons(v1, sink, t[1], t[2..]);
    ReplayCons(v2, sink, t[2], t[3..]);
    ReplayCons(v3, sink, t[3], []);
    assert t == [t[0]] + t[1..];
    assert t[1..] == [t[1]] + t[2..];
    assert t[2..] == [t[2]] + t[3..];
    assert t[3..] == [t[3]] + [];
  }

  /** The projections of a single call. */
  lemma {:induction false} ProjectionsOne(sink: Sink, e: Effect)
    ensures Announced([e]) == (if e.SourceSetEmitted? then [e.source] else [])
    ensures NodeSources(sink, [e]) == (if e.NodeSourceSet? && e.sink == sink then [e.source] else [])
    ensures Disconnects(sink, [e]) == (if e == Disconnected(sink) then 1 else 0)
    ensures Shims([e]) == (if e.ShimCreated? then [e.stream] else [])
    ensures Requests([e]) == (if e.StreamRequested? then [e.owner] else [])
    ensures SinksCreated([e]) == (if e.SinkCreated? then 1 else 0)
    ensures Created([e]) == (if e.SourceCreated? then [e.source] else [])
  {
    assert [e][1..] == [];
  }

  /** After `setupSound`, a sink untouched before it has no source, and the
      override attenuation iff it is positional; a non-positional sink keeps
      the panner it had. */
  lemma {:induction false} SetupReplay(v: SinkView, previous: Sink?, newListener: AudioListener?, sink: Sink)
    requires previous != sink
    ensures Replay(v, sink, SetupEffects(previous, newListener, sink))
      == (if sink.positional then v.(panner := OverridePanner) else v)
  {
    var pre := SetupPrefix(previous, newListener) + [SinkCreated(sink), SinkAttached(sink)];
    var p := if sink.positional then PannerEffects(sink) else [];
    var post := if sink.positional then [SinkPlayed(sink)] else [];
    assert SetupEffects(previous, newListener, sink) == pre + p + post;
    assert Untargeted(sink, pre);
    assert Untargeted(sink, post);
    ReplayAppend(v, sink, pre + p, post);
    ReplayAppend(v, sink, pre, p);
    ReplayUntargeted(v, sink, pre);
    if sink.positional {
      PannerOverride(v, sink);
      ReplayUntargeted(v.(panner := OverridePanner), sink, post);
    } else {
      assert p == [] && post == [];
    }
  }

  /** Calls that neither build a sink or a source node, request or announce
      anything, set a node source, disconnect nor make a playback element. */
  predicate Quiet(t: seq<Effect>)
  {
    forall i :: 0 <= i < |t| ==> QuietCall(t[i])
  }

  predicate QuietCall(e: Effect)
  {
    e.VideoElementCreated? || e.ListenerCreated? || e.SinkAttached? || e.SinkDetached?
    || e.PannerSet? || e.SinkPlayed?
  }

  lemma {:induction false} QuietProjections(sink: Sink, t: seq<Effect>)
    requires Quiet(t)
    ensures Announced(t) == [] && NodeSources(sink, t) == [] && Disconnects(sink, t) == 0
    ensures Shims(t) == [] && Requests(t) == [] && SinksCreated(t) == 0 && Created(t) == []
    decreases |t|
  {
    if t != [] {
      assert QuietCall(t[0]);
      assert Quiet(t[1..]) by {
        forall i | 0 <= i < |t[1..]| ensures QuietCall(t[1..][i]) {
          assert t[1..][i] == t[i + 1];
        }
      }
      QuietProjections(sink, t[1..]);
    }
  }

  /** `SetupReplay` for a new sink appended to a call history that never
      targeted it. The first ensures only regroups `SetupEffects` the way
      `SetupSound` builds its trace. */
  lemma SetupView(t: seq<Effect>, previous: Sink?, newListener: AudioListener?, sink: Sink)
    requires Untargeted(sink, t) && previous != sink
    ensures t + SetupEffects(previous, newListener, sink)
      == t + SetupPrefix(previous, newListener) + ([SinkCreated(sink)] + SetupSuffix(sink))
    ensures View(sink, t + SetupEffects(previous, newListener, sink))
      == Untouched.(panner := if sink.positional then OverridePanner else Unset)
  {
    ReplayUntargeted(Untouched, sink, t);
    ReplayAppend(Untouched, sink, t, SetupEffects(previous, newListener, sink));
    SetupReplay(Untouched, previous, newListener, sink);
  }

  /** Proof helper for `SetupSound`: the set-up calls from the construction
      on, regrouped in the order the method appends them. */
  lemma SetupSteps(before: seq<Effect>, sink: Sink)
    ensures before + [SinkCreated(sink)] + [SinkAttached(sink)]
              + (if sink.positional then PannerEffects(sink) else [])
              + (if sink.positional then [SinkPlayed(sink)] else [])
            == before + ([SinkCreated(sink)] + SetupSuffix(sink))
  {
    if sink.positional {
      assert SetupSuffix(sink) == [SinkAttached(sink)] + PannerEffects(sink) + [SinkPlayed(sink)];
    } else {
      assert SetupSuffix(sink) == [SinkAttached(sink)];
    }
  }

  lemma SetupQuiet(previous: Sink?, newListener: AudioListener?, sink: Sink)
    ensures Quiet(SetupPrefix(previous, newListener)) && Quiet(SetupSuffix(sink))
  {
  }

  /** `setupSound` creates exactly one sink, and neither disconnects nor
      announces a source. */
  lemma {:induction false} SetupProjections(previous: Sink?, newListener: AudioListener?, sink: Sink)
    ensures SinksCreated(SetupEffects(previous, newListener, sink)) == 1
    ensures Announced(SetupEffects(previous, newListener, sink)) == []
    ensures Disconnects(sink, SetupEffects(previous, newListener, sink)) == 0
    ensures Created(SetupEffects(previous, newListener, sink)) == []
  {
    var pre := SetupPrefix(previous, newListener);
    var post := SetupSuffix(sink);
    var t := [SinkCreated(sink)] + post;
    SetupQuiet(previous, newListener, sink);
    QuietProjections(sink, pre);
    QuietProjections(sink, post);
    ProjectionsOne(sink, SinkCreated(sink));
    SinksCreatedAppend([SinkCreated(sink)], post);
    AnnouncedAppend([SinkCreated(sink)], post);
    DisconnectsAppend(sink, [SinkCreated(sink)], post);
    CreatedAppend([SinkCreated(sink)], post);
    SinksCreatedAppend(pre, t);
    AnnouncedAppend(pre, t);
    DisconnectsAppend(sink, pre, t);
    CreatedAppend(pre, t);
  }

  // ---------------------------------------------------------------------------
  // Rebind (`_setMediaStream` from the duplicate check on)

  /** The calls that build a source node from a stream, set it on the sink
      and announce it. */
  function SourceEffects(sink: Sink, n: SourceNode): seq<Effect>
  {
    [SourceCreated(n)] + [NodeSourceSet(sink, n)] + [SourceSetEmitted(n)]
  }

  /** The calls that bind a non-null stream: the optional silent playback
      element, then the source node's calls. */
  function BindEffects(sink: Sink, s: Stream, shim: bool): seq<Effect>
  {
    (if shim then [ShimCreated(s)] else []) + SourceEffects(sink, MediaStreamSource(s))
  }

  lemma {:induction false} SourceProjections(sink: Sink, n: SourceNode)
    ensures var t := SourceEffects(sink, n);
      Announced(t) == [n] && NodeSources(sink, t) == [n] && Created(t) == [n]
      && Disconnects(sink, t) == 0 && Shims(t) == [] && SinksCreated(t) == 0
  {
    ProjectionsOne(sink, SourceCreated(n));
    ProjectionsOne(sink, NodeSourceSet(sink, n));
    ProjectionsOne(sink, SourceSetEmitted(n));
    ProjectionsAppend(sink, [SourceCreated(n)], [NodeSourceSet(sink, n)]);
    ProjectionsAppend(sink, [SourceCreated(n)] + [NodeSourceSet(sink, n)], [SourceSetEmitted(n)]);
  }

  lemma {:induction false} BindProjections(sink: Sink, s: Stream, shim: bool)
    ensures Announced(BindEffects(sink, s, shim)) == [MediaStreamSource(s)]
    ensures NodeSources(sink, BindEffects(sink, s, shim)) == [MediaStreamSource(s)]
    ensures Disconnects(sink, BindEffects(sink, s, shim)) == 0
    ensures Shims(BindEffects(sink, s, shim)) == (if shim then [s] else [])
    ensures SinksCreated(BindEffects(sink, s, shim)) == 0
    ensures Created(BindEffects(sink, s, shim)) == [MediaStreamSource(s)]
  {
    var n := MediaStreamSource(s);
    var pre := if shim then [ShimCreated(s)] else [];
    if shim { ProjectionsOne(sink, ShimCreated(s)); }
    SourceProjections(sink, n);
    ProjectionsAppend(sink, pre, SourceEffects(sink, n));
  }

  /** A single call replays as that call. */
  lemma ReplayOne(v: SinkView, sink: Sink, e: Effect)
    ensures Replay(v, sink, [e]) == Apply(v, sink, e)
  {
    ReplayCons(v, sink, e, []);
    assert [e] + [] == [e];
  }

  /** Binding connects the stream's node to the sink and makes it the node a
      later disconnect severs; nothing else about the sink changes. */
  lemma {:induction false} BindReplay(v: SinkView, sink: Sink, s: Stream, shim: bool)
    ensures Replay(v, sink, BindEffects(sink, s, shim))
      == v.(source := Some(MediaStreamSource(s)), live := v.live + multiset{MediaStreamSource(s)})
  {
    var n := MediaStreamSource(s);
    var pre := if shim then [ShimCreated(s)] else [];
    var a := [SourceCreated(n)];
    var b := [NodeSourceSet(sink, n)];
    var c := [SourceSetEmitted(n)];
    ReplayAppend(v, sink, pre, a + b + c);
    assert Untargeted(sink, pre);
    ReplayUntargeted(v, sink, pre);
    ReplayAppend(v, sink, a + b, c);
    ReplayAppend(v, sink, a, b);
    ReplayOne(v, sink, a[0]);
    ReplayOne(Replay(v, sink, a), sink, b[0]);
    ReplayOne(Replay(v, sink, a + b), sink, c[0]);
  }

  /** The disconnect of the previously bound source, made only when a handle
      was bound. */
  function DisconnectEffects(sink: Sink, current: Option<Stream>): seq<Effect>
  {
    if current.Some? then [Disconnected(sink)] else []
  }

  /** Severing the bound source leaves nothing connected at any point. */
  lemma DisconnectReplay(v: SinkView, sink: Sink, current: Option<Stream>)
    requires Carries(v, current)
    ensures var u := Replay(v, sink, DisconnectEffects(sink, current));
      u.live == multiset{} && u.source == v.source && u.panner == v.panner
    ensures SingleThroughout(v, sink, DisconnectEffects(sink, current))
  {
    CarriesOne(v, current);
    if current.Some? {
      ReplayCons(v, sink, Disconnected(sink), []);
      assert [Disconnected(sink)] + [] == DisconnectEffects(sink, current);
      SingleThroughoutOne(v, sink, Disconnected(sink));
    } else {
      SingleThroughoutEmpty(v, sink);
    }
  }

  /** The calls `_setMediaStream` makes after the sink exists, given the bound
      handle `current`, the delivered handle `next` and the user-agent test. */
  function RebindEffects(sink: Sink, current: Option<Stream>, next: Option<Stream>, shim: bool): seq<Effect>
  {
    if next == current then []
    else DisconnectEffects(sink, current) + (if next.Some? then BindEffects(sink, next.value, shim) else [])
  }

  /** The only kinds of call a rebind makes on or beside `sink`. */
  predicate RebindCall(sink: Sink, e: Effect)
  {
    e == Disconnected(sink) || e.ShimCreated? || e.SourceCreated?
    || (e.NodeSourceSet? && e.sink == sink) || e.SourceSetEmitted?
  }

  /** Every call of `t` is of a kind a rebind makes. */
  predicate OnlyRebindCalls(sink: Sink, t: seq<Effect>)
  {
    forall i :: 0 <= i < |t| ==> RebindCall(sink, t[i])
  }

  /** Proof helper for `RebindCalls`: the kinds of call survive concatenation. */
  lemma OnlyRebindCallsAppend(sink: Sink, a: seq<Effect>, b: seq<Effect>)
    requires OnlyRebindCalls(sink, a) && OnlyRebindCalls(sink, b)
    ensures OnlyRebindCalls(sink, a + b)
  {
    forall i | 0 <= i < |a + b| ensures RebindCall(sink, (a + b)[i]) {
      if i >= |a| {
        assert (a + b)[i] == b[i - |a|];
      }
    }
  }

  lemma BindCalls(sink: Sink, s: Stream, shim: bool)
    ensures OnlyRebindCalls(sink, BindEffects(sink, s, shim))
  {
  }

  /** What a rebind amounts to. */
  lemma {:induction false} RebindProjections(sink: Sink, current: Option<Stream>, next: Option<Stream>, shim: bool)
    // A repeated handle (both null included) changes nothing in the audio graph.
    ensures next == current ==> RebindEffects(sink, current, next, shim) == []
    // The old source is disconnected exactly once iff a handle was bound.
    ensures Disconnects(sink, RebindEffects(sink, current, next, shim))
      == (if next != current && current.Some? then 1 else 0)
    // Exactly one source node, built from `next`, is created, set on the sink
    // and announced iff `next` is a new non-null handle.
    ensures Announced(RebindEffects(sink, current, next, shim))
      == (if next != current && next.Some? then [MediaStreamSource(next.value)] else [])
    ensures NodeSources(sink, RebindEffects(sink, current, next, shim)) == Announced(RebindEffects(sink, current, next, shim))
    ensures Created(RebindEffects(sink, current, next, shim)) == Announced(RebindEffects(sink, current, next, shim))
    // The silent playback element is made only on Chrome, and only with a bind.
    ensures Shims(RebindEffects(sink, current, next, shim))
      == (if shim && next != current && next.Some? then [next.value] else [])
    // No sink is built.
    ensures SinksCreated(RebindEffects(sink, current, next, shim)) == 0
  {
    if next != current {
      var d := DisconnectEffects(sink, current);
      var b := if next.Some? then BindEffects(sink, next.value, shim) else [];
      ProjectionsAppend(sink, d, b);
      if current.Some? {
        ProjectionsOne(sink, Disconnected(sink));
      }
      if next.Some? {
        BindProjections(sink, next.value, shim);
      }
    }
  }

  /** A rebind disconnects before anything else, and makes no call but a
      disconnect, a playback element and the source node's three calls. */
  lemma RebindCalls(sink: Sink, current: Option<Stream>, next: Option<Stream>, shim: bool)
    ensures current.Some? && next != current ==> RebindEffects(sink, current, next, shim)[0] == Disconnected(sink)
    ensures var r := RebindEffects(sink, current, next, shim);
      forall i :: 0 <= i < |r| ==> RebindCall(sink, r[i])
  {
    var r := RebindEffects(sink, current, next, shim);
    if next != current {
      var d := DisconnectEffects(sink, current);
      var b := if next.Some? then BindEffects(sink, next.value, shim) else [];
      assert r == d + b;
      assert OnlyRebindCalls(sink, d);
      if next.Some? {
        BindCalls(sink, next.value, shim);
      }
      OnlyRebindCallsAppend(sink, d, b);
    }
    assert OnlyRebindCalls(sink, r);
  }

  // How many source nodes a call sequence connects to `sink`.
  function Binds(sink: Sink, t: seq<Effect>): nat
  {
    |NodeSources(sink, t)|
  }

  /** Connections are only ever added one `setNodeSource` at a time. */
  lemma {:induction false} LiveBound(v: SinkView, sink: Sink, t: seq<Effect>)
    ensures |Replay(v, sink, t).live| <= |v.live| + Binds(sink, t)
    decreases |t|
  {
    if t != [] {
      LiveBound(Apply(v, sink, t[0]), sink, t[1..]);
    }
  }

  lemma {:induction false} BindsPrefix(sink: Sink, t: seq<Effect>, k: nat)
    requires k <= |t|
    ensures Binds(sink, t[..k]) <= Binds(sink, t)
  {
    assert t == t[..k] + t[k..];
    ProjectionsAppend(sink, t[..k], t[k..]);
  }

  /** A call sequence that binds at most once, on a sink with nothing connected,
      never has two sources connected. */
  lemma SingleFromEmpty(v: SinkView, sink: Sink, t: seq<Effect>)
    requires v.live == multiset{}
    requires Binds(sink, t) <= 1
    ensures SingleThroughout(v, sink, t)
  {
    forall k | 0 <= k <= |t| ensures |Replay(v, sink, t[..k]).live| <= 1 {
      LiveBound(v, sink, t[..k]);
      BindsPrefix(sink, t, k);
    }
  }

  /** The rebind keeps the sink carrying exactly the delivered handle, and
      the attenuation survives it. */
  lemma {:induction false} RebindRewires(v: SinkView, sink: Sink, current: Option<Stream>, next: Option<Stream>, shim: bool)
    requires Carries(v, current)
    ensures var w := Replay(v, sink, RebindEffects(sink, current, next, shim));
      Carries(w, next) && w.panner == v.panner && (Connects(v, current) ==> Connects(w, next))
    // A sink whose source was severed (by teardown) is connected again by a
    // new handle.
    ensures next != current && v.live == multiset{} ==>
      Connects(Replay(v, sink, RebindEffects(sink, current, next, shim)), next)
  {
    if next != current {
      var d := DisconnectEffects(sink, current);
      var b := if next.Some? then BindEffects(sink, next.value, shim) else [];
      assert RebindEffects(sink, current, next, shim) == d + b;
      DisconnectReplay(v, sink, current);
      ReplayAppend(v, sink, d, b);
      if next.Some? {
        BindReplay(Replay(v, sink, d), sink, next.value, shim);
      } else {
        assert b == [];
      }
    }
  }

  /** `RebindRewires` for a sink's whole call history. */
  lemma RebindView(t: seq<Effect>, sink: Sink, current: Option<Stream>, next: Option<Stream>, shim: bool)
    requires Carries(View(sink, t), current)
    ensures var w := View(sink, t + RebindEffects(sink, current, next, shim));
      Carries(w, next) && w.panner == View(sink, t).panner
      && (Connects(View(sink, t), current) ==> Connects(w, next))
  {
    var r := RebindEffects(sink, current, next, shim);
    ReplayAppend(Untouched, sink, t, r);
    RebindRewires(View(sink, t), sink, current, next, shim);
  }

  /** Proof helper for `Rebind`: a rebind to a different handle appends the
      disconnect, then the bind. */
  lemma RebindTrace(t: seq<Effect>, sink: Sink, current: Option<Stream>, next: Option<Stream>, shim: bool)
    requires next != current
    ensures var d := DisconnectEffects(sink, current);
      var b := if next.Some? then BindEffects(sink, next.value, shim) else [];
      t + d + b == t + RebindEffects(sink, current, next, shim)
  {
    var d := DisconnectEffects(sink, current);
    var b := if next.Some? then BindEffects(sink, next.value, shim) else [];
    assert RebindEffects(sink, current, next, shim) == d + b;
    assert t + d + b == t + (d + b);
  }

  /** The old node is severed before the new one is connected, so no point of
      the rebind has two sources connected to the sink. */
  lemma {:induction false} RebindSingle(v: SinkView, sink: Sink, current: Option<Stream>, next: Option<Stream>, shim: bool)
    requires Carries(v, current)
    ensures SingleThroughout(v, sink, RebindEffects(sink, current, next, shim))
  {
    CarriesOne(v, current);
    if next == current {
      SingleThroughoutEmpty(v, sink);
    } else {
      var d := DisconnectEffects(sink, current);
      var b := if next.Some? then BindEffects(sink, next.value, shim) else [];
      assert RebindEffects(sink, current, next, shim) == d + b;
      DisconnectReplay(v, sink, current);
      if next.Some? {
        BindProjections(sink, next.value, shim);
      } else {
        assert b == [];
      }
      SingleFromEmpty(Replay(v, sink, d), sink, b);
      SingleThroughoutAppend(v, sink, d, b);
    }
  }

  // ---------------------------------------------------------------------------
  // Teardown

  /** The calls of `remove`: nothing without a sink; otherwise detach it and
      disconnect it if a stream is bound. */
  function RemoveEffects(sound: Sink?, stream: Option<Stream>): seq<Effect>
  {
    if sound == null then [] else [SinkDetached(sound)] + DisconnectEffects(sound, stream)
  }

  /** What teardown amounts to: the detach, then one disconnect iff a
      handle is bound, and nothing else. */
  lemma RemoveProjections(sound: Sink?, stream: Option<Stream>)
    ensures var r := RemoveEffects(sound, stream);
      |r| == (if sound == null then 0 else 1 + (if stream.Some? then 1 else 0))
    ensures sound != null ==> RemoveEffects(sound, stream)[0] == SinkDetached(sound)
    ensures sound != null ==> Disconnects(sound, RemoveEffects(sound, stream)) == (if stream.Some? then 1 else 0)
    ensures Announced(RemoveEffects(sound, stream)) == [] && SinksCreated(RemoveEffects(sound, stream)) == 0
  {
    if sound != null {
      var d := DisconnectEffects(sound, stream);
      ProjectionsOne(sound, SinkDetached(sound));
      ProjectionsAppend(sound, [SinkDetached(sound)], d);
      if stream.Some? {
        ProjectionsOne(sound, Disconnected(sound));
      }
    }
  }

  /** Teardown of a sink carrying the bound handle leaves nothing connected. */
  lemma RemoveSilences(v: SinkView, sink: Sink, stream: Option<Stream>)
    requires Carries(v, stream)
    ensures var w := Replay(v, sink, RemoveEffects(sink, stream));
      w.live == multiset{} && Carries(w, stream) && w.panner == v.panner
  {
    var r := RemoveEffects(sink, stream);
    assert Replay(v, sink, r) == Replay(Apply(v, sink, r[0]), sink, r[1..]);
    if stream.Some? {
      assert r[1..] == [Disconnected(sink)];
      assert Replay(v, sink, r[1..]) == Replay(Apply(v, sink, r[1]), sink, r[2..]);
    }
  }

  // ---------------------------------------------------------------------------
  // Sequences of deliveries to one entity whose sink exists

  /** One delivery: the <video> element is made before the duplicate check,
      then the rebind. */
  function DeliveryEffects(sink: Sink, current: Option<Stream>, next: Option<Stream>, shim: bool): seq<Effect>
  {
    [VideoElementCreated(next)] + RebindEffects(sink, current, next, shim)
  }

  /** Proof helper for `SetMediaStream`: a delivery to an existing sink
      appends the video element, nothing for the set-up, then the rebind. */
  lemma DeliveryTrace(t: seq<Effect>, sink: Sink, current: Option<Stream>, next: Option<Stream>, shim: bool)
    ensures t + [VideoElementCreated(next)] + [] + RebindEffects(sink, current, next, shim)
      == t + DeliveryEffects(sink, current, next, shim)
  {
    Regroup(t, [VideoElementCreated(next)], RebindEffects(sink, current, next, shim));
  }

  /** Proof helper for `DeliveryTrace`: appending an empty step changes
      nothing, and the rest regroups. */
  lemma Regroup(t: seq<Effect>, v: seq<Effect>, r: seq<Effect>)
    ensures t + v + [] + r == t + (v + r)
  {
    assert t + v + [] == t + v;
  }

  function Deliver(sink: Sink, current: Option<Stream>, ds: seq<Option<Stream>>, shim: bool): seq<Effect>
    decreases |ds|
  {
    if ds == [] then [] else DeliveryEffects(sink, current, ds[0], shim) + Deliver(sink, ds[0], ds[1..], shim)
  }

  /** The handle bound after the deliveries `ds`: the last one delivered. */
  function Latest(current: Option<Stream>, ds: seq<Option<Stream>>): (r: Option<Stream>)
    ensures ds == [] ==> r == current
    ensures ds != [] ==> r == ds[|ds| - 1]
    decreases |ds|
  {
    if ds == [] then current else Latest(ds[0], ds[1..])
  }

  /** Reference definition: a source node for every delivery of a non-null
      handle that differs from the handle before it. */
  function NewSources(current: Option<Stream>, ds: seq<Option<Stream>>): seq<SourceNode>
    decreases |ds|
  {
    if ds == [] then []
    else (if ds[0] != current && ds[0].Some? then [MediaStreamSource(ds[0].value)] else []) + NewSources(ds[0], ds[1..])
  }

  /** Reference definition: how many deliveries replace a non-null handle. */
  function Replacements(current: Option<Stream>, ds: seq<Option<Stream>>): nat
    decreases |ds|
  {
    if ds == [] then 0
    else (if ds[0] != current && current.Some? then 1 else 0) + Replacements(ds[0], ds[1..])
  }

  /** One delivery: the video element made before the duplicate check
      touches neither the sink nor the announcements, so the delivery
      announces, sets and disconnects what its rebind does. */
  lemma {:induction false} DeliveryProjections(sink: Sink, current: Option<Stream>, next: Option<Stream>, shim: bool)
    ensures Announced(DeliveryEffects(sink, current, next, shim))
      == (if next != current && next.Some? then [MediaStreamSource(next.value)] else [])
    ensures NodeSources(sink, DeliveryEffects(sink, current, next, shim))
      == Announced(DeliveryEffects(sink, current, next, shim))
    ensures Disconnects(sink, DeliveryEffects(sink, current, next, shim))
      == (if next != current && current.Some? then 1 else 0)
    ensures Created(DeliveryEffects(sink, current, next, shim))
      == Announced(DeliveryEffects(sink, current, next, shim))
    ensures Shims(DeliveryEffects(sink, current, next, shim))
      == (if shim && next != current && next.Some? then [next.value] else [])
    ensures SinksCreated(DeliveryEffects(sink, current, next, shim)) == 0
    ensures Replay(Untouched, sink, [VideoElementCreated(next)]) == Untouched
  {
    var video := [VideoElementCreated(next)];
    var r := RebindEffects(sink, current, next, shim);
    RebindProjections(sink, current, next, shim);
    assert Quiet(video);
    QuietProjections(sink, video);
    AnnouncedAppend(video, r);
    NodeSourcesAppend(sink, video, r);
    DisconnectsAppend(sink, video, r);
    CreatedAppend(video, r);
    ShimsAppend(video, r);
    SinksCreatedAppend(video, r);
    ReplayCons(Untouched, sink, video[0], []);
    assert video == video + [];
  }

  /** The first delivery builds exactly one sink, with no disconnect, and
      announces a source exactly when the handle is non-null and the sink
      positional: on a non-positional sink `setupSound` throws, the delivery
      is rejected and nothing is bound. */
  lemma {:induction false} FirstDeliveryProjections(newListener: AudioListener?, sink: Sink, next: Option<Stream>, shim: bool)
    ensures var t := [VideoElementCreated(next)] + SetupEffects(null, newListener, sink)
        + (if sink.positional then RebindEffects(sink, None, next, shim) else []);
      SinksCreated(t) == 1 && Disconnects(sink, t) == 0 && Created(t) == Announced(t)
      && Announced(t) == (if sink.positional && next.Some? then [MediaStreamSource(next.value)] else [])
  {
    var u := [VideoElementCreated(next)] + SetupEffects(null, newListener, sink);
    FirstSetupProjections(newListener, sink, next);
    if sink.positional {
      var r := RebindEffects(sink, None, next, shim);
      RebindProjections(sink, None, next, shim);
      SinksCreatedAppend(u, r);
      DisconnectsAppend(sink, u, r);
      AnnouncedAppend(u, r);
      CreatedAppend(u, r);
    } else {
      assert u + [] == u;
    }
  }

  /** The video element and the set-up of a first delivery. */
  lemma FirstSetupProjections(newListener: AudioListener?, sink: Sink, next: Option<Stream>)
    ensures var u := [VideoElementCreated(next)] + SetupEffects(null, newListener, sink);
      SinksCreated(u) == 1 && Disconnects(sink, u) == 0 && Announced(u) == [] && Created(u) == []
  {
    var v := [VideoElementCreated(next)];
    var u := SetupEffects(null, newListener, sink);
    assert Quiet(v);
    QuietProjections(sink, v);
    SetupProjections(null, newListener, sink);
    SinksCreatedAppend(v, u);
    DisconnectsAppend(sink, v, u);
    AnnouncedAppend(v, u);
    CreatedAppend(v, u);
  }

  /** Every delivery announces exactly the sources the reference definition
      names, in order. */
  lemma {:induction false} DeliverAnnounces(sink: Sink, current: Option<Stream>, ds: seq<Option<Stream>>, shim: bool)
    ensures Announced(Deliver(sink, current, ds, shim)) == NewSources(current, ds)
    ensures NodeSources(sink, Deliver(sink, current, ds, shim)) == NewSources(current, ds)
    ensures Disconnects(sink, Deliver(sink, current, ds, shim)) == Replacements(current, ds)
    decreases |ds|
  {
    if ds != [] {
      var first := DeliveryEffects(sink, current, ds[0], shim);
      var rest := Deliver(sink, ds[0], ds[1..], shim);
      assert Deliver(sink, current, ds, shim) == first + rest;
      var added := if ds[0] != current && ds[0].Some? then [MediaStreamSource(ds[0].value)] else [];
      assert NewSources(current, ds) == added + NewSources(ds[0], ds[1..]);
      assert Replacements(current, ds)
        == (if ds[0] != current && current.Some? then 1 else 0) + Replacements(ds[0], ds[1..]);
      DeliveryProjections(sink, current, ds[0], shim);
      AnnouncedAppend(first, rest);
      NodeSourcesAppend(sink, first, rest);
      DisconnectsAppend(sink, first, rest);
      DeliverAnnounces(sink, ds[0], ds[1..], shim);
    }
  }

  /** Deliveries to an existing sink create exactly the source nodes they
      announce and never build another sink. */
  lemma {:induction false} DeliverCreates(sink: Sink, current: Option<Stream>, ds: seq<Option<Stream>>, shim: bool)
    ensures Created(Deliver(sink, current, ds, shim)) == NewSources(current, ds)
    ensures SinksCreated(Deliver(sink, current, ds, shim)) == 0
    decreases |ds|
  {
    if ds != [] {
      var first := DeliveryEffects(sink, current, ds[0], shim);
      var rest := Deliver(sink, ds[0], ds[1..], shim);
      assert Deliver(sink, current, ds, shim) == first + rest;
      var added := if ds[0] != current && ds[0].Some? then [MediaStreamSource(ds[0].value)] else [];
      assert NewSources(current, ds) == added + NewSources(ds[0], ds[1..]);
      DeliveryProjections(sink, current, ds[0], shim);
      CreatedAppend(first, rest);
      SinksCreatedAppend(first, rest);
      DeliverCreates(sink, ds[0], ds[1..], shim);
    }
  }

  /** Delivering the same handle twice in a row announces no more than
      delivering it once: at most one `sound-source-set`. */
  lemma DuplicateDeliveryAnnouncesOnce(sink: Sink, current: Option<Stream>, s: Option<Stream>, shim: bool)
    ensures Announced(Deliver(sink, current, [s, s], shim)) == Announced(Deliver(sink, current, [s], shim))
    ensures |Announced(Deliver(sink, current, [s, s], shim))| == (if s != current && s.Some? then 1 else 0)
    ensures Disconnects(sink, Deliver(sink, current, [s, s], shim)) == (if s != current && current.Some? then 1 else 0)
  {
    DeliverAnnounces(sink, current, [s, s], shim);
    DeliverAnnounces(sink, current, [s], shim);
    assert [s, s][1..] == [s];
    assert [s][1..] == [];
  }

  /** One delivery leaves the sink carrying the delivered handle, with its
      attenuation unchanged. */
  lemma DeliveryRewires(v: SinkView, sink: Sink, current: Option<Stream>, next: Option<Stream>, shim: bool)
    requires Carries(v, current)
    ensures var w := Replay(v, sink, DeliveryEffects(sink, current, next, shim));
      Carries(w, next) && w.panner == v.panner && (Connects(v, current) ==> Connects(w, next))
    ensures next != current && v.live == multiset{} ==>
      Connects(Replay(v, sink, DeliveryEffects(sink, current, next, shim)), next)
  {
    var video := [VideoElementCreated(next)];
    ReplayCons(v, sink, video[0], RebindEffects(sink, current, next, shim));
    RebindRewires(v, sink, current, next, shim);
  }

  /** A new non-null handle delivered to a sink whose source teardown severed
      is bound, set, announced and connected again: nothing checks that the
      component was removed. */
  lemma DeliveryView(t: seq<Effect>, sink: Sink, current: Option<Stream>, next: Option<Stream>, shim: bool)
    requires Carries(View(sink, t), current) && View(sink, t).live == multiset{}
    requires next != current && next.Some?
    ensures var u := DeliveryEffects(sink, current, next, shim);
      View(sink, t + u).live == multiset{MediaStreamSource(next.value)}
      && Announced(u) == [MediaStreamSource(next.value)]
  {
    var u := DeliveryEffects(sink, current, next, shim);
    DeliveryProjections(sink, current, next, shim);
    DeliveryRewires(View(sink, t), sink, current, next, shim);
    ReplayAppend(Untouched, sink, t, u);
  }

  /** Over any sequence of deliveries the sink carries the latest handle and
      keeps its attenuation. */
  lemma {:induction false} DeliverCarries(v: SinkView, sink: Sink, current: Option<Stream>, ds: seq<Option<Stream>>, shim: bool)
    requires Carries(v, current)
    ensures var w := Replay(v, sink, Deliver(sink, current, ds, shim));
      Carries(w, Latest(current, ds)) && w.panner == v.panner
      && (Connects(v, current) ==> Connects(w, Latest(current, ds)))
    decreases |ds|
  {
    if ds != [] {
      var first := DeliveryEffects(sink, current, ds[0], shim);
      var rest := Deliver(sink, ds[0], ds[1..], shim);
      assert Deliver(sink, current, ds, shim) == first + rest;
      var u := Replay(v, sink, first);
      DeliveryRewires(v, sink, current, ds[0], shim);
      DeliverCarries(u, sink, ds[0], ds[1..], shim);
      ReplayAppend(v, sink, first, rest);
      var latest := Latest(current, ds);
      var w := Replay(u, sink, rest);
      assert Carries(w, latest) && w.panner == v.panner;
      assert Connects(v, current) ==> Connects(w, latest);
    }
  }

  /** Over any sequence of deliveries no point of the calls made has two
      sources connected to the sink. */
  lemma {:induction false} DeliverSingle(v: SinkView, sink: Sink, current: Option<Stream>, ds: seq<Option<Stream>>, shim: bool)
    requires Carries(v, current)
    ensures SingleThroughout(v, sink, Deliver(sink, current, ds, shim))
    decreases |ds|
  {
    CarriesOne(v, current);
    if ds == [] {
      SingleThroughoutEmpty(v, sink);
    } else {
      var video := [VideoElementCreated(ds[0])];
      var r := RebindEffects(sink, current, ds[0], shim);
      var rest := Deliver(sink, ds[0], ds[1..], shim);
      assert Deliver(sink, current, ds, shim) == (video + r) + rest;
      ReplayCons(v, sink, video[0], []);
      assert video == video + [];
      SingleThroughoutOne(v, sink, video[0]);
      RebindSingle(v, sink, current, ds[0], shim);
      SingleThroughoutAppend(v, sink, video, r);
      RebindRewires(v, sink, current, ds[0], shim);
      ReplayAppend(v, sink, video, r);
      DeliverSingle(Replay(v, sink, video + r), sink, ds[0], ds[1..], shim);
      SingleThroughoutAppend(v, sink, video + r, rest);
    }
  }
}
