/** What a sequence of calls does to one sink: which source node it was last
    given, which source nodes are connected to it, and its panner parameters.
    `sound.setNodeSource(n)` connects `n` without disconnecting the previous
    node; `sound.disconnect()` disconnects the node last set. */
module AudioGraph {
  import opened Media

  /** Panner parameters; `None` is a parameter the component never set. */
  datatype Panner = Panner(
    maxDistance: Option<real>,
    rolloffFactor: Option<real>,
    distanceModel: Option<DistanceModel>,
    refDistance: Option<real>)

  /** `live` holds the media-stream source nodes connected to the sink. The
      silent buffer source that `play()` connects is not tracked. */
  datatype SinkView = SinkView(source: Option<SourceNode>, live: multiset<SourceNode>, panner: Panner)

  /** The panner of a sink none of whose setters was called. */
  const Unset: Panner := Panner(None, None, None, None)

  /** A sink nobody has called yet. */
  const Untouched: SinkView := SinkView(None, multiset{}, Unset)

  /** The fixed attenuation the component applies to every sink it owns. */
  const OverridePanner: Panner := Panner(Some(8.0), Some(3.0), Some(Exponential), Some(2.0))

  function SetParam(p: Panner, q: PannerParam): Panner
  {
    match q
    case MaxDistance(d) => p.(maxDistance := Some(d))
    case RolloffFactor(f) => p.(rolloffFactor := Some(f))
    case Model(m) => p.(distanceModel := Some(m))
    case RefDistance(r) => p.(refDistance := Some(r))
  }

  /** The effect of one call on `sink`; calls on other objects leave it alone.
      A disconnect severs the node last set, and on a sink whose node is
      already severed it does nothing, as the `_connected` guard of three.js's
      `Audio.disconnect` makes it. Playback is not a change to the view. */
  function Apply(v: SinkView, sink: Sink, e: Effect): SinkView
  {
    match e
    case PannerSet(s, q) =>
      if s == sink then v.(panner := SetParam(v.panner, q)) else v
    case NodeSourceSet(s, n) =>
      if s == sink then v.(source := Some(n), live := v.live + multiset{n}) else v
    case Disconnected(s) =>
      if s == sink && v.source.Some? then v.(live := v.live - multiset{v.source.value}) else v
    case _ => v
  }

  function Replay(v: SinkView, sink: Sink, t: seq<Effect>): SinkView
    decreases |t|
  {
    if t == [] then v else Replay(Apply(v, sink, t[0]), sink, t[1..])
  }

  /** The state of `sink` after the calls `t`, starting untouched. */
  function View(sink: Sink, t: seq<Effect>): SinkView
  {
    Replay(Untouched, sink, t)
  }

  /** The source nodes that should be connected while `stream` is bound. */
  function Bound(stream: Option<Stream>): multiset<SourceNode>
  {
    if stream.Some? then multiset{MediaStreamSource(stream.value)} else multiset{}
  }

  /** `v` has nothing connected but the node of `stream`, and that node is the
      one a disconnect would sever. */
  predicate Carries(v: SinkView, stream: Option<Stream>)
  {
    (v.live == multiset{} || v.live == Bound(stream))
    && (stream.Some? ==> v.source == Some(MediaStreamSource(stream.value)))
  }

  /** `v` has exactly the node of `stream` connected. */
  predicate Connects(v: SinkView, stream: Option<Stream>)
  {
    Carries(v, stream) && v.live == Bound(stream)
  }

  /** True when no call in `t` is made on `sink`. */
  predicate Untargeted(sink: Sink, t: seq<Effect>)
  {
    forall i :: 0 <= i < |t| ==> !Targets(t[i], sink)
  }

  predicate Targets(e: Effect, sink: Sink)
  {
    (e.PannerSet? || e.NodeSourceSet? || e.Disconnected?) && e.sink == sink
  }

  /** Replaying calls one after another is replaying their concatenation. */
  lemma {:induction false} ReplayAppend(v: SinkView, sink: Sink, a: seq<Effect>, b: seq<Effect>)
    ensures Replay(v, sink, a + b) == Replay(Replay(v, sink, a), sink, b)
    decreases |a|
  {
    if a == [] {
      assert a + b == b;
    } else {
      assert (a + b)[0] == a[0];
      assert (a + b)[1..] == a[1..] + b;
      ReplayAppend(Apply(v, sink, a[0]), sink, a[1..], b);
    }
  }

  lemma ReplayCons(v: SinkView, sink: Sink, e: Effect, t: seq<Effect>)
    ensures Replay(v, sink, [e] + t) == Replay(Apply(v, sink, e), sink, t)
  {
    assert ([e] + t)[0] == e;
    assert ([e] + t)[1..] == t;
  }

  /** A sink carrying one handle has at most one source connected, and
      nothing but that handle's node. */
  lemma CarriesOne(v: SinkView, stream: Option<Stream>)
    requires Carries(v, stream)
    ensures |v.live| <= 1 && v.live <= Bound(stream)
  {
  }

  /** Calls on other objects do not change a sink. */
  lemma {:induction false} ReplayUntargeted(v: SinkView, sink: Sink, t: seq<Effect>)
    requires Untargeted(sink, t)
    ensures Replay(v, sink, t) == v
    decreases |t|
  {
    if t != [] {
      assert !Targets(t[0], sink);
      assert Untargeted(sink, t[1..]) by {
        forall i | 0 <= i < |t[1..]| ensures !Targets(t[1..][i], sink) {
          assert t[1..][i] == t[i + 1];
        }
      }
      ReplayUntargeted(v, sink, t[1..]);
    }
  }

  /** Appending calls on other objects leaves a sink's view alone. */
  lemma ViewUntargeted(sink: Sink, t: seq<Effect>, u: seq<Effect>)
    requires Untargeted(sink, u)
    ensures View(sink, t + u) == View(sink, t)
  {
    ReplayAppend(Untouched, sink, t, u);
    ReplayUntargeted(View(sink, t), sink, u);
  }

  /** "At every observation point": no prefix of `t` leaves more than one
      source node connected to `sink`. */
  predicate SingleThroughout(v: SinkView, sink: Sink, t: seq<Effect>)
  {
    forall k :: 0 <= k <= |t| ==> |Replay(v, sink, t[..k]).live| <= 1
  }

  lemma SingleThroughoutEmpty(v: SinkView, sink: Sink)
    requires |v.live| <= 1
    ensures SingleThroughout(v, sink, [])
  {
    var t: seq<Effect> := [];
    forall k | 0 <= k <= |t| ensures |Replay(v, sink, t[..k]).live| <= 1 {
      assert t[..k] == [];
    }
  }

  lemma SingleThroughoutOne(v: SinkView, sink: Sink, e: Effect)
    requires |v.live| <= 1 && |Apply(v, sink, e).live| <= 1
    ensures SingleThroughout(v, sink, [e])
  {
    forall k | 0 <= k <= 1 ensures |Replay(v, sink, [e][..k]).live| <= 1 {
      if k == 0 {
        assert [e][..k] == [];
      } else {
        assert [e][..k] == [e] + [];
        ReplayCons(v, sink, e, []);
      }
    }
  }

  lemma {:induction false} SingleThroughoutAppend(v: SinkView, sink: Sink, a: seq<Effect>, b: seq<Effect>)
    requires SingleThroughout(v, sink, a)
    requires SingleThroughout(Replay(v, sink, a), sink, b)
    ensures SingleThroughout(v, sink, a + b)
  {
    forall k | 0 <= k <= |a + b|
      ensures |Replay(v, sink, (a + b)[..k]).live| <= 1
    {
      if k <= |a| {
        assert (a + b)[..k] == a[..k];
      } else {
        assert (a + b)[..k] == a + b[..k - |a|];
        ReplayAppend(v, sink, a, b[..k - |a|]);
        assert |Replay(Replay(v, sink, a), sink, b[..k - |a|]).live| <= 1;
      }
    }
  }
}
