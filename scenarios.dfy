/** Client-side consequences of the component's contracts, for the life of
    one or two entities: what a caller of the component can rely on. */
module Scenarios {
  import opened Media
  import opened AudioGraph
  import opened StreamBinder
  import opened VideoSource

  /** Owner "p1" resolves: one stream request, for "p1". */
  method OwnerResolves()
  {
    var scene := new Scene();
    var c := new NetworkedVideoSource(scene, false, Defaults);
    c.OnOwnerResolved(Some("p1"));
    assert c.trace == [StreamRequested("p1")];
  }

  /** Stream `a` arrives: one sink built, one source announced. */
  method FirstStream(a: Stream)
  {
    var scene := new Scene();
    var c := new NetworkedVideoSource(scene, false, Defaults);
    var ok := c.SetMediaStream(Some(a));
    assert ok;
    assert c.trace == [VideoElementCreated(Some(a))] + SetupEffects(null, scene.audioListener, c.sound)
      + RebindEffects(c.sound, None, Some(a), false);
    FirstDeliveryProjections(scene.audioListener, c.sound, Some(a), false);
    assert SinksCreated(c.trace) == 1 && Announced(c.trace) == [MediaStreamSource(a)];
    assert View(c.sound, c.trace).live == multiset{MediaStreamSource(a)};
  }

  /** With `a` bound, `b` arrives and then `b` again: the same sink, one
      disconnect and one announcement, then nothing reaching the audio graph. */
  method NewThenRepeated(c: NetworkedVideoSource, a: Stream, b: Stream)
    requires c.Valid() && c.sound != null && c.stream == Some(a) && !c.removed && a != b
    modifies c, c.scene
  {
    var sink := c.sound;
    ghost var t := c.trace;
    var ok := c.SetMediaStream(Some(b));
    assert ok && c.sound == sink;
    ghost var second := c.trace[|t|..];
    assert second == DeliveryEffects(sink, Some(a), Some(b), c.isChrome);
    DeliveryProjections(sink, Some(a), Some(b), c.isChrome);
    assert Disconnects(sink, second) == 1 && Announced(second) == [MediaStreamSource(b)];
    assert View(sink, c.trace).live == multiset{MediaStreamSource(b)};

    t := c.trace;
    ok := c.SetMediaStream(Some(b));
    assert RebindEffects(sink, Some(b), Some(b), c.isChrome) == [];
    assert c.trace == t + [VideoElementCreated(Some(b))] + [];
    assert c.trace[|t|..] == [VideoElementCreated(Some(b))];
    assert c.stream == Some(b) && c.sound == sink;
  }

  /** A falsy owner id, absent or empty, never requests a stream. */
  method NoOwner()
  {
    var scene := new Scene();
    var c := new NetworkedVideoSource(scene, false, Defaults);
    c.OnOwnerResolved(None);
    c.OnOwnerResolved(Some(""));
    assert c.trace == [];
    assert c.sound == null;
  }

  /** A null first handle still builds the sink, and binds nothing. */
  method NullFirst()
  {
    var scene := new Scene();
    var c := new NetworkedVideoSource(scene, true, Defaults);
    var ok := c.SetMediaStream(None);
    assert ok;
    assert c.trace == [VideoElementCreated(None)] + SetupEffects(null, scene.audioListener, c.sound)
      + RebindEffects(c.sound, None, None, true);
    assert c.sound != null && c.stream == None && c.audioEl == None;
    FirstDeliveryProjections(scene.audioListener, c.sound, None, true);
    assert Announced(c.trace) == [];
  }

  /** Two entities in one scene share the scene's single listener, each with
      its own sink. */
  method SharedListener(a: Stream, b: Stream)
  {
    var scene := new Scene();
    var c1 := new NetworkedVideoSource(scene, false, Defaults);
    var c2 := new NetworkedVideoSource(scene, true, Defaults);
    var ok1 := c1.SetMediaStream(Some(a));
    var ok2 := c2.SetMediaStream(Some(b));
    assert ok1 && ok2;
    assert c1.listener == c2.listener == scene.audioListener;
    assert c1.sound != c2.sound;
    assert c1.stream == Some(a) && c2.stream == Some(b);
    assert c1.Valid() && c2.Valid();
  }

  /** With `positional` off, the first delivery is rejected: the sink is
      built and attached but the first panner setter throws, so nothing is
      played, announced or bound. A later update throws too, while a later
      delivery finds the sink built and binds the handle, with the panner
      still unset. */
  method NonPositional(a: Stream)
  {
    var scene := new Scene();
    var c := new NetworkedVideoSource(scene, false, Defaults.(positional := false));
    var ok := c.SetMediaStream(Some(a));
    assert !ok;
    assert c.sound != null && !c.sound.positional && c.stream == None;
    assert c.trace == [VideoElementCreated(Some(a))] + SetupEffects(null, scene.audioListener, c.sound) + [];
    FirstDeliveryProjections(scene.audioListener, c.sound, Some(a), false);
    assert Announced(c.trace) == [] && SinksCreated(c.trace) == 1;
    assert View(c.sound, c.trace).live == multiset{};
    ok := c.Update(Defaults);
    assert !ok;
    ok := c.SetMediaStream(Some(a));
    assert ok && c.stream == Some(a);
    assert View(c.sound, c.trace).live == multiset{MediaStreamSource(a)};
    assert View(c.sound, c.trace).panner == Unset;
  }

  /** Teardown of an entity streaming `a` severs its source. */
  method Teardown(a: Stream) returns (c: NetworkedVideoSource)
    ensures fresh(c) && fresh(c.scene)
    ensures c.Valid() && c.removed && c.sound != null && c.stream == Some(a)
    ensures View(c.sound, c.trace).live == multiset{}
  {
    var scene := new Scene();
    c := new NetworkedVideoSource(scene, false, Defaults);
    var ok := c.SetMediaStream(Some(a));
    c.Remove();
  }

  /** A delivery that arrives after teardown is still bound and its source
      connected again: there is no liveness check. */
  method LateDelivery(a: Stream, b: Stream)
    requires a != b
  {
    var c := Teardown(a);
    Redeliver(c, a, b);
  }

  /** Delivers `b` to a removed component that was streaming `a`. */
  method Redeliver(c: NetworkedVideoSource, a: Stream, b: Stream)
    requires c.Valid() && c.removed && c.sound != null && c.stream == Some(a) && a != b
    requires View(c.sound, c.trace).live == multiset{}
    modifies c, c.scene
  {
    var sink: Sink := c.sound;
    ghost var t := c.trace;
    var ok := c.SetMediaStream(Some(b));
    assert ok;
    DeliveryView(t, sink, Some(a), Some(b), c.isChrome);
    assert View(sink, c.trace).live == multiset{MediaStreamSource(b)};
    assert c.stream == Some(b) && c.removed;
  }
}
