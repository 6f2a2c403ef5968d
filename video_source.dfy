/** The networked-video-source component: per entity, it resolves the owning
    participant, requests that participant's media stream, lazily builds one
    spatial sink on the scene's shared listener, and rebinds the sink's source
    whenever a different stream handle is delivered. */
module VideoSource {
  import opened Media
  import opened AudioGraph
  import opened StreamBinder

  class NetworkedVideoSource {
    const scene: Scene
    /** The user-agent test for Chrome, fixed for the page's lifetime. */
    const isChrome: bool
    var data: Schema
    var ownerId: Option<string>
    var listener: AudioListener?
    var stream: Option<Stream>
    var sound: Sink?
    var soundSource: Option<SourceNode>
    /** The stream the silent playback element plays, if one was made. */
    var audioEl: Option<Stream>

    /** Every call made into external objects, in order. */
    ghost var trace: seq<Effect>
    /** Whether `remove` has run. */
    ghost var removed: bool

    /** The sink hangs off the scene's single listener; a positional sink has
        the override attenuation, and the panner of a non-positional one was
        never set. */
    ghost predicate SinkShared()
      reads this, scene
    {
      sound != null ==>
        listener != null && scene.audioListener == listener && sound.listener == listener
        && View(sound, trace).panner == (if sound.positional then OverridePanner else Unset)
    }

    /** No handle is bound before a sink exists; the sink carries the bound
        handle's source node and no other, and until teardown that node is
        connected. */
    ghost predicate Wired()
      reads this
    {
      (sound == null ==> stream.None?)
      && (sound != null ==>
            Carries(View(sound, trace), stream)
            && (!removed ==> Connects(View(sound, trace), stream)))
      && (stream.Some? ==> soundSource == Some(MediaStreamSource(stream.value)))
    }

    ghost predicate Valid()
      reads this, scene
    {
      SinkShared() && Wired()
    }

    /** `init` up to the owner lookup, which completes later in `OnOwnerResolved`. */
    constructor (scene: Scene, isChrome: bool, data: Schema)
      ensures this.scene == scene && this.isChrome == isChrome && this.data == data
      ensures ownerId.None? && listener == null && stream.None? && sound == null
      ensures soundSource.None? && audioEl.None?
      ensures trace == [] && !removed
      ensures Valid()
    {
      this.scene := scene;
      this.isChrome := isChrome;
      this.data := data;
      ownerId := None;
      listener := null;
      stream := None;
      sound := null;
      soundSource := None;
      audioEl := None;
      trace := [];
      removed := false;
    }

    /** The owner gate: the stream is requested only for a truthy owner id. */
    method OnOwnerResolved(owner: Option<string>)
      requires Valid()
      modifies this`ownerId, this`trace
      ensures ownerId == owner
      ensures trace == old(trace) + RequestEffects(owner)
      ensures Valid()
    {
      ownerId := owner;
      if Truthy(owner) {
        trace := trace + [StreamRequested(owner.value)];
      }
      if sound != null {
        ViewUntargeted(sound, old(trace), RequestEffects(owner));
      }
    }

    /** `_setPannerProperties`: the fixed override, and only on an existing
        sink. A `THREE.Audio` sink has none of the setters, so on a
        non-positional sink the first call throws a TypeError before any call
        is made; `ok` is false exactly then. */
    method SetPannerProperties() returns (ok: bool)
      modifies this`trace
      ensures ok == (sound == null || sound.positional)
      ensures trace == old(trace) + (if sound != null && sound.positional then PannerEffects(sound) else [])
      ensures sound != null && sound.positional ==>
        View(sound, trace) == View(sound, old(trace)).(panner := OverridePanner)
    {
      if sound != null {
        if !sound.positional {
          return false;
        }
        trace := trace + [PannerSet(sound, MaxDistance(8.0))];
        trace := trace + [PannerSet(sound, RolloffFactor(3.0))];
        trace := trace + [PannerSet(sound, Model(Exponential))];
        trace := trace + [PannerSet(sound, RefDistance(2.0))];
        assert trace == old(trace) + PannerEffects(sound);
        ReplayAppend(Untouched, sound, old(trace), PannerEffects(sound));
        PannerOverride(View(sound, old(trace)), sound);
      }
      return true;
    }

    /** `update`: the new configuration is stored, but a positional sink keeps
        the override attenuation whatever the configured values are; on a
        non-positional sink the call throws (`ok` false) and sets nothing. */
    method Update(newData: Schema) returns (ok: bool)
      requires Valid()
      modifies this`data, this`trace
      ensures data == newData
      ensures ok == (sound == null || sound.positional)
      ensures trace == old(trace) + (if sound != null && sound.positional then PannerEffects(sound) else [])
      ensures sound != null && sound.positional ==> View(sound, trace).panner == OverridePanner
      ensures Valid()
    {
      data := newData;
      ok := SetPannerProperties();
      if sound != null && sound.positional {
        assert View(sound, trace).live == View(sound, old(trace)).live;
      } else {
        assert trace == old(trace);
      }
    }

    /** `setupSound`: builds the scene listener if the scene has none, then a
        new sink on it, positional as configured, with the override applied.
        A sink that existed is detached first; the bound handle is left as it
        was, so a new sink built while a handle is bound carries nothing. On a
        non-positional sink the override throws after the attach, so the sink
        is never played and `ok` is false. */
    method SetupSound() returns (ok: bool)
      requires Valid()
      modifies this, scene
      ensures ok == data.positional
      ensures fresh(sound) && sound.positional == data.positional
      ensures listener == scene.audioListener && sound.listener == listener
      ensures old(scene.audioListener) != null ==> scene.audioListener == old(scene.audioListener)
      ensures old(scene.audioListener) == null ==> fresh(scene.audioListener)
      ensures trace == old(trace) + SetupEffects(old(sound),
        if old(scene.audioListener) == null then scene.audioListener else null, sound)
      ensures View(sound, trace) == Untouched.(panner := if ok then OverridePanner else Unset)
      ensures data == old(data) && ownerId == old(ownerId) && stream == old(stream)
      ensures soundSource == old(soundSource) && audioEl == old(audioEl) && removed == old(removed)
      ensures SinkShared()
      ensures old(stream).None? ==> Valid()
    {
      ghost var previous := sound;
      if sound != null {
        trace := trace + [SinkDetached(sound)];
      }
      ghost var created: AudioListener? := null;
      if scene.audioListener == null {
        var l := new AudioListener();
        scene.audioListener := l;
        created := l;
        trace := trace + [ListenerCreated(l)];
      }
      ghost var before := trace;
      assert before == old(trace) + SetupPrefix(previous, created);
      var l: AudioListener := scene.audioListener;
      listener := l;
      var s := new Sink(data.positional, l);
      sound := s;
      trace := trace + [SinkCreated(s)] + [SinkAttached(s)];
      ok := SetPannerProperties();
      trace := trace + (if ok then [SinkPlayed(s)] else []);
      SetupSteps(before, s);
      assert trace == before + ([SinkCreated(s)] + SetupSuffix(s));
      assert Untargeted(s, old(trace)) by {
        forall i | 0 <= i < |old(trace)| ensures !Targets(old(trace)[i], s) {
        }
      }
      SetupView(old(trace), previous, created, s);
    }

    /** `_setMediaStream`, the callback a delivered stream handle reaches.
        `ok` is false when the promise it returns is rejected: the first
        delivery to a non-positional entity, whose `setupSound` throws before
        the handle is looked at. */
    method SetMediaStream(newStream: Option<Stream>) returns (ok: bool)
      requires Valid()
      modifies this, scene
      ensures Valid()
      ensures ok == (old(sound) != null || data.positional)
      // The sink exists afterwards, null handle included; it is built at most
      // once and reused after that.
      ensures sound != null
      ensures old(sound) != null ==> sound == old(sound)
      ensures old(sound) == null ==> fresh(sound) && sound.positional == data.positional
      ensures old(scene.audioListener) != null ==> scene.audioListener == old(scene.audioListener)
      ensures old(scene.audioListener) == null && old(sound) == null ==> fresh(scene.audioListener)
      // The new handle is recorded, null included, unless the call threw.
      ensures stream == (if ok then newStream else old(stream))
      ensures trace == old(trace) + [VideoElementCreated(newStream)]
        + (if old(sound) == null
           then SetupEffects(null, if old(scene.audioListener) == null then scene.audioListener else null, sound)
           else [])
        + (if ok then RebindEffects(sound, old(stream), newStream, isChrome) else [])
      // Once the sink exists, a delivery makes exactly the calls of `DeliveryEffects`.
      ensures old(sound) != null ==> trace == old(trace) + DeliveryEffects(sound, old(stream), newStream, isChrome)
      ensures soundSource == (if ok && newStream != old(stream) && newStream.Some?
                              then Some(MediaStreamSource(newStream.value)) else old(soundSource))
      ensures audioEl == (if ok && isChrome && newStream != old(stream) && newStream.Some?
                          then newStream else old(audioEl))
      ensures data == old(data) && ownerId == old(ownerId) && removed == old(removed)
    {
      trace := trace + [VideoElementCreated(newStream)];
      ghost var setup: seq<Effect> := [];
      if sound == null {
        ghost var hadListener := scene.audioListener != null;
        ok := SetupSound();
        setup := SetupEffects(null, if hadListener then null else scene.audioListener, sound);
        if !ok {
          assert trace == old(trace) + [VideoElementCreated(newStream)] + setup + [];
          return;
        }
      } else {
        ok := true;
        ViewUntargeted(sound, old(trace), [VideoElementCreated(newStream)]);
      }
      ghost var beforeRebind := trace;
      assert beforeRebind == old(trace) + [VideoElementCreated(newStream)] + setup;
      Rebind(newStream);
      if old(sound) != null {
        DeliveryTrace(old(trace), sound, old(stream), newStream, isChrome);
      }
    }

    /** The part of `_setMediaStream` after the sink exists: nothing for a
        repeated handle; otherwise disconnect a bound source, bind a non-null
        handle, and record the new handle. */
    method Rebind(newStream: Option<Stream>)
      requires Valid() && sound != null
      modifies this`trace, this`stream, this`soundSource, this`audioEl
      ensures Valid()
      ensures stream == newStream
      ensures trace == old(trace) + RebindEffects(sound, old(stream), newStream, isChrome)
      ensures soundSource == (if newStream != old(stream) && newStream.Some?
                              then Some(MediaStreamSource(newStream.value)) else old(soundSource))
      ensures audioEl == (if isChrome && newStream != old(stream) && newStream.Some?
                          then newStream else old(audioEl))
    {
      if newStream == stream {
        return;
      }
      var s: Sink := sound;
      ghost var d := DisconnectEffects(s, stream);
      if stream.Some? {
        trace := trace + [Disconnected(s)];
      }
      assert trace == old(trace) + d;
      ghost var b: seq<Effect> := [];
      if newStream.Some? {
        if isChrome {
          audioEl := newStream;
        }
        soundSource := Some(MediaStreamSource(newStream.value));
        b := BindEffects(s, newStream.value, isChrome);
        trace := trace + b;
      }
      assert trace == old(trace) + d + b;
      RebindTrace(old(trace), s, stream, newStream, isChrome);
      RebindView(old(trace), s, stream, newStream, isChrome);
      stream := newStream;
    }

    /** `remove`: nothing without a sink; otherwise the sink is detached and,
        if a handle is bound, disconnected. Fields are left as they are, so a
        later delivery is still processed. */
    method Remove()
      requires Valid()
      modifies this`trace, this`removed
      ensures removed
      ensures trace == old(trace) + RemoveEffects(sound, stream)
      ensures sound != null ==> View(sound, trace).live == multiset{}
      ensures Valid()
    {
      removed := true;
      if sound == null {
        return;
      }
      trace := trace + [SinkDetached(sound)];
      if stream.Some? {
        trace := trace + [Disconnected(sound)];
      }
      assert trace == old(trace) + RemoveEffects(sound, stream);
      ReplayAppend(Untouched, sound, old(trace), RemoveEffects(sound, stream));
      RemoveSilences(View(sound, old(trace)), sound, stream);
    }
  }
}
