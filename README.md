# networked-video-source: stream attachment state machine

A model of the per-entity stream attachment logic of the `networked-video-source`
A-Frame component in networked-aframe. For an entity that stands for a remote participant, the
component does the following:

- It resolves the owning participant. For a truthy owner id it requests that participant's
  media stream.
- When a stream handle is delivered, it lazily builds one spatial sink (a
  `THREE.PositionalAudio`, or a `THREE.Audio` when `positional` is off) on the scene's single
  `THREE.AudioListener`.
- It rebinds the sink's source node whenever the delivered handle differs from the bound one.
- It applies a fixed attenuation override (exponential model, max distance 8, rolloff 3,
  reference distance 2) whatever the configured values are.

A `THREE.Audio` sink has none of the four attenuation setters. So with `positional` off, the
first setter throws a TypeError, and the model gives every step that reaches it an `ok` result
that is false exactly then:

- `setupSound` stops after the attach and never plays the sink.
- The first delivery throws inside `setupSound`, before the duplicate check. The promise of
  `_setMediaStream` is rejected, nothing is bound, and the `.catch` of the stream request only
  logs.
- Every later `update` throws too. A later delivery finds the sink and binds normally.

The model has these parts:

- `media.dfy` (module `Media`): stream handles, source nodes, the schema and its defaults. It
  also holds the foreign objects (sink, listener, scene) as classes with identity. Every call
  the component makes into three.js, WebAudio or the DOM is an `Effect`.
- `audio_graph.dfy` (module `AudioGraph`): what a sequence of calls does to one sink. `Replay`
  folds the calls into a `SinkView`: the node source last set, the multiset of source nodes
  connected, and the panner parameters. `setNodeSource` connects a node without severing the
  previous one. `disconnect` severs the node last set.
- `stream_binder.dfy` (module `StreamBinder`): the calls each step makes, as functions of the
  state that step reads. Lemmas say what those calls amount to, for one step and for any
  sequence of deliveries.
- `video_source.dfy` (module `VideoSource`): the component itself. It is a class with the
  component's fields (`sound`, `stream`, `listener`, `ownerId`, `soundSource`, `audioEl`,
  `data`), a ghost `trace` of the calls made and a ghost `removed` flag. The object invariant
  `Valid` ties the sink to the scene's listener and to the override attenuation. It also
  requires that the sink carries the bound handle's source node and no other.
- `scenarios.dfy` (module `Scenarios`): client methods that derive, from the contracts alone,
  the life of one or two entities. They cover: an owner resolves; a stream, another one, and
  a repeat arrive; a null first handle; two entities share a listener; a non-positional entity
  whose first delivery is rejected; a delivery arrives after teardown.

The asynchronous callbacks of `init` are explicit methods. `OnOwnerResolved(owner)` is the
`then` of the entity lookup. `SetMediaStream(s)` is the callback a delivered stream reaches.
The Chrome user-agent test is the constant `isChrome` of each component.

Behaviour the code does not have, and the model therefore does not have either:

- A delivery that arrives after `remove` is still bound, and its source is connected to the
  detached sink again. There is no liveness check, and `remove` clears no field (see
  `Scenarios.LateDelivery`). This holds when a second `disconnect` on the severed sink does
  nothing, as `AudioGraph.Apply` assumes (see "Left out").
- Deliveries have no timeout.
- Attenuation values are not validated. The configured ones are simply never applied.
- "Same handle" means the handle bound right now. Handle `a` after `b` is a change and is
  rebound.

## Model

| member | source | states |
|---|---|---|
| `VideoSource.NetworkedVideoSource.constructor` | src/components/networked-video-source.js:13-16 | a new component has no listener, no bound stream, no sink and has made no call |
| `VideoSource.NetworkedVideoSource.OnOwnerResolved` | src/components/networked-video-source.js:20-34 | records the owner id; the only call made is the stream request of `RequestEffects`, and the invariant is kept |
| `StreamBinder.RequestEffects` | src/components/networked-video-source.js:25-33 | a stream is requested, once and for that owner, exactly when the owner id is truthy; an absent or empty id requests nothing |
| `VideoSource.NetworkedVideoSource.SetPannerProperties` | src/components/networked-video-source.js:132-143 | with no sink nothing is called; with a positional sink the four setters are called and its panner becomes the override, everything else about it unchanged; on a non-positional sink the first setter throws (`ok` false) and no call is made |
| `StreamBinder.PannerOverride` | src/components/networked-video-source.js:134-137 | the four setter calls leave the sink with max distance 8, rolloff 3, exponential model and reference distance 2, whatever it had before, and change nothing else |
| `VideoSource.NetworkedVideoSource.Update` | src/components/networked-video-source.js:39-41 | the configuration is stored, yet a positional sink's panner stays the override whatever the configured values; nothing is called without a sink; on a non-positional sink the call throws (`ok` false) and calls nothing |
| `VideoSource.NetworkedVideoSource.SetupSound` | src/components/networked-video-source.js:154-178 | builds a listener only if the scene has none and otherwise reuses it; the new sink uses the scene's listener, is positional iff configured so, and has nothing connected; `ok` is true iff it is positional, and then it has the override and is played, otherwise it stops after the attach with its panner never set; it keeps the invariant when no handle was bound |
| `StreamBinder.SetupReplay` | src/components/networked-video-source.js:167-177 | set-up changes only the new sink's panner: to the override when it is positional; a non-positional sink, whose set-up stops at the attach, is left as it was |
| `StreamBinder.SetupView` | src/components/networked-video-source.js:154-178 | a sink no earlier call targeted comes out of set-up with no source, and with the override attenuation iff it is positional, its panner unset otherwise |
| `StreamBinder.SetupProjections` | src/components/networked-video-source.js:154-178 | set-up constructs exactly one sink and neither disconnects nor announces a source |
| `VideoSource.NetworkedVideoSource.SetMediaStream` | src/components/networked-video-source.js:43-130 | afterwards a sink exists (null handle included); it is built only when none existed and is reused after that; the call is rejected (`ok` false) iff it had to build a non-positional sink, and then nothing is bound and the handle is not recorded; otherwise the handle is recorded; the calls are the video element, the set-up if needed, then the rebind's calls unless rejected; once a sink exists, a delivery makes exactly the calls of `DeliveryEffects` |
| `VideoSource.NetworkedVideoSource.Rebind` | src/components/networked-video-source.js:72-129 | nothing for a repeated handle; otherwise it makes the calls of `RebindEffects`, sets the source node and silent element only for a non-null handle, records the handle, and keeps the invariant |
| `StreamBinder.RebindProjections` | src/components/networked-video-source.js:72-129 | a repeated handle makes no call; otherwise: one disconnect iff a handle was bound; one source node from the new handle, created, set and announced, iff it is non-null; a silent element only on Chrome; no sink built |
| `StreamBinder.RebindCalls` | src/components/networked-video-source.js:74-127 | a rebind that replaces a bound handle disconnects first, and a rebind makes no call but the disconnect of this sink, the silent element, and the creation, setting on this sink and announcement of a source node |
| `StreamBinder.BindProjections` | src/components/networked-video-source.js:82-127 | binding announces and sets exactly the new handle's node, disconnects nothing, and makes a silent element iff on Chrome |
| `StreamBinder.BindReplay` | src/components/networked-video-source.js:125-127 | binding connects the handle's node to the sink and makes it the node a later disconnect severs |
| `StreamBinder.DisconnectReplay` | src/components/networked-video-source.js:74-76 | when the sink carries the bound handle, the disconnect leaves nothing connected |
| `StreamBinder.RebindRewires` | src/components/networked-video-source.js:72-129 | a sink carrying the old handle carries the new one after the rebind, with its attenuation unchanged; a connected old handle gives a connected new one, and so does a sink whose source teardown severed |
| `StreamBinder.RebindSingle` | src/components/networked-video-source.js:74-128 | at no point of a rebind are two source nodes connected to the sink |
| `StreamBinder.DeliveryProjections` | src/components/networked-video-source.js:47-129 | one delivery announces and sets the new handle's node iff the handle is new and non-null, and disconnects once iff it replaces a non-null handle; it creates exactly the node it announces, makes a silent element only on Chrome with a bind, and builds no sink; the video element made before the duplicate check does neither, nor touches the sink |
| `StreamBinder.DeliveryRewires` | src/components/networked-video-source.js:47-129 | after one delivery the sink carries the delivered handle with its attenuation unchanged, connected when the old one was or when teardown had severed it |
| `StreamBinder.DeliveryView` | src/components/networked-video-source.js:72-129 | a new non-null handle delivered to a sink whose source teardown severed is announced once and leaves exactly its own node connected: nothing checks that the component was removed |
| `StreamBinder.FirstDeliveryProjections` | src/components/networked-video-source.js:68-129 | the first delivery builds exactly one sink and disconnects nothing; it creates and announces the handle's node iff the handle is non-null and the sink positional (a non-positional set-up throws before the rebind) |
| `StreamBinder.DeliverAnnounces` | src/components/networked-video-source.js:72-129 | over any sequence of deliveries, one source node is set and announced for each non-null handle that differs from the one before it, and one disconnect is made for each handle that replaces a non-null one |
| `StreamBinder.DeliverCreates` | src/components/networked-video-source.js:72-129 | over any sequence of deliveries to an existing sink, the source nodes created are exactly the ones announced, and no sink is built |
| `StreamBinder.DuplicateDeliveryAnnouncesOnce` | src/components/networked-video-source.js:72-72 | delivering a handle twice in a row announces exactly what one delivery does, at most one `sound-source-set` |
| `StreamBinder.DeliverCarries` | src/components/networked-video-source.js:72-129 | over any sequence of deliveries the sink carries the latest handle's node and keeps its attenuation |
| `StreamBinder.DeliverSingle` | src/components/networked-video-source.js:74-129 | over any sequence of deliveries, no point of the calls made has two source nodes connected to the sink |
| `VideoSource.NetworkedVideoSource.Remove` | src/components/networked-video-source.js:145-152 | makes the calls of `RemoveEffects`; afterwards nothing is connected to the sink, and the other fields are untouched |
| `StreamBinder.RemoveProjections` | src/components/networked-video-source.js:145-152 | no call without a sink; otherwise the sink is detached first, then disconnected exactly once iff a handle is bound, and nothing else is called |
| `StreamBinder.RemoveSilences` | src/components/networked-video-source.js:148-151 | teardown of a sink carrying the bound handle leaves nothing connected, with source and attenuation otherwise unchanged |

## Left out

- DOM work of `_setMediaStream` (src/components/networked-video-source.js:47-66). The model
  keeps only a `VideoElementCreated` call per delivery, made before the duplicate check. The
  element's id and attributes, `onloadedmetadata`, `play` and the `.avatar-tv-plane` source are
  not modelled.
- The oscillator and gain block (src/components/networked-video-source.js:95-103). Each bind
  to a non-null handle writes the component's `oscillator` and `gainNode` fields (lines 97-98)
  and connects a new oscillator through a new gain node to the context's destination
  (lines 100-101). Nothing ever disconnects them. These fields and connections are not
  modelled; they do not touch the sink.
- The internals of three.js and WebAudio. Only the calls into them are recorded, and three.js
  is not part of this model. Among the assumptions the model makes of it: a `THREE.Audio` sink
  has no panner setters, so calling one throws. The lines below name the others.
- `AudioGraph.Apply`: playback changes nothing in the view. In three.js, `play()` (line 177)
  creates an `AudioBufferSource` with no buffer, starts it and connects it as the sink's
  source. `setNodeSource` (line 126) replaces that source without disconnecting it, and
  nothing disconnects it later. So a positional sink keeps a silent buffer source connected
  for its whole life. `SinkView.live` counts media-stream source nodes only. "Nothing
  connected" (`Remove`, `RemoveSilences`) and "never two source nodes" (`RebindSingle`,
  `DeliverSingle`) are claims about media-stream source nodes.
- `AudioGraph.Apply`: a `disconnect` on a sink whose source is already severed does nothing.
  This is what three.js versions with the `_connected` guard of `Audio.disconnect` do. In
  builds without the guard, the second `disconnect` at line 75 (a delivery after `remove`,
  see `Scenarios.LateDelivery`) throws in WebAudio, and that delivery is rejected.
- `VideoSource.NetworkedVideoSource.SetMediaStream`: every delivered stream is assumed to
  carry an audio track, so `createMediaStreamSource` (line 125) never throws. WebAudio throws
  `InvalidStateError` for a stream without one. That throw would come after the disconnect
  (lines 74-76) and the silent element (lines 82-88), reject the promise and skip line 129.
  `stream` and `soundSource` would then keep their old values. A repeat of the same
  audio-less handle would not be caught at line 72, so it would disconnect again and build
  another silent element. The model instead records every handle delivered to an existing
  sink and returns `ok`.
- Asynchrony and failure of the entity lookup and of `getMediaStream`. Their completions are
  method calls, so a request that fails or never completes is simply a call that never comes.
  The error branch only logs.
- Logging, `console.*`, the `vrgc.networkedVideoSource` global and the `this.data.ownerId`
  write. The owner id is kept in the `ownerId` field only.
- JavaScript `null` and `undefined` handles are both `None`. Owner ids are strings or absent.
- Schema `oneOf` checking by A-Frame. Numbers are modelled as reals.
