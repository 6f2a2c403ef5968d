/** Values, foreign objects and observable calls of the networked-video-source
    component. The THREE.js, WebAudio and DOM objects the component touches are
    opaque here: a sink, a listener and a scene are objects with identity, and
    every call the component makes into them is recorded as an `Effect`. */
module Media {

  datatype Option<+T> = None | Some(value: T)

  /** An opaque media-stream handle; the component only compares handles. */
  datatype Stream = Stream(id: nat)

  /** The audio-graph node `createMediaStreamSource` builds from a stream. */
  datatype SourceNode = MediaStreamSource(stream: Stream)

  datatype DistanceModel = Linear | Inverse | Exponential

  /** The component's configuration (its A-Frame schema). */
  datatype Schema = Schema(
    positional: bool,
    distanceModel: DistanceModel,
    maxDistance: real,
    refDistance: real,
    rolloffFactor: real)

  /** The schema defaults. */
  const Defaults: Schema := Schema(true, Inverse, 10000.0, 1.0, 1.0)

  /** One panner-parameter setter call on a sink. */
  datatype PannerParam =
    | MaxDistance(distance: real)
    | RolloffFactor(factor: real)
    | Model(model: DistanceModel)
    | RefDistance(reference: real)

  /** THREE.AudioListener: the scene's single listener. */
  class AudioListener {
    constructor ()
    {
    }
  }

  /** A spatial sink: THREE.PositionalAudio when `positional`, THREE.Audio otherwise. */
  class Sink {
    const positional: bool
    const listener: AudioListener

    constructor (positional: bool, listener: AudioListener)
      ensures this.positional == positional && this.listener == listener
    {
      this.positional := positional;
      this.listener := listener;
    }
  }

  /** The scene element; `audioListener` is shared by every component in it. */
  class Scene {
    var audioListener: AudioListener?

    constructor ()
      ensures audioListener == null
    {
      audioListener := null;
    }
  }

  /** A call the component makes into an external object, in the order made. */
  datatype Effect =
    | VideoElementCreated(shown: Option<Stream>)       // a <video> element appended to the page
    | StreamRequested(owner: string)                   // NAF getMediaStream(owner)
    | ListenerCreated(listener: AudioListener)         // new THREE.AudioListener()
    | SinkCreated(sink: Sink)                          // new THREE.PositionalAudio / THREE.Audio
    | SinkAttached(sink: Sink)                         // el.setObject3D
    | SinkDetached(sink: Sink)                         // el.removeObject3D
    | PannerSet(sink: Sink, param: PannerParam)        // sound.setMaxDistance and its siblings
    | SinkPlayed(sink: Sink)                           // sound.play()
    | Disconnected(sink: Sink)                         // sound.disconnect()
    | ShimCreated(stream: Stream)                      // silent Audio element playing the stream
    | SourceCreated(source: SourceNode)                // context.createMediaStreamSource
    | NodeSourceSet(sink: Sink, source: SourceNode)    // sound.setNodeSource
    | SourceSetEmitted(source: SourceNode)             // el.emit('sound-source-set')
}
