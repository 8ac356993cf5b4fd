/**
 * The values the signaling server exchanges with the media engine (mediasoup)
 * and with its clients. Engine objects are opaque records: the model keeps only
 * the properties the server reads from them.
 */
module Media {
  import opened Wrappers

  /** How an asynchronous call into the media engine settles. */
  datatype EngineResult<+T> = Done(value: T) | Rejected(message: string)

  /** Why a handler stops early. */
  datatype Fault =
    | RoomNotStarted(room: string)            // the room's entry in a table is undefined
    | SlotEmpty(room: string, kind: string)   // a method is called on an undefined (room, kind) slot
    | EngineFailure(message: string)          // an engine call rejected

  /**
   * How a socket handler ends: `Ok` when it reaches its reply callback,
   * `Err` when it throws first (the client then gets no reply at all).
   */
  datatype Result<+T> = Ok(value: T) | Err(fault: Fault)

  /** The engine's media kind of a video track, and its consumer type for simulcast. */
  const Video: string := "video"
  const Simulcast: string := "simulcast"

  /** A WebRTC transport as the engine creates it. */
  datatype Transport = Transport(
    id: string,
    iceParameters: string,
    iceCandidates: seq<string>,
    dtlsParameters: string,
    sctpParameters: Option<string>)

  /** The connection parameters a client receives for a new transport. */
  datatype TransportParams = TransportParams(
    id: string,
    iceParameters: string,
    iceCandidates: seq<string>,
    dtlsParameters: string)

  /** The projection `createWebRtcTransport` returns beside the transport. */
  function Params(t: Transport): (p: TransportParams)
    ensures p.id == t.id && p.iceParameters == t.iceParameters
    ensures p.iceCandidates == t.iceCandidates && p.dtlsParameters == t.dtlsParameters
  {
    TransportParams(t.id, t.iceParameters, t.iceCandidates, t.dtlsParameters)
  }

  /** Reply of `createProducerTransport` / `createConsumerTransport`: the params or `{error}`. */
  datatype TransportReply = ParamsReply(params: TransportParams) | ErrorReply(error: Fault)

  /** A producer: its id and the engine media kind ("audio" or "video") it was created with. */
  datatype Producer = Producer(id: string, kind: string)

  /** The `newProducer` notification sent to the other members of a room. */
  datatype Notice = NewProducer(room: string, producerKind: string)

  /** What a successful `produce` yields: the reply `{id}` and the notification that follows it. */
  datatype Produced = Produced(id: string, notice: Notice)

  /** The properties of a new consumer that the engine decides. */
  datatype ConsumerInfo = ConsumerInfo(
    id: string,
    kind: string,
    rtpParameters: string,
    consumerType: string,
    producerPaused: bool)

  /** Preferred simulcast layers. */
  datatype Layers = Layers(spatial: nat, temporal: nat)

  /** The layers `createConsumer` pins every simulcast consumer to. */
  const PinnedLayers: Layers := Layers(2, 2)

  /** A consumer as stored in the room table. */
  datatype Consumer = Consumer(info: ConsumerInfo, paused: bool, preferredLayers: Option<Layers>)

  /** The arguments of the engine's `consume` call, with the transport it is made on. */
  datatype ConsumeRequest = ConsumeRequest(
    transportId: string,
    producerId: string,
    rtpCapabilities: string,
    paused: bool)

  /** The descriptor `createConsumer` returns to the subscriber. */
  datatype ConsumerDescriptor = ConsumerDescriptor(
    producerId: string,
    id: string,
    kind: string,
    rtpParameters: string,
    consumerType: string,
    producerPaused: bool)
}
