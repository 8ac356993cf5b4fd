/**
 * The socket handlers of the signaling server as functions from the tables
 * before the event to the tables after it and the handler's reply. Engine
 * calls are parameters: each says how the call settled.
 */
module Handlers {
  import opened Wrappers
  import opened Media
  import opened RoomTables

  /** The tables after a handler, and what it answered. */
  datatype Step<+R> = Step(state: Registry, out: R)

  /** `startRoom`: all four entries of the room become empty; other rooms keep theirs. */
  function StartRoom(s: Registry, room: string): (s': Registry)
    ensures s'.View(room) == FreshRoom
    ensures forall r :: r != room ==> s'.View(r) == s.View(r)
    ensures s'.Rooms() == s.Rooms() + {room}
    ensures s.Valid() ==> s'.Valid()
  {
    Registry(Reset(s.producers, room), Reset(s.consumers, room),
             Reset(s.producerTransports, room), Reset(s.consumerTransports, room))
  }

  /** `getProducers`: the room's producer entry, undefined for a room never started. */
  function GetProducers(s: Registry, room: string): (r: Option<map<string, Producer>>)
    ensures r.Some? <==> room in s.Rooms()
    ensures r.Some? ==> r.value == s.producers[room]
  {
    s.View(room).producers
  }

  /**
   * `createProducerTransport` / `createConsumerTransport`: the engine creates a
   * transport first; storing it into an unstarted room then throws inside the
   * `try`, so both failures reach the client as `{error}` and change nothing.
   */
  function CreateTransport(s: Registry, side: Side, room: string, kind: string,
                           created: EngineResult<Transport>): (r: Step<TransportReply>)
    ensures r.out.ParamsReply? <==> created.Done? && room in s.Transports(side)
    ensures r.out.ParamsReply? ==>
      && r.out.params == TransportParams(created.value.id, created.value.iceParameters,
                                         created.value.iceCandidates, created.value.dtlsParameters)
      && r.state == s.WithTransports(side, Store(s.Transports(side), room, kind, created.value))
    ensures created.Rejected? ==> r == Step(s, ErrorReply(EngineFailure(created.message)))
    ensures created.Done? && room !in s.Transports(side) ==> r == Step(s, ErrorReply(RoomNotStarted(room)))
    ensures forall x :: x != room ==> r.state.View(x) == s.View(x)
    ensures r.state.Rooms() == s.Rooms()
    ensures s.Valid() ==> r.state.Valid()
  {
    match created
    case Rejected(message) => Step(s, ErrorReply(EngineFailure(message)))
    case Done(transport) =>
      if room !in s.Transports(side) then Step(s, ErrorReply(RoomNotStarted(room)))
      else Step(s.WithTransports(side, Store(s.Transports(side), room, kind, transport)),
                ParamsReply(Params(transport)))
  }

  /**
   * `connectProducerTransport` / `connectConsumerTransport`: the stored
   * transport is looked up without a guard and the engine connects it. `Ok(t)`
   * is the acknowledgement after connecting `t`.
   */
  function ConnectTransport(s: Registry, side: Side, room: string, kind: string,
                            connected: EngineResult<()>): (r: Result<Transport>)
    ensures r.Ok? <==> Has(s.Transports(side), room, kind) && connected.Done?
    ensures r.Ok? ==> r.value == s.Transports(side)[room][kind]
    ensures room !in s.Transports(side) ==> r == Err(RoomNotStarted(room))
    ensures room in s.Transports(side) && kind !in s.Transports(side)[room] ==> r == Err(SlotEmpty(room, kind))
    ensures Has(s.Transports(side), room, kind) && connected.Rejected? ==>
      r == Err(EngineFailure(connected.message))
  {
    match Select(s.Transports(side), room, kind)
    case Err(fault) => Err(fault)
    case Ok(transport) =>
      match connected
      case Rejected(message) => Err(EngineFailure(message))
      case Done(_) => Ok(transport)
  }

  /**
   * `produce`: the engine produces on the stored producer transport; the
   * producer replaces whatever the slot held (last publish wins); the reply is
   * its id, followed by a `newProducer` notice to the room.
   */
  function Produce(s: Registry, room: string, kind: string, mediaKind: string,
                   created: EngineResult<string>): (r: Step<Result<Produced>>)
    ensures r.out.Ok? <==> Has(s.producerTransports, room, kind) && created.Done? && room in s.producers
    ensures r.out.Ok? ==>
      && r.out.value == Produced(created.value, NewProducer(room, kind))
      && r.state == s.(producers := Store(s.producers, room, kind, Producer(created.value, mediaKind)))
    ensures r.out.Err? ==> r.state == s
    ensures room !in s.producerTransports ==> r.out == Err(RoomNotStarted(room))
    ensures room in s.producerTransports && kind !in s.producerTransports[room] ==>
      r.out == Err(SlotEmpty(room, kind))
    ensures Has(s.producerTransports, room, kind) && created.Rejected? ==>
      r.out == Err(EngineFailure(created.message))
    ensures forall x :: x != room ==> r.state.View(x) == s.View(x)
    ensures r.state.Rooms() == s.Rooms()
    ensures s.Valid() ==> r.state.Valid()
  {
    match Select(s.producerTransports, room, kind)
    case Err(fault) => Step(s, Err(fault))
    case Ok(_) =>
      match created
      case Rejected(message) => Step(s, Err(EngineFailure(message)))
      case Done(id) =>
        if room !in s.producers then Step(s, Err(RoomNotStarted(room)))
        else Step(s.(producers := Store(s.producers, room, kind, Producer(id, mediaKind))),
                  Ok(Produced(id, NewProducer(room, kind))))
  }

  /** `resume`: the stored consumer is looked up without a guard and resumed; `Ok(c)` acknowledges resuming `c`. */
  function Resume(s: Registry, room: string, kind: string, resumed: EngineResult<()>): (r: Result<Consumer>)
    ensures r.Ok? <==> Has(s.consumers, room, kind) && resumed.Done?
    ensures r.Ok? ==> r.value == s.consumers[room][kind]
    ensures room !in s.consumers ==> r == Err(RoomNotStarted(room))
    ensures room in s.consumers && kind !in s.consumers[room] ==> r == Err(SlotEmpty(room, kind))
    ensures Has(s.consumers, room, kind) && resumed.Rejected? ==> r == Err(EngineFailure(resumed.message))
  {
    match Select(s.consumers, room, kind)
    case Err(fault) => Err(fault)
    case Ok(consumer) =>
      match resumed
      case Rejected(message) => Err(EngineFailure(message))
      case Done(_) => Ok(consumer)
  }

  /** The tables after `createConsumer`, the engine `consume` call it made (if any), and its reply. */
  datatype ConsumeStep = ConsumeStep(
    state: Registry,
    request: Option<ConsumeRequest>,
    out: Result<Option<ConsumerDescriptor>>)

  /** The layers a new consumer ends up with once `setPreferredLayers` has settled (or was not called). */
  function LayersAfter(info: ConsumerInfo, layersSet: EngineResult<()>): (layers: Option<Layers>)
    ensures layers.Some? <==> info.consumerType == Simulcast && layersSet.Done?
    ensures layers.Some? ==> layers.value.spatial == 2 && layers.value.temporal == 2
  {
    if info.consumerType == Simulcast && layersSet.Done? then Some(PinnedLayers) else None
  }

  /**
   * `consume` with `createConsumer`: the producer lookup throws for a room
   * never started; a missing producer or a failed `canConsume` answers
   * nothing; everything after that runs inside a `try`, so a missing consumer
   * transport or a rejected `consume` answers nothing and stores nothing. The
   * new consumer is stored before `setPreferredLayers`, so a rejection there
   * answers nothing but leaves the consumer stored.
   */
  function CreateConsumer(s: Registry, room: string, kind: string, rtpCapabilities: string,
                          canConsume: bool, consumed: EngineResult<ConsumerInfo>,
                          layersSet: EngineResult<()>): (r: ConsumeStep)
    ensures room !in s.producers ==> r == ConsumeStep(s, None, Err(RoomNotStarted(room)))
    ensures room in s.producers ==> r.out.Ok?
    ensures r.request.Some? <==> Has(s.producers, room, kind) && canConsume && Has(s.consumerTransports, room, kind)
    ensures r.request.Some? ==>
      r.request.value == ConsumeRequest(s.consumerTransports[room][kind].id, s.producers[room][kind].id,
                                        rtpCapabilities, s.producers[room][kind].kind == Video)
    ensures r.request.Some? && consumed.Done? && room in s.consumers ==>
      r.state == s.(consumers := Store(s.consumers, room, kind,
        Consumer(consumed.value, r.request.value.paused, LayersAfter(consumed.value, layersSet))))
    ensures !(r.request.Some? && consumed.Done? && room in s.consumers) ==> r.state == s
    ensures r.out.Ok? && r.out.value.Some? <==>
      && r.request.Some? && consumed.Done? && room in s.consumers
      && (consumed.value.consumerType == Simulcast ==> layersSet.Done?)
    ensures r.out.Ok? && r.out.value.Some? ==>
      r.out.value.value == ConsumerDescriptor(s.producers[room][kind].id, consumed.value.id,
        consumed.value.kind, consumed.value.rtpParameters, consumed.value.consumerType,
        consumed.value.producerPaused)
    ensures forall x :: x != room ==> r.state.View(x) == s.View(x)
    ensures r.state.Rooms() == s.Rooms()
    ensures s.Valid() ==> r.state.Valid()
  {
    if room !in s.producers then ConsumeStep(s, None, Err(RoomNotStarted(room)))
    else if kind !in s.producers[room] || !canConsume then ConsumeStep(s, None, Ok(None))
    else if !Has(s.consumerTransports, room, kind) then ConsumeStep(s, None, Ok(None))
    else
      var producer := s.producers[room][kind];
      var request := ConsumeRequest(s.consumerTransports[room][kind].id, producer.id,
                                    rtpCapabilities, producer.kind == Video);
      match consumed
      case Rejected(_) => ConsumeStep(s, Some(request), Ok(None))
      case Done(info) =>
        if room !in s.consumers then ConsumeStep(s, Some(request), Ok(None))
        else
          var s' := s.(consumers := Store(s.consumers, room, kind,
                                          Consumer(info, request.paused, LayersAfter(info, layersSet))));
          if info.consumerType == Simulcast && layersSet.Rejected? then ConsumeStep(s', Some(request), Ok(None))
          else ConsumeStep(s', Some(request), Ok(Some(ConsumerDescriptor(producer.id, info.id, info.kind,
                                                    info.rtpParameters, info.consumerType, info.producerPaused))))
  }
}
