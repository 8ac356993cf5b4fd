/**
 * The signaling server's room tables as mutable state: one object with the
 * four module-level tables as fields, and one method per socket handler that
 * reads or updates them in place. Each handler runs as one atomic step.
 */
module Server {
  import opened Wrappers
  import opened Media
  import opened RoomTables
  import Handlers

  class MediaServer {
    var roomProducers: Table<Producer>
    var roomConsumers: Table<Consumer>
    var roomProducerTransports: Table<Transport>
    var roomConsumerTransports: Table<Transport>

    /** The four tables as one value. */
    function State(): Registry
      reads this
    {
      Registry(roomProducers, roomConsumers, roomProducerTransports, roomConsumerTransports)
    }

    ghost predicate Valid()
      reads this
    {
      State().Valid()
    }

    /** The tables start out empty. */
    constructor ()
      ensures Valid() && State() == Empty
    {
      roomProducers, roomConsumers := map[], map[];
      roomProducerTransports, roomConsumerTransports := map[], map[];
    }

    /** `startRoom`. */
    method StartRoom(roomId: string)
      requires Valid()
      modifies this
      ensures Valid()
      ensures State() == Handlers.StartRoom(old(State()), roomId)
      ensures State().View(roomId) == FreshRoom
    {
      roomProducers := roomProducers[roomId := map[]];
      roomConsumers := roomConsumers[roomId := map[]];
      roomProducerTransports := roomProducerTransports[roomId := map[]];
      roomConsumerTransports := roomConsumerTransports[roomId := map[]];
    }

    /** `getProducers`: reads the producer table and changes nothing. */
    method GetProducers(roomId: string) returns (producers: Option<map<string, Producer>>)
      ensures producers == Handlers.GetProducers(State(), roomId)
      ensures producers.Some? <==> roomId in roomProducers
      ensures producers.Some? ==> producers.value == roomProducers[roomId]
    {
      if roomId in roomProducers {
        producers := Some(roomProducers[roomId]);
      } else {
        producers := None;
      }
    }

    /** `createProducerTransport`, given how the engine's transport creation settled. */
    method CreateProducerTransport(roomId: string, producerKind: string, created: EngineResult<Transport>)
      returns (reply: TransportReply)
      requires Valid()
      modifies this
      ensures Valid()
      ensures Handlers.Step(State(), reply) ==
              Handlers.CreateTransport(old(State()), ProducerSide, roomId, producerKind, created)
    {
      match created
      case Rejected(message) =>
        reply := ErrorReply(EngineFailure(message));
      case Done(transport) =>
        if roomId !in roomProducerTransports {
          reply := ErrorReply(RoomNotStarted(roomId));
        } else {
          roomProducerTransports := roomProducerTransports[roomId :=
            roomProducerTransports[roomId][producerKind := transport]];
          reply := ParamsReply(Params(transport));
        }
    }

    /** `createConsumerTransport`, given how the engine's transport creation settled. */
    method CreateConsumerTransport(roomId: string, producerKind: string, created: EngineResult<Transport>)
      returns (reply: TransportReply)
      requires Valid()
      modifies this
      ensures Valid()
      ensures Handlers.Step(State(), reply) ==
              Handlers.CreateTransport(old(State()), ConsumerSide, roomId, producerKind, created)
    {
      match created
      case Rejected(message) =>
        reply := ErrorReply(EngineFailure(message));
      case Done(transport) =>
        if roomId !in roomConsumerTransports {
          reply := ErrorReply(RoomNotStarted(roomId));
        } else {
          roomConsumerTransports := roomConsumerTransports[roomId :=
            roomConsumerTransports[roomId][producerKind := transport]];
          reply := ParamsReply(Params(transport));
        }
    }

    /** `connectProducerTransport`: selects the stored transport; changes no table. */
    method ConnectProducerTransport(roomId: string, producerKind: string, connected: EngineResult<()>)
      returns (ack: Result<Transport>)
      ensures ack == Handlers.ConnectTransport(State(), ProducerSide, roomId, producerKind, connected)
    {
      if roomId !in roomProducerTransports {
        ack := Err(RoomNotStarted(roomId));
      } else if producerKind !in roomProducerTransports[roomId] {
        ack := Err(SlotEmpty(roomId, producerKind));
      } else if connected.Rejected? {
        ack := Err(EngineFailure(connected.message));
      } else {
        ack := Ok(roomProducerTransports[roomId][producerKind]);
      }
    }

    /** `connectConsumerTransport`: selects the stored transport; changes no table. */
    method ConnectConsumerTransport(roomId: string, producerKind: string, connected: EngineResult<()>)
      returns (ack: Result<Transport>)
      ensures ack == Handlers.ConnectTransport(State(), ConsumerSide, roomId, producerKind, connected)
    {
      if roomId !in roomConsumerTransports {
        ack := Err(RoomNotStarted(roomId));
      } else if producerKind !in roomConsumerTransports[roomId] {
        ack := Err(SlotEmpty(roomId, producerKind));
      } else if connected.Rejected? {
        ack := Err(EngineFailure(connected.message));
      } else {
        ack := Ok(roomConsumerTransports[roomId][producerKind]);
      }
    }

    /** `produce`, given the id of the producer the engine created (or its rejection). */
    method Produce(roomId: string, producerKind: string, kind: string, created: EngineResult<string>)
      returns (outcome: Result<Produced>)
      requires Valid()
      modifies this
      ensures Valid()
      ensures Handlers.Step(State(), outcome) == Handlers.Produce(old(State()), roomId, producerKind, kind, created)
    {
      if roomId !in roomProducerTransports {
        return Err(RoomNotStarted(roomId));
      }
      if producerKind !in roomProducerTransports[roomId] {
        return Err(SlotEmpty(roomId, producerKind));
      }
      match created
      case Rejected(message) =>
        outcome := Err(EngineFailure(message));
      case Done(id) =>
        roomProducers := roomProducers[roomId := roomProducers[roomId][producerKind := Producer(id, kind)]];
        outcome := Ok(Produced(id, NewProducer(roomId, producerKind)));
    }

    /** `consume` and `createConsumer`, given the engine's answers. */
    method Consume(roomId: string, producerKind: string, rtpCapabilities: string, canConsume: bool,
                   consumed: EngineResult<ConsumerInfo>, layersSet: EngineResult<()>)
      returns (request: Option<ConsumeRequest>, reply: Result<Option<ConsumerDescriptor>>)
      requires Valid()
      modifies this
      ensures Valid()
      ensures Handlers.ConsumeStep(State(), request, reply) ==
              Handlers.CreateConsumer(old(State()), roomId, producerKind, rtpCapabilities,
                                      canConsume, consumed, layersSet)
    {
      request := None;
      if roomId !in roomProducers {
        return None, Err(RoomNotStarted(roomId));
      }
      if producerKind !in roomProducers[roomId] || !canConsume {
        return None, Ok(None);
      }
      var producer := roomProducers[roomId][producerKind];
      if roomId !in roomConsumerTransports || producerKind !in roomConsumerTransports[roomId] {
        return None, Ok(None);
      }
      var transport := roomConsumerTransports[roomId][producerKind];
      var paused := producer.kind == Video;
      request := Some(ConsumeRequest(transport.id, producer.id, rtpCapabilities, paused));
      match consumed
      case Rejected(_) =>
        reply := Ok(None);
      case Done(info) =>
        var consumer := Consumer(info, paused, Handlers.LayersAfter(info, layersSet));
        roomConsumers := roomConsumers[roomId := roomConsumers[roomId][producerKind := consumer]];
        if info.consumerType == Simulcast && layersSet.Rejected? {
          reply := Ok(None);
        } else {
          reply := Ok(Some(ConsumerDescriptor(producer.id, info.id, info.kind, info.rtpParameters,
                                              info.consumerType, info.producerPaused)));
        }
    }

    /** `resume`: selects the stored consumer; changes no table. */
    method Resume(roomId: string, producerKind: string, resumed: EngineResult<()>)
      returns (ack: Result<Consumer>)
      ensures ack == Handlers.Resume(State(), roomId, producerKind, resumed)
    {
      if roomId !in roomConsumers {
        ack := Err(RoomNotStarted(roomId));
      } else if producerKind !in roomConsumers[roomId] {
        ack := Err(SlotEmpty(roomId, producerKind));
      } else if resumed.Rejected? {
        ack := Err(EngineFailure(resumed.message));
      } else {
        ack := Ok(roomConsumers[roomId][producerKind]);
      }
    }
  }
}
