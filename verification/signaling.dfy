/**
 * Sequences of socket events against the room tables: what any run of
 * handlers preserves, which rooms it can touch, and the publish/subscribe
 * round trips a teacher and a student go through.
 */
module Signaling {
  import opened Wrappers
  import opened Media
  import opened RoomTables
  import Handlers

  /** One inbound socket event, with the engine's answers to the calls its handler makes. */
  datatype Event =
    | StartRoom(room: string)
    | JoinRoom(room: string)
    | LeaveRoom(room: string)
    | Disconnect
    | GetProducers(room: string)
    | CreateTransport(side: Side, room: string, kind: string, transport: EngineResult<Transport>)
    | ConnectTransport(side: Side, room: string, kind: string, connected: EngineResult<()>)
    | Produce(room: string, kind: string, mediaKind: string, producerId: EngineResult<string>)
    | Consume(room: string, kind: string, rtpCapabilities: string, canConsume: bool,
              consumed: EngineResult<ConsumerInfo>, layersSet: EngineResult<()>)
    | Resume(room: string, kind: string, resumed: EngineResult<()>)

  /** The room an event names, if any. */
  function Target(e: Event): Option<string>
  {
    if e.Disconnect? then None else Some(e.room)
  }

  /** The rooms a run of events starts. */
  function StartedBy(evs: seq<Event>): set<string>
  {
    if evs == [] then {}
    else (if evs[0].StartRoom? then {evs[0].room} else {}) + StartedBy(evs[1..])
  }

  /** The tables after one event. */
  function Next(s: Registry, e: Event): (s': Registry)
    ensures s.Valid() ==> s'.Valid()
    ensures s'.Rooms() == s.Rooms() + (if e.StartRoom? then {e.room} else {})
    ensures forall x :: Target(e) != Some(x) ==> s'.View(x) == s.View(x)
    ensures !(e.StartRoom? || e.CreateTransport? || e.Produce? || e.Consume?) ==> s' == s
  {
    match e
    case StartRoom(room) => Handlers.StartRoom(s, room)
    case CreateTransport(side, room, kind, transport) =>
      Handlers.CreateTransport(s, side, room, kind, transport).state
    case Produce(room, kind, mediaKind, producerId) =>
      Handlers.Produce(s, room, kind, mediaKind, producerId).state
    case Consume(room, kind, caps, canConsume, consumed, layersSet) =>
      Handlers.CreateConsumer(s, room, kind, caps, canConsume, consumed, layersSet).state
    case _ => s
  }

  /** The tables after a run of events, each handled as one atomic step. */
  function Run(s: Registry, evs: seq<Event>): Registry
    decreases |evs|
  {
    if evs == [] then s else Run(Next(s, evs[0]), evs[1..])
  }

  lemma {:induction false} RunOne(s: Registry, e: Event)
    ensures Run(s, [e]) == Next(s, e)
  {
    assert [e][1..] == [];
  }

  lemma {:induction false} RunCons(s: Registry, e: Event, evs: seq<Event>)
    ensures Run(s, [e] + evs) == Run(Next(s, e), evs)
  {
    assert ([e] + evs)[1..] == evs;
  }

  /** Every run keeps the four tables in step: they hold entries for the same rooms. */
  lemma {:induction false} RunPreservesValid(s: Registry, evs: seq<Event>)
    requires s.Valid()
    ensures Run(s, evs).Valid()
    decreases |evs|
  {
    if evs != [] {
      RunPreservesValid(Next(s, evs[0]), evs[1..]);
    }
  }

  /** A room gets table entries only through `startRoom`, and no handler removes one. */
  lemma {:induction false} RunRooms(s: Registry, evs: seq<Event>)
    ensures Run(s, evs).Rooms() == s.Rooms() + StartedBy(evs)
    decreases |evs|
  {
    if evs != [] {
      RunRooms(Next(s, evs[0]), evs[1..]);
    }
  }

  /** Events that do not name a room leave that room's four entries exactly as they were. */
  lemma {:induction false} RunIsolation(s: Registry, evs: seq<Event>, room: string)
    requires forall i :: 0 <= i < |evs| ==> Target(evs[i]) != Some(room)
    ensures Run(s, evs).View(room) == s.View(room)
    decreases |evs|
  {
    if evs != [] {
      RunIsolation(Next(s, evs[0]), evs[1..], room);
    }
  }

  /**
   * A room no event starts stays unstarted, and then every handler naming it
   * fails without touching a table: the transport creations answer `{error}`,
   * the unguarded lookups throw, and `getProducers` answers undefined.
   */
  lemma {:induction false} NeverStartedRoom(s: Registry, evs: seq<Event>, room: string, kind: string, side: Side,
                         created: EngineResult<Transport>, produced: EngineResult<string>, mediaKind: string, caps: string,
                         canConsume: bool, consumed: EngineResult<ConsumerInfo>, layersSet: EngineResult<()>,
                         settled: EngineResult<()>)
    requires s.Valid() && room !in s.Rooms() && room !in StartedBy(evs)
    ensures var t := Run(s, evs);
      && Handlers.GetProducers(t, room) == None
      && Handlers.CreateTransport(t, side, room, kind, created).state == t
      && Handlers.CreateTransport(t, side, room, kind, created).out.ErrorReply?
      && (created.Done? ==> Handlers.CreateTransport(t, side, room, kind, created).out.error == RoomNotStarted(room))
      && Handlers.ConnectTransport(t, side, room, kind, settled) == Err(RoomNotStarted(room))
      && Handlers.Produce(t, room, kind, mediaKind, produced)
           == Handlers.Step(t, Err(RoomNotStarted(room)))
      && Handlers.CreateConsumer(t, room, kind, caps, canConsume, consumed, layersSet)
           == Handlers.ConsumeStep(t, None, Err(RoomNotStarted(room)))
      && Handlers.Resume(t, room, kind, settled) == Err(RoomNotStarted(room))
  {
    RunRooms(s, evs);
    RunPreservesValid(s, evs);
  }

  /** `startRoom` discards whatever the tables held for the room, and running it twice is running it once. */
  lemma {:induction false} StartRoomDiscards(s: Registry, room: string)
    ensures Handlers.GetProducers(Handlers.StartRoom(s, room), room) == Some(map[])
    ensures Handlers.StartRoom(Handlers.StartRoom(s, room), room) == Handlers.StartRoom(s, room)
  {
    ResetIdempotent(s.producers, room);
    ResetIdempotent(s.consumers, room);
    ResetIdempotent(s.producerTransports, room);
    ResetIdempotent(s.consumerTransports, room);
  }

  /**
   * The publish round trip: on a started room, creating and connecting a
   * producer transport and producing on it answers the producer's id,
   * announces it to the room, and `getProducers` then lists it under its kind.
   */
  lemma {:induction false} PublishRoundTrip(s: Registry, room: string, kind: string, mediaKind: string,
                                            transport: Transport, producerId: string)
    requires s.Valid() && room in s.Rooms()
    ensures
      var created := Handlers.CreateTransport(s, ProducerSide, room, kind, Done(transport));
      var produced := Handlers.Produce(created.state, room, kind, mediaKind, Done(producerId));
      && created.out == ParamsReply(Params(transport))
      && Handlers.ConnectTransport(created.state, ProducerSide, room, kind, Done(())) == Ok(transport)
      && produced.out == Ok(Produced(producerId, NewProducer(room, kind)))
      && Handlers.GetProducers(produced.state, room) == Some(s.producers[room][kind := Producer(producerId, mediaKind)])
    ensures
      var t := Run(s, [CreateTransport(ProducerSide, room, kind, Done(transport)),
                       ConnectTransport(ProducerSide, room, kind, Done(())),
                       Produce(room, kind, mediaKind, Done(producerId))]);
      Has(t.producers, room, kind) && t.producers[room][kind] == Producer(producerId, mediaKind)
  {
    var e1 := CreateTransport(ProducerSide, room, kind, Done(transport));
    var e2 := ConnectTransport(ProducerSide, room, kind, Done(()));
    var e3 := Produce(room, kind, mediaKind, Done(producerId));
    assert [e1, e2, e3] == [e1] + ([e2] + [e3]);
    RunCons(s, e1, [e2] + [e3]);
    RunCons(Next(s, e1), e2, [e3]);
    RunOne(Next(Next(s, e1), e2), e3);
  }

  /**
   * The subscribe round trip: once a video producer is stored, a student who
   * creates a consumer transport of the same kind and consumes asks the engine for a
   * paused consumer of that producer, stores the consumer, answers a descriptor
   * naming the producer, and `resume` then selects that consumer.
   */
  lemma {:induction false} SubscribeRoundTrip(s: Registry, room: string, kind: string,
                                              transport: Transport, caps: string, info: ConsumerInfo)
    requires s.Valid() && Has(s.producers, room, kind)
    requires s.producers[room][kind].kind == Video
    ensures
      var producer := s.producers[room][kind];
      var s1 := Handlers.CreateTransport(s, ConsumerSide, room, kind, Done(transport)).state;
      var c := Handlers.CreateConsumer(s1, room, kind, caps, true, Done(info), Done(()));
      && c.request == Some(ConsumeRequest(transport.id, producer.id, caps, true))
      && c.out == Ok(Some(ConsumerDescriptor(producer.id, info.id, info.kind, info.rtpParameters,
                                             info.consumerType, info.producerPaused)))
      && Handlers.Resume(c.state, room, kind, Done(())) == Ok(Consumer(info, true, Handlers.LayersAfter(info, Done(()))))
  {
  }

  /**
   * A consume the engine accepts stores its consumer, paused when the producer
   * is video and pinned to (2,2) when simulcast and the layer call succeeded,
   * whatever that call answered, and changes nothing else.
   */
  lemma {:induction false} ConsumeStores(s: Registry, room: string, kind: string, caps: string, info: ConsumerInfo,
                                         layersSet: EngineResult<()>)
    requires Has(s.producers, room, kind) && Has(s.consumerTransports, room, kind) && room in s.consumers
    ensures Handlers.CreateConsumer(s, room, kind, caps, true, Done(info), layersSet).state
         == s.(consumers := Store(s.consumers, room, kind,
                 Consumer(info, s.producers[room][kind].kind == Video, Handlers.LayersAfter(info, layersSet))))
  {
  }

  /**
   * There is one consumer slot per (room, kind): the second of two
   * successful consumes replaces the first subscriber's consumer, and
   * `resume` from either subscriber then selects the second one.
   */
  lemma {:induction false} LastSubscriberWins(s: Registry, room: string, kind: string, caps1: string, caps2: string,
                                              first: ConsumerInfo, second: ConsumerInfo,
                                              layers1: EngineResult<()>, layers2: EngineResult<()>)
    requires s.Valid() && Has(s.producers, room, kind) && Has(s.consumerTransports, room, kind)
    ensures
      var paused := s.producers[room][kind].kind == Video;
      var t := Run(s, [Consume(room, kind, caps1, true, Done(first), layers1),
                       Consume(room, kind, caps2, true, Done(second), layers2)]);
      Handlers.Resume(t, room, kind, Done(())) == Ok(Consumer(second, paused, Handlers.LayersAfter(second, layers2)))
  {
    var e1 := Consume(room, kind, caps1, true, Done(first), layers1);
    var e2 := Consume(room, kind, caps2, true, Done(second), layers2);
    var paused := s.producers[room][kind].kind == Video;
    var s1 := Next(s, e1);
    ConsumeStores(s, room, kind, caps1, first, layers1);
    var s2 := Next(s1, e2);
    ConsumeStores(s1, room, kind, caps2, second, layers2);
    assert [e1, e2] == [e1] + [e2];
    RunCons(s, e1, [e2]);
    RunOne(s1, e2);
    assert s2.consumers[room][kind] == Consumer(second, paused, Handlers.LayersAfter(second, layers2));
  }
}
