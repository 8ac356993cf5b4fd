/**
 * The four per-room tables of the server, `roomId -> producerKind -> handle`,
 * and the JavaScript meaning of reading and writing `table[roomId][producerKind]`.
 */
module RoomTables {
  import opened Wrappers
  import opened Media

  type Table<T> = map<string, map<string, T>>

  /** The slot `t[room][kind]` holds a handle. */
  predicate Has<T>(t: Table<T>, room: string, kind: string)
  {
    room in t && kind in t[room]
  }

  /** `t[room]`: undefined (`None`) for a room that has no entry. */
  function Get<T>(t: Table<T>, room: string): Option<map<string, T>>
  {
    if room in t then Some(t[room]) else None
  }

  /**
   * Calling a method on `t[room][kind]`: reading a property of the undefined
   * `t[room]` throws, and so does calling a method on an undefined slot.
   */
  function Select<T>(t: Table<T>, room: string, kind: string): (r: Result<T>)
    ensures r.Ok? <==> Has(t, room, kind)
    ensures r.Ok? ==> r.value == t[room][kind]
    ensures room !in t ==> r == Err(RoomNotStarted(room))
    ensures room in t && kind !in t[room] ==> r == Err(SlotEmpty(room, kind))
  {
    if room !in t then Err(RoomNotStarted(room))
    else if kind !in t[room] then Err(SlotEmpty(room, kind))
    else Ok(t[room][kind])
  }

  /** `t[room][kind] = x` on a room that has an entry: only that slot changes. */
  function Store<T>(t: Table<T>, room: string, kind: string, x: T): (t': Table<T>)
    requires room in t
    ensures t'.Keys == t.Keys
    ensures t'[room].Keys == t[room].Keys + {kind} && t'[room][kind] == x
    ensures forall k :: k in t[room] && k != kind ==> t'[room][k] == t[room][k]
    ensures forall r :: r in t && r != room ==> t'[r] == t[r]
  {
    t[room := t[room][kind := x]]
  }

  /** `t[room] = {}`: the room's entry becomes empty, every other room keeps its entry. */
  function Reset<T>(t: Table<T>, room: string): (t': Table<T>)
    ensures t'.Keys == t.Keys + {room}
    ensures t'[room] == map[]
    ensures forall r :: r in t && r != room ==> t'[r] == t[r]
  {
    t[room := map[]]
  }

  /** Resetting a room twice is resetting it once. */
  lemma ResetIdempotent<T>(t: Table<T>, room: string)
    ensures Reset(Reset(t, room), room) == Reset(t, room)
  {
  }

  /** Which of the two transport tables a handler works on. */
  datatype Side = ProducerSide | ConsumerSide

  /** What the four tables hold for one room. */
  datatype RoomView = RoomView(
    producers: Option<map<string, Producer>>,
    consumers: Option<map<string, Consumer>>,
    producerTransports: Option<map<string, Transport>>,
    consumerTransports: Option<map<string, Transport>>)

  /** The entry `startRoom` leaves for a room. */
  const FreshRoom: RoomView := RoomView(Some(map[]), Some(map[]), Some(map[]), Some(map[]))

  /** The four module-level tables of the server. */
  datatype Registry = Registry(
    producers: Table<Producer>,
    consumers: Table<Consumer>,
    producerTransports: Table<Transport>,
    consumerTransports: Table<Transport>)
  {
    /** The rooms `startRoom` has run for: only it adds entries, to all four tables at once. */
    function Rooms(): set<string>
    {
      producers.Keys
    }

    ghost predicate Valid()
    {
      && consumers.Keys == producers.Keys
      && producerTransports.Keys == producers.Keys
      && consumerTransports.Keys == producers.Keys
    }

    function View(room: string): RoomView
    {
      RoomView(Get(producers, room), Get(consumers, room),
               Get(producerTransports, room), Get(consumerTransports, room))
    }

    function Transports(side: Side): Table<Transport>
    {
      match side
      case ProducerSide => producerTransports
      case ConsumerSide => consumerTransports
    }

    function WithTransports(side: Side, t: Table<Transport>): Registry
    {
      match side
      case ProducerSide => this.(producerTransports := t)
      case ConsumerSide => this.(consumerTransports := t)
    }
  }

  /** The tables as declared, before any room is started. */
  const Empty: Registry := Registry(map[], map[], map[], map[])
}
