/**
  What the relay does with one request, as a function of its tables
  (crates/grotto-relay/src/delivery.rs and limits.rs). Every table is the sequence
  or map of its rows; a table that only grows is a sequence in insertion order.
 */
module RelaySpec {
  import opened Records
  import opened Sizes
  import opened RoomNames
  import opened SortedSets

  datatype Room = Room(name: string, creator: UserId)
  datatype EventRow = EventRow(room: RoomId, sequence: nat, event: Event)
  datatype WelcomeRow = WelcomeRow(cursor: nat, recipient: UserId, record: WelcomeDelivery)
  datatype JournalRow = JournalRow(user: UserId, id: MessageId, request: Request, response: Response)
  datatype PackageRow = PackageRow(user: UserId, package: Blob)
  datatype Allocation = Allocation(requester: UserId, recipient: UserId, at: int)

  datatype Tables = Tables(
    rooms: map<RoomId, Room>,
    subscribers: set<(RoomId, UserId)>,
    events: seq<EventRow>,
    welcomes: seq<WelcomeRow>,
    journal: seq<JournalRow>,
    packages: seq<PackageRow>,
    grants: set<(UserId, UserId)>,
    allocations: seq<Allocation>,
    usageSender: map<UserId, nat>,
    usageRoom: map<RoomId, nat>)

  const EMPTY := Tables(map[], {}, [], [], [], [], {}, [], map[], map[])

  datatype Limits = Limits(global: nat, sender: nat, room: nat, reserve: nat)

  const DEFAULT_LIMITS := Limits(1024 * 1024 * 1024, 100 * 1024 * 1024, 100 * 1024 * 1024, 64 * 1024 * 1024)

  /** What one call reads from outside: a random room identifier, the clock at the rate
      check and at the insert, the database and log sizes and the free disk space. */
  datatype Environment = Environment(
    room: RoomId, checkedAt: int, allocatedAt: int, logical: nat, wal: nat, free: nat)

  /** A call either commits and answers, or fails and changes nothing. */
  datatype Outcome = Done(tables: Tables, response: Response) | StorageError

  // ----- queries -----

  /** The journaled row of a request identifier of a user. */
  function Lookup(journal: seq<JournalRow>, user: UserId, id: MessageId): Option<JournalRow> {
    if journal == [] then None
    else
      var last := journal[|journal| - 1];
      if last.user == user && last.id == id then Some(last) else Lookup(journal[..|journal| - 1], user, id)
  }

  /** The rows of one room, in insertion order. */
  function RowsOf(events: seq<EventRow>, room: RoomId): seq<EventRow> {
    if events == [] then []
    else
      var rest := RowsOf(events[..|events| - 1], room);
      var last := events[|events| - 1];
      if last.room == room then rest + [last] else rest
  }

  /** coalesce(max(sequence), 0) over the rows of a room. */
  function Head(events: seq<EventRow>, room: RoomId): nat {
    if events == [] then 0
    else
      var rest := Head(events[..|events| - 1], room);
      var last := events[|events| - 1];
      if last.room == room && last.sequence > rest then last.sequence else rest
  }

  predicate HasEvent(events: seq<EventRow>, id: MessageId) {
    exists i :: 0 <= i < |events| && events[i].event.id == id
  }

  predicate HasSequence(events: seq<EventRow>, room: RoomId, sequence: nat) {
    exists i :: 0 <= i < |events| && events[i].room == room && events[i].sequence == sequence
  }

  /** The rows of a room after a sequence. They are inserted in increasing sequence, so
      insertion order is the order of the query. */
  function RowsAfter(rows: seq<EventRow>, after: nat): seq<EventRow> {
    if rows == [] then []
    else if rows[0].sequence > after then [rows[0]] + RowsAfter(rows[1..], after)
    else RowsAfter(rows[1..], after)
  }

  function WelcomesAfter(rows: seq<WelcomeRow>, user: UserId, after: nat): seq<WelcomeRow> {
    if rows == [] then []
    else if rows[0].recipient == user && rows[0].cursor > after
    then [rows[0]] + WelcomesAfter(rows[1..], user, after)
    else WelcomesAfter(rows[1..], user, after)
  }

  /** The packages one user has in the pool, oldest first. */
  function Pool(packages: seq<PackageRow>, user: UserId): seq<Blob> {
    if packages == [] then []
    else if packages[0].user == user then [packages[0].package] + Pool(packages[1..], user)
    else Pool(packages[1..], user)
  }

  function WithoutFirst(packages: seq<PackageRow>, user: UserId): seq<PackageRow> {
    if packages == [] then []
    else if packages[0].user == user then packages[1..]
    else [packages[0]] + WithoutFirst(packages[1..], user)
  }

  /** Allocations of a recipient after a time, from one requester or from anybody. */
  function AllocationsAfter(rows: seq<Allocation>, recipient: UserId, requester: Option<UserId>, after: int): nat {
    if rows == [] then 0
    else
      var last := rows[|rows| - 1];
      AllocationsAfter(rows[..|rows| - 1], recipient, requester, after)
      + (if last.recipient == recipient && last.at > after && (requester.Some? ==> last.requester == requester.value)
         then 1 else 0)
  }

  function RoomsCreatedBy(rooms: map<RoomId, Room>, user: UserId): set<RoomId> {
    set room | room in rooms && rooms[room].creator == user
  }

  predicate Subscribed(t: Tables, room: RoomId, user: UserId) { (room, user) in t.subscribers }

  function IndexedRooms(t: Tables, user: UserId, after: Option<RoomId>): set<RoomId> {
    set room | room in t.rooms && Subscribed(t, room, user) && (after.Some? ==> room > after.value)
  }

  /** The first 101 rooms of the index after a room. */
  function FirstRooms(t: Tables, user: UserId, after: Option<RoomId>): (ids: seq<RoomId>)
    ensures forall i :: 0 <= i < |ids| ==> ids[i] in t.rooms
  {
    var indexed := Sorted(IndexedRooms(t, user, after));
    var ids := First(indexed, 101);
    assert forall i :: 0 <= i < |ids| ==> ids[i] in indexed;
    ids
  }

  function NameOf(rooms: map<RoomId, Room>, room: RoomId): string { if room in rooms then rooms[room].name else "" }

  function IndexHeads(t: Tables, ids: seq<RoomId>): seq<RoomHead> {
    seq(|ids|, i requires 0 <= i < |ids| => RoomHead(ids[i], NameOf(t.rooms, ids[i]), Head(t.events, ids[i])))
  }

  // ----- pages -----

  /** How many records of the given sizes one recovery page takes. */
  function Taken(sizes: seq<nat>, count: nat, bytes: nat): (n: nat)
    ensures n <= |sizes|
  {
    if sizes == [] || count == PAGE_SIZE || bytes + sizes[0] > MAX_PAYLOAD - 96 then 0
    else 1 + Taken(sizes[1..], count + 1, bytes + sizes[0])
  }

  function RowSizes(rows: seq<EventRow>): (sizes: seq<nat>)
    ensures |sizes| == |rows|
  {
    seq(|rows|, i requires 0 <= i < |rows| => EventSize(rows[i].event))
  }

  function WelcomeRowSizes(rows: seq<WelcomeRow>): (sizes: seq<nat>)
    ensures |sizes| == |rows|
  {
    seq(|rows|, i requires 0 <= i < |rows| => WelcomeSize(rows[i].record))
  }

  function EventsOf(rows: seq<EventRow>): (events: seq<Event>)
    ensures |events| == |rows|
  {
    seq(|rows|, i requires 0 <= i < |rows| => rows[i].event)
  }

  /** A delivered Welcome carries the cursor of its row. */
  function DeliveriesOf(rows: seq<WelcomeRow>): (welcomes: seq<WelcomeDelivery>)
    ensures |welcomes| == |rows|
  {
    seq(|rows|, i requires 0 <= i < |rows| => rows[i].record.(cursor := rows[i].cursor))
  }

  function First<T>(rows: seq<T>, n: nat): (r: seq<T>)
    ensures |r| <= n && r <= rows
  {
    if |rows| <= n then rows else rows[..n]
  }

  // ----- one request -----

  function ExecuteCreate(t: Tables, user: UserId, name: string, newRoom: RoomId): Outcome {
    match NormalizeRoomName(name)
    case None => Done(t, Rejected(Invalid))
    case Some(normal) =>
      if |RoomsCreatedBy(t.rooms, user)| >= 64 then Done(t, Rejected(Quota))
      else if newRoom in t.rooms then StorageError
      else
        Done(t.(rooms := t.rooms[newRoom := Room(normal, user)], subscribers := t.subscribers + {(newRoom, user)}),
             RoomCreated(newRoom))
  }

  function TotalBytes(packages: seq<Blob>): nat {
    if packages == [] then 0 else |packages[0].bytes| + TotalBytes(packages[1..])
  }

  predicate PublishInvalid(packages: seq<Blob>) {
    packages == [] || |packages| > 64
    || (exists i :: 0 <= i < |packages| && (packages[i].bytes == [] || |packages[i].bytes| > MAX_KEY_PACKAGE_BYTES))
    || TotalBytes(packages) > MAX_PAYLOAD
  }

  function PackageRows(user: UserId, packages: seq<Blob>): (rows: seq<PackageRow>)
    ensures |rows| == |packages|
  {
    seq(|packages|, i requires 0 <= i < |packages| => PackageRow(user, packages[i]))
  }

  function ExecutePublish(t: Tables, user: UserId, packages: seq<Blob>): Outcome {
    if PublishInvalid(packages) then Done(t, Rejected(Invalid))
    else if |Pool(t.packages, user)| + |packages| > 64 then Done(t, Rejected(Quota))
    else Done(t.(packages := t.packages + PackageRows(user, packages)), KeyPackagesPublished(|packages|))
  }

  function ExecuteGrant(t: Tables, user: UserId, requester: UserId, allowed: bool): Outcome {
    Done(t.(grants := if allowed then t.grants + {(user, requester)} else t.grants - {(user, requester)}),
         FetchGrantSet)
  }

  function ExecuteReserve(t: Tables, user: UserId, recipient: UserId, env: Environment): Outcome {
    if (recipient, user) !in t.grants then Done(t, Rejected(Unauthorized))
    else if AllocationsAfter(t.allocations, recipient, None, env.checkedAt - 3600) >= 16
         || AllocationsAfter(t.allocations, recipient, Some(user), env.checkedAt - 3600) >= 4
    then Done(t, Rejected(Overloaded))
    else if Pool(t.packages, recipient) == [] then Done(t, Rejected(NotFound))
    else
      Done(t.(packages := WithoutFirst(t.packages, recipient),
              allocations := t.allocations + [Allocation(user, recipient, env.allocatedAt)]),
           KeyPackage(recipient, Pool(t.packages, recipient)[0]))
  }

  predicate AppendInvalid(operation: Append) {
    operation.body.bytes == [] || |operation.body.bytes| > MAX_MLS_BLOB_BYTES || operation.parent >= I64_MAX
    || (operation.welcome.Some? && (operation.welcome.value.body.bytes == []
                                    || |operation.welcome.value.body.bytes| > MAX_MLS_BLOB_BYTES))
    || |operation.body.bytes|
       + (if operation.welcome.Some? then |operation.welcome.value.body.bytes| else 0) + 256 > MAX_PAYLOAD
  }

  function WelcomeRecord(t: Tables, event: Event, sequence: nat): WelcomeDelivery
    requires event.operation.welcome.Some? && event.operation.room in t.rooms
  {
    WelcomeDelivery(t.rooms[event.operation.room].name, 0, event.id, event.operation.room, sequence, event.sender,
                    event.operation.welcome.value)
  }

  /** Insert the event row and, with an attachment, its Welcome row and subscription. */
  function Insert(t: Tables, event: Event, sequence: nat): Tables
    requires event.operation.room in t.rooms
  {
    var room := event.operation.room;
    var t1 := t.(events := t.events + [EventRow(room, sequence, event)]);
    if event.operation.welcome.None? then t1
    else
      var recipient := event.operation.welcome.value.recipient;
      t1.(welcomes := t.welcomes + [WelcomeRow(|t.welcomes| + 1, recipient, WelcomeRecord(t, event, sequence))],
          subscribers := t.subscribers + {(room, recipient)})
  }

  function ExecuteAppend(t: Tables, user: UserId, id: MessageId, operation: Append): Outcome {
    var room := operation.room;
    if !Subscribed(t, room, user) then Done(t, Rejected(Unauthorized))
    else if AppendInvalid(operation) then Done(t, Rejected(Invalid))
    else
      var head := Head(t.events, room);
      if head != operation.parent then Done(t, HeadConflict(room, head))
      else if HasEvent(t.events, id) then Done(t, Rejected(RequestConflict))
      else
        var event := Event(id, user, operation);
        if EventSize(event) > MAX_PAYLOAD || HasSequence(t.events, room, head + 1) then StorageError
        else if operation.welcome.Some?
                && (room !in t.rooms || WelcomeSize(WelcomeRecord(t, event, head + 1)) > MAX_PAYLOAD)
        then StorageError
        else if room !in t.rooms then
          Done(t.(events := t.events + [EventRow(room, head + 1, event)]), AppendAccepted(event))
        else Done(Insert(t, event, head + 1), AppendAccepted(event))
  }

  function ExecuteFetch(t: Tables, user: UserId, room: RoomId, after: nat): Outcome {
    if after > I64_MAX then Done(t, Rejected(Invalid))
    else if !Subscribed(t, room, user) then Done(t, Rejected(Unauthorized))
    else
      var rows := First(RowsAfter(RowsOf(t.events, room), after), 101);
      var taken := Taken(RowSizes(rows), 0, 0);
      Done(t, RoomEvents(room, after, EventsOf(rows[..taken]), taken < |rows|))
  }

  function ExecuteIndex(t: Tables, user: UserId, after: Option<RoomId>): Outcome {
    var ids := FirstRooms(t, user, after);
    Done(t, RoomIndex(IndexHeads(t, First(ids, PAGE_SIZE)), |ids| > PAGE_SIZE))
  }

  function ExecuteWelcomes(t: Tables, user: UserId, after: nat): Outcome {
    if after > I64_MAX then Done(t, Rejected(Invalid))
    else
      var rows := First(WelcomesAfter(t.welcomes, user, after), 101);
      var taken := Taken(WelcomeRowSizes(rows), 0, 0);
      Done(t, Welcomes(after, DeliveriesOf(rows[..taken]), taken < |rows|))
  }

  predicate MayAcknowledgeEvent(t: Tables, user: UserId, event: MessageId) {
    exists i :: 0 <= i < |t.events| && t.events[i].event.id == event && Subscribed(t, t.events[i].room, user)
  }

  predicate MayAcknowledgeWelcome(t: Tables, user: UserId, cursor: nat) {
    exists i :: 0 <= i < |t.welcomes| && t.welcomes[i].cursor == cursor && t.welcomes[i].recipient == user
  }

  function ExecuteAcknowledge(t: Tables, user: UserId, events: seq<MessageId>, welcomes: seq<nat>): Outcome {
    if |events| + |welcomes| > PAGE_SIZE then Done(t, Rejected(Invalid))
    else if (forall i :: 0 <= i < |events| ==> MayAcknowledgeEvent(t, user, events[i]))
         && (forall i :: 0 <= i < |welcomes| ==> MayAcknowledgeWelcome(t, user, welcomes[i]))
    then Done(t, Acknowledged)
    else Done(t, Rejected(Unauthorized))
  }

  function Execute(t: Tables, user: UserId, id: MessageId, request: Request, env: Environment): Outcome {
    match request
    case CreateRoom(name) => ExecuteCreate(t, user, name, env.room)
    case PublishKeyPackages(packages) => ExecutePublish(t, user, packages)
    case SetFetchGrant(requester, allowed) => ExecuteGrant(t, user, requester, allowed)
    case ReserveKeyPackage(recipient) => ExecuteReserve(t, user, recipient, env)
    case AppendRoomOperation(operation) => ExecuteAppend(t, user, id, operation)
    case FetchRoomEvents(room, after) => ExecuteFetch(t, user, room, after)
    case SyncIndex(after) => ExecuteIndex(t, user, after)
    case FetchWelcomes(after) => ExecuteWelcomes(t, user, after)
    case Acknowledge(events, welcomes) => ExecuteAcknowledge(t, user, events, welcomes)
  }

  // ----- admission and the ledgers -----

  function SaturatingAdd(a: nat, b: nat): nat { if a + b > U64_MAX then U64_MAX else a + b }
  function SaturatingMul(a: nat, b: nat): nat { if a * b > U64_MAX then U64_MAX else a * b }

  /** Rows, indexes, journal entry and Welcome copy are covered by three times the request. */
  function Charge(request: Request): nat {
    SaturatingAdd(SaturatingMul(RequestSize(request), 3), 16 * 1024)
  }

  function Used<K>(ledger: map<K, nat>, key: K): nat { if key in ledger then ledger[key] else 0 }

  predicate Admit(t: Tables, limits: Limits, user: UserId, request: Request, env: Environment) {
    var required := Charge(request);
    && RequestSize(request) <= MAX_PAYLOAD
    && SaturatingAdd(env.logical, required) <= limits.global
    && SaturatingAdd(SaturatingAdd(env.logical, env.wal), required) <= SaturatingAdd(limits.global, limits.reserve)
    && SaturatingAdd(Used(t.usageSender, user), required) <= limits.sender
    && (request.AppendRoomOperation? ==>
          SaturatingAdd(Used(t.usageRoom, request.operation.room), required) <= limits.room)
    && env.free >= SaturatingAdd(limits.reserve, required)
  }

  function ChargeLedgers(t: Tables, user: UserId, request: Request): Tables {
    var t1 := t.(usageSender := t.usageSender[user := Used(t.usageSender, user) + Charge(request)]);
    if request.AppendRoomOperation? then
      var room := request.operation.room;
      t1.(usageRoom := t.usageRoom[room := Used(t.usageRoom, room) + Charge(request)])
    else t1
  }

  // ----- the whole transaction -----

  function Record(t: Tables, user: UserId, id: MessageId, request: Request, response: Response): Outcome {
    if request.Acknowledge? && !response.Acknowledged? then Done(t, response)
    else if !IsDurable(request) || IsTransient(response) then Done(t, response)
    else if ResponseSize(response) > MAX_PAYLOAD then StorageError
    else
      var charged := if request.Acknowledge? then t else ChargeLedgers(t, user, request);
      Done(charged.(journal := t.journal + [JournalRow(user, id, request, response)]), response)
  }

  /** Saved results first, then the receipt rule, then admission, then the operation itself. */
  function Settle(
    t: Tables, user: UserId, id: MessageId, request: Request, admitted: bool, executed: Outcome): Outcome
  {
    if RequestSize(request) > MAX_PAYLOAD then StorageError
    else
      match Lookup(t.journal, user, id)
      case Some(row) =>
        if row.request != request then Done(t, Rejected(RequestConflict)) else Done(t, row.response)
      case None =>
        if request.Acknowledge? && (|request.events| + |request.welcomes| != 1
                                    || id != AcknowledgementId(user, request.events, request.welcomes))
        then Done(t, Rejected(Invalid))
        else if IsDurable(request) && !request.Acknowledge? && !admitted then Done(t, Rejected(Quota))
        else if executed.StorageError? then StorageError
        else Record(executed.tables, user, id, request, executed.response)
  }

  function Deliver(
    t: Tables, limits: Limits, user: UserId, id: MessageId, request: Request, env: Environment): Outcome
  {
    Settle(t, user, id, request, Admit(t, limits, user, request, env), Execute(t, user, id, request, env))
  }
}
