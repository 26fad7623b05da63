/** What every run of the relay keeps: the logs, the journal, the Welcome queue, the
    subscriptions, the key-package pool and the ledgers. */
module RelayInvariants {
  import opened Records
  import opened Sizes
  import opened RoomNames
  import opened RelaySpec

  // ----- runs -----

  datatype Call = Call(user: UserId, id: MessageId, request: Request, env: Environment)

  /** A failed transaction is answered `Internal` and leaves the tables alone. */
  function After(t: Tables, limits: Limits, call: Call): Tables {
    var outcome := Deliver(t, limits, call.user, call.id, call.request, call.env);
    if outcome.Done? then outcome.tables else t
  }

  function Reply(t: Tables, limits: Limits, call: Call): Response {
    var outcome := Deliver(t, limits, call.user, call.id, call.request, call.env);
    if outcome.Done? then outcome.response else Rejected(Internal)
  }

  function Run(t: Tables, limits: Limits, calls: seq<Call>): Tables
    decreases |calls|
  {
    if calls == [] then t else Run(After(t, limits, calls[0]), limits, calls[1..])
  }

  lemma {:induction false} RunLast(t: Tables, limits: Limits, calls: seq<Call>, call: Call)
    ensures Run(t, limits, calls + [call]) == After(Run(t, limits, calls), limits, call)
    decreases |calls|
  {
    var longer := calls + [call];
    if calls == [] {
      assert longer[1..] == [];
    } else {
      assert longer[1..] == calls[1..] + [call];
      RunLast(After(t, limits, calls[0]), limits, calls[1..], call);
    }
  }

  // ----- the journal -----

  ghost predicate JournalOk(journal: seq<JournalRow>) {
    && (forall i :: 0 <= i < |journal| ==> RequestSize(journal[i].request) <= MAX_PAYLOAD)
    && forall i, j :: 0 <= i < j < |journal| ==> (journal[i].user, journal[i].id) != (journal[j].user, journal[j].id)
  }

  lemma {:induction false} LookupFinds(journal: seq<JournalRow>, user: UserId, id: MessageId)
    ensures Lookup(journal, user, id).Some? ==>
              Lookup(journal, user, id).value in journal
              && Lookup(journal, user, id).value.user == user && Lookup(journal, user, id).value.id == id
    ensures Lookup(journal, user, id).None? ==>
              forall i :: 0 <= i < |journal| ==> journal[i].user != user || journal[i].id != id
  {
    if journal != [] {
      LookupFinds(journal[..|journal| - 1], user, id);
    }
  }

  lemma LookupAppend(journal: seq<JournalRow>, row: JournalRow, user: UserId, id: MessageId)
    ensures Lookup(journal + [row], user, id)
            == if row.user == user && row.id == id then Some(row) else Lookup(journal, user, id)
  {
    assert (journal + [row])[..|journal|] == journal;
  }

  // ----- the logs -----

  /** The log of a room: its events in the order of their sequences. */
  function Log(t: Tables, room: RoomId): seq<Event> { EventsOf(RowsOf(t.events, room)) }

  ghost predicate RowOk(t: Tables, i: nat)
    requires i < |t.events|
  {
    var row := t.events[i];
    && row.room == row.event.operation.room
    && row.sequence == |RowsOf(t.events[..i], row.room)| + 1
    && row.event.operation.parent + 1 == row.sequence
    && row.room in t.rooms
    && Subscribed(t, row.room, row.event.sender)
  }

  ghost predicate SubscribedRoomsExist(t: Tables) { forall pair :: pair in t.subscribers ==> pair.0 in t.rooms }

  ghost predicate LogOk(t: Tables) {
    && (forall i :: 0 <= i < |t.events| ==> RowOk(t, i))
    && SubscribedRoomsExist(t)
    && (forall i, j :: 0 <= i < j < |t.events| ==> t.events[i].event.id != t.events[j].event.id)
  }

  /** Accepted appends, in the order the journal recorded them. */
  function AcceptedEvents(journal: seq<JournalRow>): seq<Event> {
    if journal == [] then []
    else
      var rest := AcceptedEvents(journal[..|journal| - 1]);
      var last := journal[|journal| - 1];
      if last.response.AppendAccepted? then rest + [last.response.event] else rest
  }

  ghost predicate AcceptedRow(row: JournalRow) {
    row.response.AppendAccepted? ==>
      row.request.AppendRoomOperation? && row.response.event == Event(row.id, row.user, row.request.operation)
  }

  ghost predicate AcceptedOk(t: Tables) {
    && (forall i :: 0 <= i < |t.journal| ==> AcceptedRow(t.journal[i]))
    && AcceptedEvents(t.journal) == EventsOf(t.events)
  }

  // ----- Welcomes and subscriptions -----

  /** The Welcome queue that a list of events publishes. */
  function WelcomeRowsOf(rooms: map<RoomId, Room>, events: seq<EventRow>): seq<WelcomeRow> {
    if events == [] then []
    else
      var rest := WelcomeRowsOf(rooms, events[..|events| - 1]);
      var last := events[|events| - 1];
      match last.event.operation.welcome
      case None => rest
      case Some(attachment) =>
        rest + [WelcomeRow(|rest| + 1, attachment.recipient,
                           WelcomeDelivery(NameOf(rooms, last.room), 0, last.event.id, last.room, last.sequence,
                                           last.event.sender, attachment))]
  }

  ghost predicate WelcomesOk(t: Tables) { t.welcomes == WelcomeRowsOf(t.rooms, t.events) }

  ghost predicate SubscribersOk(t: Tables) {
    forall room: RoomId, user: UserId :: (room, user) in t.subscribers <==>
      (room in t.rooms && t.rooms[room].creator == user)
      || Welcomed(t, room, user)
  }

  // ----- key packages -----

  /** The packages a user has published successfully, in order. */
  function Published(journal: seq<JournalRow>, user: UserId): seq<Blob> {
    if journal == [] then []
    else
      var rest := Published(journal[..|journal| - 1], user);
      var last := journal[|journal| - 1];
      if last.user == user && last.request.PublishKeyPackages? && last.response.KeyPackagesPublished?
      then rest + last.request.packages else rest
  }

  /** The packages of a user that journaled reservations handed out, in order. */
  function HandedOut(journal: seq<JournalRow>, user: UserId): seq<Blob> {
    if journal == [] then []
    else
      var rest := HandedOut(journal[..|journal| - 1], user);
      var last := journal[|journal| - 1];
      if last.response.KeyPackage? && last.response.recipient == user then rest + [last.response.package] else rest
  }

  ghost predicate PackagesOk(t: Tables) {
    forall user: UserId :: Conserved(t, user)
  }

  // ----- ledgers -----

  function SenderCharges(journal: seq<JournalRow>, user: UserId): nat {
    if journal == [] then 0
    else
      var last := journal[|journal| - 1];
      SenderCharges(journal[..|journal| - 1], user)
      + (if last.user == user && !last.request.Acknowledge? then Charge(last.request) else 0)
  }

  function RoomCharges(journal: seq<JournalRow>, room: RoomId): nat {
    if journal == [] then 0
    else
      var last := journal[|journal| - 1];
      RoomCharges(journal[..|journal| - 1], room)
      + (if last.request.AppendRoomOperation? && last.request.operation.room == room then Charge(last.request) else 0)
  }

  ghost predicate LedgersOk(t: Tables, limits: Limits) {
    && (forall user: UserId :: Used(t.usageSender, user) == SenderCharges(t.journal, user))
    && (forall room: RoomId :: Used(t.usageRoom, room) == RoomCharges(t.journal, room))
    && (limits.sender < U64_MAX ==> forall user: UserId :: Used(t.usageSender, user) <= limits.sender)
    && (limits.room < U64_MAX ==> forall room: RoomId :: Used(t.usageRoom, room) <= limits.room)
  }

  /** A journaled receipt names exactly one record and has its canonical identifier. */
  ghost predicate ReceiptsOk(journal: seq<JournalRow>) {
    forall i :: 0 <= i < |journal| && journal[i].request.Acknowledge? ==>
      && |journal[i].request.events| + |journal[i].request.welcomes| == 1
      && journal[i].id == AcknowledgementId(journal[i].user, journal[i].request.events, journal[i].request.welcomes)
  }

  ghost predicate RelayOk(t: Tables, limits: Limits) {
    && JournalOk(t.journal)
    && LogOk(t)
    && AcceptedOk(t)
    && WelcomesOk(t)
    && SubscribersOk(t)
    && PackagesOk(t)
    && LedgersOk(t, limits)
    && ReceiptsOk(t.journal)
  }

  // ----- the logs are dense -----

  lemma RowsOfAppend(events: seq<EventRow>, row: EventRow, room: RoomId)
    ensures RowsOf(events + [row], room) == RowsOf(events, room) + (if row.room == room then [row] else [])
    ensures Head(events + [row], room)
            == if row.room == room && row.sequence > Head(events, room) then row.sequence else Head(events, room)
  {
    assert (events + [row])[..|events|] == events;
  }

  ghost predicate Dense(events: seq<EventRow>) {
    forall i :: 0 <= i < |events| ==>
      events[i].sequence == |RowsOf(events[..i], events[i].room)| + 1
      && events[i].event.operation.parent + 1 == events[i].sequence
      && events[i].event.operation.room == events[i].room
  }

  lemma DensePrefix(events: seq<EventRow>)
    requires Dense(events) && events != []
    ensures Dense(events[..|events| - 1])
  {
    var init := events[..|events| - 1];
    forall i | 0 <= i < |init|
      ensures init[i].sequence == |RowsOf(init[..i], init[i].room)| + 1
    {
      assert init[..i] == events[..i];
    }
  }

  /** The rows of a room carry the sequences 1, 2, ... and each names its predecessor. */
  lemma {:induction false} RowsAreDense(events: seq<EventRow>, room: RoomId)
    requires Dense(events)
    ensures Head(events, room) == |RowsOf(events, room)|
    ensures forall k :: 0 <= k < |RowsOf(events, room)| ==>
              RowsOf(events, room)[k].sequence == k + 1
              && RowsOf(events, room)[k].event.operation.parent == k
              && RowsOf(events, room)[k].event.operation.room == room
              && RowsOf(events, room)[k].room == room
              && RowsOf(events, room)[k] in events
  {
    if events != [] {
      var init := events[..|events| - 1];
      DensePrefix(events);
      RowsAreDense(init, room);
    }
  }

  lemma LogIsDense(t: Tables)
    requires LogOk(t)
    ensures Dense(t.events)
  {
    forall i | 0 <= i < |t.events|
      ensures t.events[i].sequence == |RowsOf(t.events[..i], t.events[i].room)| + 1
              && t.events[i].event.operation.parent + 1 == t.events[i].sequence
              && t.events[i].event.operation.room == t.events[i].room
    {
      assert RowOk(t, i);
    }
  }

  /** Every room's sequences are exactly 1..head, each event's parent is the sequence before it. */
  lemma LogSequences(t: Tables, room: RoomId)
    requires LogOk(t)
    ensures Head(t.events, room) == |Log(t, room)|
    ensures forall k :: 0 <= k < |Log(t, room)| ==>
              Log(t, room)[k].operation.parent == k && Log(t, room)[k].operation.room == room
    ensures forall k :: 0 <= k < |Log(t, room)| ==> RowsOf(t.events, room)[k].sequence == k + 1
  {
    LogIsDense(t);
    RowsAreDense(t.events, room);
  }

  lemma LogMonotone(t: Tables, t': Tables)
    requires LogOk(t) && t'.events == t.events
    requires forall room :: room in t.rooms ==> room in t'.rooms
    requires t.subscribers <= t'.subscribers
    requires SubscribedRoomsExist(t')
    ensures LogOk(t')
  {
    forall i | 0 <= i < |t'.events| ensures RowOk(t', i) {
      assert RowOk(t, i);
    }
  }

  lemma LogInsert(t: Tables, event: Event, sequence: nat)
    requires LogOk(t)
    requires event.operation.room in t.rooms && Subscribed(t, event.operation.room, event.sender)
    requires !HasEvent(t.events, event.id)
    requires sequence == Head(t.events, event.operation.room) + 1 == event.operation.parent + 1
    ensures LogOk(Insert(t, event, sequence))
  {
    var t' := Insert(t, event, sequence);
    LogSequences(t, event.operation.room);
    forall i | 0 <= i < |t'.events| ensures RowOk(t', i) {
      if i < |t.events| {
        assert RowOk(t, i);
        assert t'.events[..i] == t.events[..i];
      } else {
        assert t'.events[..i] == t.events;
      }
    }
  }

  // ----- the effect of one call -----

  /** The tables that requests read and write, the journal and the ledgers aside. */
  function Data(t: Tables): Tables { t.(journal := [], usageSender := map[], usageRoom := map[]) }

  ghost predicate RoomMade(t: Tables, t': Tables, call: Call, reply: Response) {
    && call.request.CreateRoom?
    && reply.RoomCreated?
    && reply.room !in t.rooms
    && |RoomsCreatedBy(t.rooms, call.user)| < 64
    && NormalizeRoomName(call.request.name).Some?
    && Data(t') == Data(t).(rooms := t.rooms[reply.room := Room(NormalizeRoomName(call.request.name).value, call.user)],
                            subscribers := t.subscribers + {(reply.room, call.user)})
  }

  ghost predicate PackagesPublished(t: Tables, t': Tables, call: Call, reply: Response) {
    && call.request.PublishKeyPackages?
    && reply.KeyPackagesPublished?
    && !PublishInvalid(call.request.packages)
    && |Pool(t.packages, call.user)| + |call.request.packages| <= 64
    && Data(t') == Data(t).(packages := t.packages + PackageRows(call.user, call.request.packages))
  }

  ghost predicate PackageReserved(t: Tables, t': Tables, call: Call, reply: Response) {
    && call.request.ReserveKeyPackage?
    && (call.request.recipient, call.user) in t.grants
    && Pool(t.packages, call.request.recipient) != []
    && reply == KeyPackage(call.request.recipient, Pool(t.packages, call.request.recipient)[0])
    && AllocationsAfter(t.allocations, call.request.recipient, None, call.env.checkedAt - 3600) < 16
    && AllocationsAfter(t.allocations, call.request.recipient, Some(call.user), call.env.checkedAt - 3600) < 4
    && Data(t') == Data(t).(packages := WithoutFirst(t.packages, call.request.recipient),
                            allocations := t.allocations
                              + [Allocation(call.user, call.request.recipient, call.env.allocatedAt)])
  }

  ghost predicate EventAppended(t: Tables, t': Tables, call: Call, reply: Response) {
    && call.request.AppendRoomOperation?
    && reply == AppendAccepted(Event(call.id, call.user, call.request.operation))
    && !AppendInvalid(call.request.operation)
    && call.request.operation.room in t.rooms
    && (call.request.operation.room, call.user) in t.subscribers
    && Head(t.events, call.request.operation.room) == call.request.operation.parent
    && !HasEvent(t.events, call.id)
    && Data(t') == Data(Insert(t, Event(call.id, call.user, call.request.operation), call.request.operation.parent + 1))
  }

  ghost predicate GrantSet(t: Tables, t': Tables, call: Call, reply: Response) {
    && call.request.SetFetchGrant?
    && reply.FetchGrantSet?
    && Data(t') == Data(t).(grants := if call.request.allowed then t.grants + {(call.user, call.request.requester)}
                                      else t.grants - {(call.user, call.request.requester)})
  }

  /** The result is recorded and the sender and the room are charged. */
  ghost predicate Recorded(t: Tables, t': Tables, limits: Limits, call: Call, reply: Response) {
    && Lookup(t.journal, call.user, call.id).None?
    && RequestSize(call.request) <= MAX_PAYLOAD
    && IsDurable(call.request) && !IsTransient(reply)
    && t'.journal == t.journal + [JournalRow(call.user, call.id, call.request, reply)]
    && (call.request.Acknowledge? ==>
          && reply.Acknowledged?
          && |call.request.events| + |call.request.welcomes| == 1
          && call.id == AcknowledgementId(call.user, call.request.events, call.request.welcomes)
          && t'.usageSender == t.usageSender && t'.usageRoom == t.usageRoom)
    && (!call.request.Acknowledge? ==>
          && SaturatingAdd(Used(t.usageSender, call.user), Charge(call.request)) <= limits.sender
          && t'.usageSender == t.usageSender[call.user := Used(t.usageSender, call.user) + Charge(call.request)]
          && (if call.request.AppendRoomOperation? then
                var room := call.request.operation.room;
                && SaturatingAdd(Used(t.usageRoom, room), Charge(call.request)) <= limits.room
                && t'.usageRoom == t.usageRoom[room := Used(t.usageRoom, room) + Charge(call.request)]
              else t'.usageRoom == t.usageRoom))
  }

  /** One call leaves the tables alone, or records one new result and has one effect. */
  ghost predicate Effect(t: Tables, t': Tables, limits: Limits, call: Call, reply: Response) {
    || t' == t
    || (Recorded(t, t', limits, call, reply)
        && (|| RoomMade(t, t', call, reply)
            || PackagesPublished(t, t', call, reply)
            || PackageReserved(t, t', call, reply)
            || EventAppended(t, t', call, reply)
            || GrantSet(t, t', call, reply)
            || Unproductive(t, t', reply)))
  }

  ghost predicate Unproductive(t: Tables, t': Tables, reply: Response) {
    && Data(t') == Data(t)
    && (reply.HeadConflict? || reply.Acknowledged? || reply.Rejected?)
  }

  /** An operation either commits one change to the data or only answers. */
  ghost predicate Operation(t: Tables, t': Tables, call: Call, reply: Response) {
    || RoomMade(t, t', call, reply)
    || PackagesPublished(t, t', call, reply)
    || PackageReserved(t, t', call, reply)
    || EventAppended(t, t', call, reply)
    || GrantSet(t, t', call, reply)
    || (t' == t && (!IsDurable(call.request) || reply.HeadConflict? || reply.Acknowledged? || reply.Rejected?))
  }

  /** What an operation leaves: one change to the data, and the journal and the ledgers as they were. */
  ghost predicate Executed(t: Tables, call: Call, outcome: Outcome) {
    outcome.Done? ==>
      && Operation(t, outcome.tables, call, outcome.response)
      && outcome.tables.journal == t.journal
      && outcome.tables.usageSender == t.usageSender
      && outcome.tables.usageRoom == t.usageRoom
      && (IsTransient(outcome.response) ==> outcome.tables == t)
  }

  lemma CreateEffect(t: Tables, call: Call)
    requires call.request.CreateRoom?
    ensures Executed(t, call, ExecuteCreate(t, call.user, call.request.name, call.env.room))
  {
    var outcome := ExecuteCreate(t, call.user, call.request.name, call.env.room);
    if outcome.Done? && outcome.response.RoomCreated? {
      var normal := NormalizeRoomName(call.request.name).value;
      assert Data(outcome.tables)
             == Data(t).(rooms := t.rooms[outcome.response.room := Room(normal, call.user)],
                         subscribers := t.subscribers + {(outcome.response.room, call.user)});
    }
  }

  lemma AppendEffect(t: Tables, call: Call)
    requires call.request.AppendRoomOperation? && SubscribedRoomsExist(t)
    ensures Executed(t, call, ExecuteAppend(t, call.user, call.id, call.request.operation))
  {
    assert (call.request.operation.room, call.user) in t.subscribers ==> call.request.operation.room in t.rooms;
  }

  lemma ExecuteEffect(t: Tables, call: Call)
    requires SubscribedRoomsExist(t)
    ensures Executed(t, call, Execute(t, call.user, call.id, call.request, call.env))
  {
    match call.request {
      case CreateRoom(name) => CreateEffect(t, call);
      case AppendRoomOperation(operation) => AppendEffect(t, call);
      case _ =>
    }
  }

  lemma SettleRecords(t: Tables, limits: Limits, call: Call, admitted: bool, executed: Outcome)
    requires admitted ==> Admit(t, limits, call.user, call.request, call.env)
    requires Executed(t, call, executed)
    ensures var outcome := Settle(t, call.user, call.id, call.request, admitted, executed);
            outcome.Done? && outcome.tables != t ==>
              && executed.Done? && outcome.response == executed.response
              && Data(outcome.tables) == Data(executed.tables)
              && Recorded(t, outcome.tables, limits, call, outcome.response)
  {}

  lemma SettleEffect(t: Tables, limits: Limits, call: Call, admitted: bool, executed: Outcome)
    requires admitted ==> Admit(t, limits, call.user, call.request, call.env)
    requires Executed(t, call, executed)
    ensures var outcome := Settle(t, call.user, call.id, call.request, admitted, executed);
            outcome.Done? ==> Effect(t, outcome.tables, limits, call, outcome.response)
  {
    var outcome := Settle(t, call.user, call.id, call.request, admitted, executed);
    if outcome.Done? && outcome.tables != t {
      SettleRecords(t, limits, call, admitted, executed);
    }
  }

  lemma DeliverEffect(t: Tables, limits: Limits, call: Call)
    requires SubscribedRoomsExist(t)
    ensures Effect(t, After(t, limits, call), limits, call, Reply(t, limits, call))
  {
    ExecuteEffect(t, call);
    SettleEffect(t, limits, call, Admit(t, limits, call.user, call.request, call.env),
                 Execute(t, call.user, call.id, call.request, call.env));
  }

  // ----- each part is kept by one call -----

  lemma JournalKept(t: Tables, t': Tables, limits: Limits, call: Call, reply: Response)
    requires JournalOk(t.journal) && Effect(t, t', limits, call, reply)
    ensures JournalOk(t'.journal)
  {
    LookupFinds(t.journal, call.user, call.id);
  }

  lemma LogKept(t: Tables, t': Tables, limits: Limits, call: Call, reply: Response)
    requires LogOk(t) && Effect(t, t', limits, call, reply)
    ensures LogOk(t')
  {
    if EventAppended(t, t', call, reply) {
      var inserted := Insert(t, reply.event, reply.event.operation.parent + 1);
      LogInsert(t, reply.event, reply.event.operation.parent + 1);
      assert Data(t').events == inserted.events && Data(t').rooms == inserted.rooms
             && Data(t').subscribers == inserted.subscribers;
      LogMonotone(inserted, t');
    } else {
      assert Data(t').events == t.events;
      LogMonotone(t, t');
    }
  }

  lemma AcceptedAppend(journal: seq<JournalRow>, row: JournalRow)
    ensures AcceptedEvents(journal + [row])
            == AcceptedEvents(journal) + (if row.response.AppendAccepted? then [row.response.event] else [])
  {
    assert (journal + [row])[..|journal|] == journal;
  }

  lemma EventsAppended(t: Tables, t': Tables, call: Call, reply: Response)
    requires EventAppended(t, t', call, reply)
    ensures EventsOf(t'.events) == EventsOf(t.events) + [reply.event]
  {
    assert Data(t').events == t.events + [EventRow(call.request.operation.room,
                                                   call.request.operation.parent + 1, reply.event)];
  }

  lemma AcceptedKept(t: Tables, t': Tables, limits: Limits, call: Call, reply: Response)
    requires AcceptedOk(t) && Effect(t, t', limits, call, reply)
    ensures AcceptedOk(t')
  {
    if t' != t {
      AcceptedAppend(t.journal, JournalRow(call.user, call.id, call.request, reply));
      if EventAppended(t, t', call, reply) {
        EventsAppended(t, t', call, reply);
      } else {
        assert Data(t').events == t.events;
      }
    }
  }

  lemma WelcomeRowsAppend(rooms: map<RoomId, Room>, events: seq<EventRow>, row: EventRow)
    ensures var rest := WelcomeRowsOf(rooms, events);
            WelcomeRowsOf(rooms, events + [row])
            == rest + match row.event.operation.welcome
                      case None => []
                      case Some(attachment) =>
                        [WelcomeRow(|rest| + 1, attachment.recipient,
                                    WelcomeDelivery(NameOf(rooms, row.room), 0, row.event.id, row.room, row.sequence,
                                                    row.event.sender, attachment))]
  {
    assert (events + [row])[..|events|] == events;
  }

  /** A new room does not change the names in the queue. */
  lemma {:induction false} WelcomeRowsStable(rooms: map<RoomId, Room>, rooms': map<RoomId, Room>, events: seq<EventRow>)
    requires forall i :: 0 <= i < |events| ==>
               events[i].room in rooms && events[i].room in rooms' && rooms[events[i].room] == rooms'[events[i].room]
    ensures WelcomeRowsOf(rooms, events) == WelcomeRowsOf(rooms', events)
  {
    if events != [] {
      WelcomeRowsStable(rooms, rooms', events[..|events| - 1]);
      assert events[|events| - 1].room in rooms;
    }
  }

  lemma AppendPublishes(t: Tables, t': Tables, call: Call, reply: Response)
    requires WelcomesOk(t) && EventAppended(t, t', call, reply)
    ensures WelcomesOk(t')
  {
    WelcomeRowsAppend(t.rooms, t.events, EventRow(call.request.operation.room,
                                                  call.request.operation.parent + 1, reply.event));
    assert Data(t').welcomes == t'.welcomes && Data(t').rooms == t.rooms && Data(t').events == t'.events;
  }

  lemma NothingPublished(t: Tables, t': Tables)
    requires LogOk(t) && WelcomesOk(t) && t'.events == t.events && t'.welcomes == t.welcomes
    requires forall room :: room in t.rooms ==> room in t'.rooms && t'.rooms[room] == t.rooms[room]
    ensures WelcomesOk(t')
  {
    forall i | 0 <= i < |t.events| ensures t.events[i].room in t.rooms { assert RowOk(t, i); }
    WelcomeRowsStable(t.rooms, t'.rooms, t.events);
  }

  lemma OthersPublishNothing(t: Tables, t': Tables, limits: Limits, call: Call, reply: Response)
    requires Effect(t, t', limits, call, reply) && !EventAppended(t, t', call, reply)
    ensures t'.events == t.events && t'.welcomes == t.welcomes
    ensures forall room :: room in t.rooms ==> room in t'.rooms && t'.rooms[room] == t.rooms[room]
  {
    if t' != t {
      assert Data(t').events == t'.events && Data(t').welcomes == t'.welcomes && Data(t').rooms == t'.rooms;
    }
  }

  lemma WelcomesKept(t: Tables, t': Tables, limits: Limits, call: Call, reply: Response)
    requires LogOk(t) && WelcomesOk(t) && Effect(t, t', limits, call, reply)
    ensures WelcomesOk(t')
  {
    if EventAppended(t, t', call, reply) {
      AppendPublishes(t, t', call, reply);
    } else {
      OthersPublishNothing(t, t', limits, call, reply);
      NothingPublished(t, t');
    }
  }

  ghost predicate Welcomed(t: Tables, room: RoomId, user: UserId) {
    exists i :: 0 <= i < |t.welcomes| && t.welcomes[i].record.room == room && t.welcomes[i].recipient == user
  }

  lemma SubscribersKept(t: Tables, t': Tables, limits: Limits, call: Call, reply: Response)
    requires SubscribersOk(t) && Effect(t, t', limits, call, reply)
    ensures SubscribersOk(t')
  {
    if EventAppended(t, t', call, reply) {
      AppendSubscribes(t, t', call, reply);
    } else if RoomMade(t, t', call, reply) {
      RoomSubscribes(t, t', call, reply);
    } else if t' != t {
      assert Data(t').welcomes == t.welcomes && Data(t').rooms == t.rooms && Data(t').subscribers == t.subscribers;
      forall room: RoomId, user: UserId ensures Welcomed(t', room, user) == Welcomed(t, room, user) {}
    }
  }

  lemma RoomSubscribes(t: Tables, t': Tables, call: Call, reply: Response)
    requires SubscribersOk(t) && RoomMade(t, t', call, reply)
    ensures SubscribersOk(t')
  {
    assert Data(t').welcomes == t.welcomes && Data(t').rooms == t'.rooms && Data(t').subscribers == t'.subscribers;
    forall room: RoomId, user: UserId ensures Welcomed(t', room, user) == Welcomed(t, room, user) {}
  }

  lemma AppendSubscribes(t: Tables, t': Tables, call: Call, reply: Response)
    requires SubscribersOk(t) && EventAppended(t, t', call, reply)
    ensures SubscribersOk(t')
  {
    assert Data(t').welcomes == t'.welcomes && Data(t').rooms == t.rooms && Data(t').subscribers == t'.subscribers;
    forall room: RoomId, user: UserId
      ensures (room, user) in t'.subscribers <==>
                (room in t'.rooms && t'.rooms[room].creator == user) || Welcomed(t', room, user)
    {
      assert (room, user) in t.subscribers <==>
               (room in t.rooms && t.rooms[room].creator == user) || Welcomed(t, room, user);
      WelcomedGrows(t, t', room, user);
      if |t'.welcomes| > |t.welcomes| {
        assert t'.welcomes[|t.welcomes|].record.room == call.request.operation.room;
      }
    }
  }

  lemma WelcomedGrows(t: Tables, t': Tables, room: RoomId, user: UserId)
    requires t.welcomes <= t'.welcomes
    ensures Welcomed(t, room, user) ==> Welcomed(t', room, user)
  {
    if Welcomed(t, room, user) {
      var i :| 0 <= i < |t.welcomes| && t.welcomes[i].record.room == room && t.welcomes[i].recipient == user;
      assert t'.welcomes[i] == t.welcomes[i];
    }
  }

  // ----- key packages are conserved -----

  lemma {:induction false} PoolConcat(a: seq<PackageRow>, b: seq<PackageRow>, user: UserId)
    ensures Pool(a + b, user) == Pool(a, user) + Pool(b, user)
  {
    if a == [] {
      assert a + b == b;
    } else {
      assert (a + b)[1..] == a[1..] + b;
      PoolConcat(a[1..], b, user);
    }
  }

  lemma {:induction false} PoolOfRows(owner: UserId, packages: seq<Blob>, user: UserId)
    ensures Pool(PackageRows(owner, packages), user) == if owner == user then packages else []
  {
    if packages != [] {
      assert PackageRows(owner, packages)[1..] == PackageRows(owner, packages[1..]);
      PoolOfRows(owner, packages[1..], user);
    }
  }

  /** Reserving takes the oldest package of the recipient and nobody else's. */
  lemma {:induction false} PoolWithoutFirst(packages: seq<PackageRow>, recipient: UserId, user: UserId)
    ensures Pool(WithoutFirst(packages, recipient), user)
            == if user == recipient && Pool(packages, user) != [] then Pool(packages, user)[1..]
               else Pool(packages, user)
  {
    if packages != [] && packages[0].user != recipient {
      var rest := WithoutFirst(packages[1..], recipient);
      assert ([packages[0]] + rest)[1..] == rest;
      PoolWithoutFirst(packages[1..], recipient, user);
    }
  }

  lemma PackageJournalAppend(journal: seq<JournalRow>, row: JournalRow, user: UserId)
    ensures Published(journal + [row], user)
            == Published(journal, user)
               + (if row.user == user && row.request.PublishKeyPackages? && row.response.KeyPackagesPublished?
                  then row.request.packages else [])
    ensures HandedOut(journal + [row], user)
            == HandedOut(journal, user)
               + (if row.response.KeyPackage? && row.response.recipient == user then [row.response.package] else [])
  {
    assert (journal + [row])[..|journal|] == journal;
  }

  lemma PublishedKept(t: Tables, t': Tables, call: Call, reply: Response, user: UserId)
    requires PackagesPublished(t, t', call, reply)
    ensures Pool(t'.packages, user)
            == Pool(t.packages, user) + (if call.user == user then call.request.packages else [])
  {
    assert Data(t').packages == t'.packages;
    PoolConcat(t.packages, PackageRows(call.user, call.request.packages), user);
    PoolOfRows(call.user, call.request.packages, user);
  }

  lemma ReservedKept(t: Tables, t': Tables, call: Call, reply: Response, user: UserId)
    requires PackageReserved(t, t', call, reply)
    ensures Pool(t.packages, user)
            == (if call.request.recipient == user then [reply.package] else []) + Pool(t'.packages, user)
  {
    assert Data(t').packages == t'.packages;
    PoolWithoutFirst(t.packages, call.request.recipient, user);
  }

  ghost predicate Conserved(t: Tables, user: UserId) {
    && Published(t.journal, user) == HandedOut(t.journal, user) + Pool(t.packages, user)
    && |Pool(t.packages, user)| <= 64
  }

  lemma ConservedKept(t: Tables, t': Tables, limits: Limits, call: Call, reply: Response, user: UserId)
    requires Conserved(t, user) && Recorded(t, t', limits, call, reply) && Effect(t, t', limits, call, reply)
    ensures Conserved(t', user)
  {
    PackageJournalAppend(t.journal, JournalRow(call.user, call.id, call.request, reply), user);
    if PackagesPublished(t, t', call, reply) {
      PublishedKept(t, t', call, reply, user);
    } else if PackageReserved(t, t', call, reply) {
      ReservedKept(t, t', call, reply, user);
    } else {
      assert Data(t').packages == t.packages;
    }
  }

  lemma PackagesKept(t: Tables, t': Tables, limits: Limits, call: Call, reply: Response)
    requires PackagesOk(t) && Effect(t, t', limits, call, reply)
    ensures PackagesOk(t')
  {
    if t' != t {
      forall user: UserId ensures Conserved(t', user) {
        assert Conserved(t, user);
        ConservedKept(t, t', limits, call, reply, user);
      }
    }
  }

  // ----- ledgers and receipts -----

  lemma ChargesAppend(journal: seq<JournalRow>, row: JournalRow)
    ensures forall user: UserId :: SenderCharges(journal + [row], user)
              == SenderCharges(journal, user)
                 + (if row.user == user && !row.request.Acknowledge? then Charge(row.request) else 0)
    ensures forall room: RoomId :: RoomCharges(journal + [row], room)
              == RoomCharges(journal, room)
                 + (if row.request.AppendRoomOperation? && row.request.operation.room == room
                    then Charge(row.request) else 0)
  {
    assert (journal + [row])[..|journal|] == journal;
  }

  lemma SendersKept(t: Tables, t': Tables, limits: Limits, call: Call, reply: Response)
    requires Recorded(t, t', limits, call, reply)
    requires forall user: UserId :: Used(t.usageSender, user) == SenderCharges(t.journal, user)
    requires limits.sender < U64_MAX ==> forall user: UserId :: Used(t.usageSender, user) <= limits.sender
    ensures forall user: UserId :: Used(t'.usageSender, user) == SenderCharges(t'.journal, user)
    ensures limits.sender < U64_MAX ==> forall user: UserId :: Used(t'.usageSender, user) <= limits.sender
  {
    ChargesAppend(t.journal, JournalRow(call.user, call.id, call.request, reply));
  }

  lemma RoomsKept(t: Tables, t': Tables, limits: Limits, call: Call, reply: Response)
    requires Recorded(t, t', limits, call, reply)
    requires forall room: RoomId :: Used(t.usageRoom, room) == RoomCharges(t.journal, room)
    requires limits.room < U64_MAX ==> forall room: RoomId :: Used(t.usageRoom, room) <= limits.room
    ensures forall room: RoomId :: Used(t'.usageRoom, room) == RoomCharges(t'.journal, room)
    ensures limits.room < U64_MAX ==> forall room: RoomId :: Used(t'.usageRoom, room) <= limits.room
  {
    ChargesAppend(t.journal, JournalRow(call.user, call.id, call.request, reply));
  }

  lemma LedgersKept(t: Tables, t': Tables, limits: Limits, call: Call, reply: Response)
    requires LedgersOk(t, limits) && Effect(t, t', limits, call, reply)
    ensures LedgersOk(t', limits)
  {
    if t' != t {
      SendersKept(t, t', limits, call, reply);
      RoomsKept(t, t', limits, call, reply);
    }
  }

  lemma ReceiptsKept(t: Tables, t': Tables, limits: Limits, call: Call, reply: Response)
    requires ReceiptsOk(t.journal) && Effect(t, t', limits, call, reply)
    ensures ReceiptsOk(t'.journal)
  {}

  /** The whole relay invariant is kept by every call, whoever makes it. */
  lemma RelayKept(t: Tables, limits: Limits, call: Call)
    requires RelayOk(t, limits)
    ensures RelayOk(After(t, limits, call), limits)
  {
    var t', reply := After(t, limits, call), Reply(t, limits, call);
    DeliverEffect(t, limits, call);
    RelayKeptByEffect(t, t', limits, call, reply);
  }

  lemma RelayKeptByEffect(t: Tables, t': Tables, limits: Limits, call: Call, reply: Response)
    requires RelayOk(t, limits) && Effect(t, t', limits, call, reply)
    ensures RelayOk(t', limits)
  {
    JournalKept(t, t', limits, call, reply);
    LogKept(t, t', limits, call, reply);
    AcceptedKept(t, t', limits, call, reply);
    WelcomesKept(t, t', limits, call, reply);
    SubscribersKept(t, t', limits, call, reply);
    PackagesKept(t, t', limits, call, reply);
    LedgersKept(t, t', limits, call, reply);
    ReceiptsKept(t, t', limits, call, reply);
  }

  lemma RelayStart(limits: Limits)
    ensures RelayOk(EMPTY, limits)
  {}

  /** Every run from an empty database, by any users with any requests. */
  lemma {:induction false} RelayInvariant(t: Tables, limits: Limits, calls: seq<Call>)
    requires RelayOk(t, limits)
    ensures RelayOk(Run(t, limits, calls), limits)
    decreases |calls|
  {
    if calls != [] {
      RelayKept(t, limits, calls[0]);
      RelayInvariant(After(t, limits, calls[0]), limits, calls[1..]);
    }
  }
}
