/**
  The relay's state as the object it is: tables that `Deliver` inserts into, updates and
  deletes from inside one transaction (crates/grotto-relay/src/delivery.rs). A query is a
  function of the tables; a failed transaction puts the tables back.
 */
module RelayServer {
  import opened Records
  import opened Sizes
  import opened RoomNames
  import opened RelaySpec

  /** The cut-off of a page, one record further. */
  lemma TakenStep(sizes: seq<nat>, i: nat, bytes: nat)
    requires i < |sizes|
    ensures Taken(sizes[i..], i, bytes)
            == if i == PAGE_SIZE || bytes + sizes[i] > MAX_PAYLOAD - 96 then 0
               else 1 + Taken(sizes[i + 1..], i + 1, bytes + sizes[i])
  {
    assert sizes[i..][1..] == sizes[i + 1..];
  }

  lemma DeliveriesStep(rows: seq<WelcomeRow>, i: nat)
    requires i < |rows|
    ensures DeliveriesOf(rows[..i + 1]) == DeliveriesOf(rows[..i]) + [rows[i].record.(cursor := rows[i].cursor)]
  {}

  lemma HeadsPrefix(t: Tables, ids: seq<RoomId>, n: nat)
    requires n <= |ids| && forall k :: 0 <= k < |ids| ==> ids[k] in t.rooms
    ensures IndexHeads(t, ids)[..n] == IndexHeads(t, ids[..n])
  {}

  class RelayState {
    var rooms: map<RoomId, Room>
    var subscribers: set<(RoomId, UserId)>
    var events: seq<EventRow>
    var welcomes: seq<WelcomeRow>
    var journal: seq<JournalRow>
    var packages: seq<PackageRow>
    var grants: set<(UserId, UserId)>
    var allocations: seq<Allocation>
    var usageSender: map<UserId, nat>
    var usageRoom: map<RoomId, nat>
    const limits: Limits

    function Contents(): Tables
      reads this
    {
      Tables(rooms, subscribers, events, welcomes, journal, packages, grants, allocations, usageSender, usageRoom)
    }

    constructor (limits: Limits)
      ensures Contents() == EMPTY && this.limits == limits
    {
      this.limits := limits;
      rooms, subscribers, events, welcomes, journal := map[], {}, [], [], [];
      packages, grants, allocations, usageSender, usageRoom := [], {}, [], map[], map[];
    }

    /** Undo everything since the transaction began. */
    method Rollback(saved: Tables)
      modifies this
      ensures Contents() == saved
    {
      rooms, subscribers, events, welcomes, journal :=
        saved.rooms, saved.subscribers, saved.events, saved.welcomes, saved.journal;
      packages, grants, allocations, usageSender, usageRoom :=
        saved.packages, saved.grants, saved.allocations, saved.usageSender, saved.usageRoom;
    }

    /** One request is one transaction: it commits and answers, or fails without a trace. */
    method Deliver(user: UserId, id: MessageId, request: Request, env: Environment) returns (result: Option<Response>)
      modifies this
      ensures var outcome := RelaySpec.Deliver(old(Contents()), limits, user, id, request, env);
              if outcome.Done? then result == Some(outcome.response) && Contents() == outcome.tables
              else result == None && Contents() == old(Contents())
    {
      var saved := Contents();
      if RequestSize(request) > MAX_PAYLOAD { return None; }
      var row := Lookup(journal, user, id);
      if row.Some? {
        return Some(if row.value.request != request then Rejected(RequestConflict) else row.value.response);
      }
      var receipt := request.Acknowledge?;
      if receipt && (|request.events| + |request.welcomes| != 1
                     || id != AcknowledgementId(user, request.events, request.welcomes)) {
        return Some(Rejected(Invalid));
      }
      var durable := IsDurable(request);
      if durable && !receipt && !Admit(Contents(), limits, user, request, env) {
        return Some(Rejected(Quota));
      }
      result := Execute(user, id, request, env);
      if result == None {
        Rollback(saved);
        return;
      }
      var response := result.value;
      if receipt && response != Acknowledged {
        return;
      }
      if durable && !IsTransient(response) {
        if ResponseSize(response) > MAX_PAYLOAD {
          Rollback(saved);
          return None;
        }
        if !receipt {
          ChargeUsage(user, request);
        }
        journal := journal + [JournalRow(user, id, request, response)];
      }
    }

    method ChargeUsage(user: UserId, request: Request)
      modifies `usageSender, `usageRoom
      ensures Contents() == ChargeLedgers(old(Contents()), user, request)
    {
      usageSender := usageSender[user := Used(usageSender, user) + Charge(request)];
      if request.AppendRoomOperation? {
        usageRoom := usageRoom[request.operation.room := Used(usageRoom, request.operation.room) + Charge(request)];
      }
    }

    /** On failure the tables may hold half of the change; the caller rolls back. */
    method Execute(user: UserId, id: MessageId, request: Request, env: Environment) returns (result: Option<Response>)
      modifies this
      ensures var outcome := RelaySpec.Execute(old(Contents()), user, id, request, env);
              if outcome.Done? then result == Some(outcome.response) && Contents() == outcome.tables
              else result == None
    {
      match request {
        case CreateRoom(name) => result := CreateOne(user, name, env.room);
        case PublishKeyPackages(list) =>
          var response := Publish(user, list);
          result := Some(response);
        case SetFetchGrant(requester, allowed) =>
          grants := if allowed then grants + {(user, requester)} else grants - {(user, requester)};
          result := Some(FetchGrantSet);
        case ReserveKeyPackage(recipient) =>
          var response := Reserve(user, recipient, env);
          result := Some(response);
        case AppendRoomOperation(operation) => result := AppendOperation(user, id, operation);
        case FetchRoomEvents(room, after) =>
          var response := FetchEvents(user, room, after);
          result := Some(response);
        case SyncIndex(after) =>
          var response := Index(user, after);
          result := Some(response);
        case FetchWelcomes(after) =>
          var response := FetchQueue(user, after);
          result := Some(response);
        case Acknowledge(ids, cursors) =>
          var response := Confirm(user, ids, cursors);
          result := Some(response);
      }
    }

    method CreateOne(user: UserId, name: string, newRoom: RoomId) returns (result: Option<Response>)
      modifies this
      ensures var outcome := ExecuteCreate(old(Contents()), user, name, newRoom);
              if outcome.Done? then result == Some(outcome.response) && Contents() == outcome.tables
              else result == None
    {
      var normal := NormalizeRoomName(name);
      if normal == None { return Some(Rejected(Invalid)); }
      if |RoomsCreatedBy(rooms, user)| >= 64 { return Some(Rejected(Quota)); }
      if newRoom in rooms { return None; }
      rooms := rooms[newRoom := Room(normal.value, user)];
      subscribers := subscribers + {(newRoom, user)};
      return Some(RoomCreated(newRoom));
    }

    method Publish(user: UserId, list: seq<Blob>) returns (response: Response)
      modifies `packages
      ensures Done(Contents(), response) == ExecutePublish(old(Contents()), user, list)
    {
      if PublishInvalid(list) { return Rejected(Invalid); }
      if |Pool(packages, user)| + |list| > 64 { return Rejected(Quota); }
      var i := 0;
      while i < |list|
        invariant 0 <= i <= |list|
        invariant packages == old(packages) + PackageRows(user, list)[..i]
      {
        packages := packages + [PackageRow(user, list[i])];
        i := i + 1;
      }
      return KeyPackagesPublished(|list|);
    }

    method Reserve(user: UserId, recipient: UserId, env: Environment) returns (response: Response)
      modifies `packages, `allocations
      ensures Done(Contents(), response) == ExecuteReserve(old(Contents()), user, recipient, env)
    {
      if (recipient, user) !in grants { return Rejected(Unauthorized); }
      var total := AllocationsAfter(allocations, recipient, None, env.checkedAt - 3600);
      var pair := AllocationsAfter(allocations, recipient, Some(user), env.checkedAt - 3600);
      if total >= 16 || pair >= 4 { return Rejected(Overloaded); }
      var pool := Pool(packages, recipient);
      if pool == [] { return Rejected(NotFound); }
      packages := WithoutFirst(packages, recipient);
      allocations := allocations + [Allocation(user, recipient, env.allocatedAt)];
      return KeyPackage(recipient, pool[0]);
    }

    /** The event row is inserted before the Welcome record is known to fit. */
    method AppendOperation(user: UserId, id: MessageId, operation: Append) returns (result: Option<Response>)
      modifies `events, `welcomes, `subscribers
      ensures var outcome := ExecuteAppend(old(Contents()), user, id, operation);
              if outcome.Done? then result == Some(outcome.response) && Contents() == outcome.tables
              else result == None
    {
      var room := operation.room;
      if (room, user) !in subscribers { return Some(Rejected(Unauthorized)); }
      if AppendInvalid(operation) { return Some(Rejected(Invalid)); }
      var head := Head(events, room);
      if head != operation.parent { return Some(HeadConflict(room, head)); }
      if HasEvent(events, id) { return Some(Rejected(RequestConflict)); }
      var event := Event(id, user, operation);
      if EventSize(event) > MAX_PAYLOAD || HasSequence(events, room, head + 1) { return None; }
      events := events + [EventRow(room, head + 1, event)];
      if operation.welcome.Some? {
        if room !in rooms { return None; }
        var welcome := operation.welcome.value;
        var delivery := WelcomeDelivery(rooms[room].name, 0, id, room, head + 1, user, welcome);
        if WelcomeSize(delivery) > MAX_PAYLOAD { return None; }
        welcomes := welcomes + [WelcomeRow(|welcomes| + 1, welcome.recipient, delivery)];
        subscribers := subscribers + {(room, welcome.recipient)};
      }
      return Some(AppendAccepted(event));
    }

    method FetchEvents(user: UserId, room: RoomId, after: nat) returns (response: Response)
      ensures Done(Contents(), response) == ExecuteFetch(Contents(), user, room, after)
    {
      if after > I64_MAX { return Rejected(Invalid); }
      if (room, user) !in subscribers { return Rejected(Unauthorized); }
      var rows := First(RowsAfter(RowsOf(events, room), after), 101);
      var page, more := [], false;
      var bytes: nat := 0;
      var i := 0;
      while i < |rows| && !more
        invariant 0 <= i <= |rows|
        invariant page == EventsOf(rows[..i])
        invariant Taken(RowSizes(rows), 0, 0) == i + (if more then 0 else Taken(RowSizes(rows)[i..], i, bytes))
        invariant more ==> i < |rows|
        decreases |rows| - i, !more
      {
        TakenStep(RowSizes(rows), i, bytes);
        var size := EventSize(rows[i].event);
        if |page| == PAGE_SIZE || bytes + size > MAX_PAYLOAD - 96 {
          more := true;
        } else {
          bytes := bytes + size;
          page := page + [rows[i].event];
          i := i + 1;
        }
      }
      return RoomEvents(room, after, page, more);
    }

    method HeadsOf(ids: seq<RoomId>) returns (heads: seq<RoomHead>)
      requires forall k :: 0 <= k < |ids| ==> ids[k] in rooms
      ensures heads == IndexHeads(Contents(), ids)
    {
      heads := [];
      var i := 0;
      while i < |ids|
        invariant 0 <= i <= |ids| && |heads| == i
        invariant forall k :: 0 <= k < i ==> heads[k] == RoomHead(ids[k], rooms[ids[k]].name, Head(events, ids[k]))
      {
        heads := heads + [RoomHead(ids[i], rooms[ids[i]].name, Head(events, ids[i]))];
        i := i + 1;
      }
    }

    method IndexPage(ids: seq<RoomId>) returns (response: Response)
      requires forall k :: 0 <= k < |ids| ==> ids[k] in rooms
      ensures response == RoomIndex(IndexHeads(Contents(), First(ids, PAGE_SIZE)), |ids| > PAGE_SIZE)
    {
      var heads := HeadsOf(ids);
      var more := |heads| > PAGE_SIZE;
      if more {
        HeadsPrefix(Contents(), ids, PAGE_SIZE);
        heads := heads[..PAGE_SIZE];
      }
      return RoomIndex(heads, more);
    }

    method Index(user: UserId, after: Option<RoomId>) returns (response: Response)
      ensures Done(Contents(), response) == ExecuteIndex(Contents(), user, after)
    {
      response := IndexPage(FirstRooms(Contents(), user, after));
    }

    method FetchQueue(user: UserId, after: nat) returns (response: Response)
      ensures Done(Contents(), response) == ExecuteWelcomes(Contents(), user, after)
    {
      if after > I64_MAX { return Rejected(Invalid); }
      var rows := First(WelcomesAfter(welcomes, user, after), 101);
      var page, more := [], false;
      var bytes: nat := 0;
      var i := 0;
      while i < |rows| && !more
        invariant 0 <= i <= |rows|
        invariant page == DeliveriesOf(rows[..i])
        invariant Taken(WelcomeRowSizes(rows), 0, 0)
                  == i + (if more then 0 else Taken(WelcomeRowSizes(rows)[i..], i, bytes))
        invariant more ==> i < |rows|
        decreases |rows| - i, !more
      {
        TakenStep(WelcomeRowSizes(rows), i, bytes);
        DeliveriesStep(rows, i);
        var size := WelcomeSize(rows[i].record);
        if |page| == PAGE_SIZE || bytes + size > MAX_PAYLOAD - 96 {
          more := true;
        } else {
          bytes := bytes + size;
          page := page + [rows[i].record.(cursor := rows[i].cursor)];
          i := i + 1;
        }
      }
      return Welcomes(after, page, more);
    }

    method Confirm(user: UserId, ids: seq<MessageId>, cursors: seq<nat>) returns (response: Response)
      ensures Done(Contents(), response) == ExecuteAcknowledge(Contents(), user, ids, cursors)
    {
      if |ids| + |cursors| > PAGE_SIZE { return Rejected(Invalid); }
      var i := 0;
      while i < |ids|
        invariant 0 <= i <= |ids|
        invariant forall k :: 0 <= k < i ==> MayAcknowledgeEvent(Contents(), user, ids[k])
      {
        if !MayAcknowledgeEvent(Contents(), user, ids[i]) { return Rejected(Unauthorized); }
        i := i + 1;
      }
      i := 0;
      while i < |cursors|
        invariant 0 <= i <= |cursors|
        invariant forall k :: 0 <= k < i ==> MayAcknowledgeWelcome(Contents(), user, cursors[k])
      {
        if !MayAcknowledgeWelcome(Contents(), user, cursors[i]) { return Rejected(Unauthorized); }
        i := i + 1;
      }
      return Acknowledged;
    }
  }
}
