/** What the relay's tables hold, read off its journal of results: rooms, members, logs, grants,
    packages and allocations. */
module JournalFacts {
  import opened Records
  import opened RoomNames
  import opened RelaySpec
  import opened RelayInvariants
  import opened LogFacts

  // ----- reading the journal -----

  predicate Creates(row: JournalRow, room: RoomId) { row.request.CreateRoom? && row.response == RoomCreated(room) }

  /** The accepted append carries a Welcome to the room for the user. */
  predicate Invites(row: JournalRow, room: RoomId, user: UserId) {
    && row.response.AppendAccepted? && row.response.event.operation.room == room
    && row.response.event.operation.welcome.Some?
    && row.response.event.operation.welcome.value.recipient == user
  }

  /** The user created the room, or an accepted append of the room carries a Welcome for the user. */
  ghost predicate Belongs(journal: seq<JournalRow>, room: RoomId, user: UserId) {
    exists i :: 0 <= i < |journal|
                && ((journal[i].user == user && Creates(journal[i], room)) || Invites(journal[i], room, user))
  }

  /** The accepted appends of a room, in the order of acceptance. */
  function LogIn(journal: seq<JournalRow>, room: RoomId): seq<Event> {
    if journal == [] then []
    else
      var rest := LogIn(journal[..|journal| - 1], room);
      var last := journal[|journal| - 1];
      if last.response.AppendAccepted? && last.response.event.operation.room == room
      then rest + [last.response.event] else rest
  }

  /** What the owner of the packages last said about the requester. */
  predicate Granted(journal: seq<JournalRow>, owner: UserId, requester: UserId) {
    journal != []
    && var last := journal[|journal| - 1];
       if last.user == owner && last.request.SetFetchGrant? && last.request.requester == requester
       then last.request.allowed
       else Granted(journal[..|journal| - 1], owner, requester)
  }

  function RoomsMade(journal: seq<JournalRow>, user: UserId): nat {
    if journal == [] then 0
    else
      var last := journal[|journal| - 1];
      RoomsMade(journal[..|journal| - 1], user) + (if last.user == user && last.response.RoomCreated? then 1 else 0)
  }

  /** Who reserved a package of whom, in order. */
  function Reservations(journal: seq<JournalRow>): seq<(UserId, UserId)> {
    if journal == [] then []
    else
      var rest := Reservations(journal[..|journal| - 1]);
      var last := journal[|journal| - 1];
      if last.response.KeyPackage? then rest + [(last.user, last.response.recipient)] else rest
  }

  // ----- the tables say the same -----

  /** The room of a journaled creation. */
  ghost predicate RoomTold(t: Tables, row: JournalRow) {
    row.response.RoomCreated? ==>
      && row.request.CreateRoom? && NormalizeRoomName(row.request.name).Some?
      && row.response.room in t.rooms
      && t.rooms[row.response.room] == Room(NormalizeRoomName(row.request.name).value, row.user)
  }

  ghost predicate WasMade(journal: seq<JournalRow>, room: RoomId) {
    exists i :: 0 <= i < |journal| && Creates(journal[i], room)
  }

  ghost predicate RoomsTold(t: Tables) {
    && (forall i :: 0 <= i < |t.journal| ==> RoomTold(t, t.journal[i]))
    && (forall room :: room in t.rooms ==> WasMade(t.journal, room))
  }

  ghost predicate RoomsCounted(t: Tables) {
    forall user: UserId :: |RoomsCreatedBy(t.rooms, user)| == RoomsMade(t.journal, user) <= 64
  }

  ghost predicate GrantsTold(t: Tables) {
    forall owner: UserId, requester: UserId :: (owner, requester) in t.grants <==> Granted(t.journal, owner, requester)
  }

  function Pairs(rows: seq<Allocation>): seq<(UserId, UserId)> {
    seq(|rows|, i requires 0 <= i < |rows| => (rows[i].requester, rows[i].recipient))
  }

  ghost predicate AllocationsTold(t: Tables) { Pairs(t.allocations) == Reservations(t.journal) }

  predicate PackageBounded(package: Blob) { 1 <= |package.bytes| <= 16 * 1024 }

  ghost predicate PackagesBounded(t: Tables) {
    forall i :: 0 <= i < |t.packages| ==> PackageBounded(t.packages[i].package)
  }

  ghost predicate DurableOnly(journal: seq<JournalRow>) {
    forall i :: 0 <= i < |journal| ==> IsDurable(journal[i].request)
  }

  ghost predicate Told(t: Tables) {
    && RoomsTold(t) && RoomsCounted(t) && GrantsTold(t) && AllocationsTold(t) && PackagesBounded(t)
    && DurableOnly(t.journal)
  }

  // ----- one call -----

  lemma WasMadeStays(journal: seq<JournalRow>, row: JournalRow, room: RoomId)
    ensures WasMade(journal + [row], room) <==> WasMade(journal, room) || Creates(row, room)
  {
    var longer := journal + [row];
    if WasMade(journal, room) {
      var i :| 0 <= i < |journal| && Creates(journal[i], room);
      assert Creates(longer[i], room);
    }
    if Creates(row, room) { assert Creates(longer[|journal|], room); }
  }

  lemma RoomsToldKept(t: Tables, t': Tables, limits: Limits, call: Call, reply: Response)
    requires RoomsTold(t) && Recorded(t, t', limits, call, reply) && Effect(t, t', limits, call, reply)
    ensures RoomsTold(t')
  {
    var row := JournalRow(call.user, call.id, call.request, reply);
    assert Data(t').rooms == t'.rooms;
    forall i | 0 <= i < |t'.journal| ensures RoomTold(t', t'.journal[i]) {
      if i < |t.journal| { assert RoomTold(t, t.journal[i]); }
    }
    forall room | room in t'.rooms ensures WasMade(t'.journal, room) {
      WasMadeStays(t.journal, row, room);
    }
  }

  lemma MadeAppend(journal: seq<JournalRow>, row: JournalRow, user: UserId)
    ensures RoomsMade(journal + [row], user)
            == RoomsMade(journal, user) + (if row.user == user && row.response.RoomCreated? then 1 else 0)
  {
    assert (journal + [row])[..|journal|] == journal;
  }

  lemma RoomsCountedKept(t: Tables, t': Tables, limits: Limits, call: Call, reply: Response)
    requires RoomsCounted(t) && Recorded(t, t', limits, call, reply) && Effect(t, t', limits, call, reply)
    ensures RoomsCounted(t')
  {
    assert Data(t').rooms == t'.rooms;
    forall user: UserId ensures |RoomsCreatedBy(t'.rooms, user)| == RoomsMade(t'.journal, user) <= 64 {
      assert |RoomsCreatedBy(t.rooms, user)| == RoomsMade(t.journal, user) <= 64;
      MadeAppend(t.journal, JournalRow(call.user, call.id, call.request, reply), user);
      if RoomMade(t, t', call, reply) { OneMore(t, t', call, reply, user); }
    }
  }

  lemma OneMore(t: Tables, t': Tables, call: Call, reply: Response, user: UserId)
    requires RoomMade(t, t', call, reply)
    ensures |RoomsCreatedBy(t'.rooms, user)| == |RoomsCreatedBy(t.rooms, user)| + (if user == call.user then 1 else 0)
  {
    assert Data(t').rooms == t'.rooms;
    assert RoomsCreatedBy(t'.rooms, user)
           == RoomsCreatedBy(t.rooms, user) + (if user == call.user then {reply.room} else {});
  }

  lemma GrantedAppend(journal: seq<JournalRow>, row: JournalRow, owner: UserId, requester: UserId)
    ensures Granted(journal + [row], owner, requester)
            <==> if row.user == owner && row.request.SetFetchGrant? && row.request.requester == requester
                 then row.request.allowed else Granted(journal, owner, requester)
  {
    assert (journal + [row])[..|journal|] == journal;
  }

  lemma GrantsToldKept(t: Tables, t': Tables, limits: Limits, call: Call, reply: Response)
    requires GrantsTold(t) && Recorded(t, t', limits, call, reply) && Effect(t, t', limits, call, reply)
    requires call.request.SetFetchGrant? ==> reply.FetchGrantSet?
    ensures GrantsTold(t')
  {
    assert Data(t').grants == t'.grants;
    forall owner: UserId, requester: UserId
      ensures (owner, requester) in t'.grants <==> Granted(t'.journal, owner, requester)
    {
      GrantedAppend(t.journal, JournalRow(call.user, call.id, call.request, reply), owner, requester);
    }
  }

  lemma ReservationsAppend(journal: seq<JournalRow>, row: JournalRow)
    ensures Reservations(journal + [row])
            == Reservations(journal)
               + (if row.response.KeyPackage? then [(row.user, row.response.recipient)] else [])
  {
    assert (journal + [row])[..|journal|] == journal;
  }

  lemma AllocationsToldKept(t: Tables, t': Tables, limits: Limits, call: Call, reply: Response)
    requires AllocationsTold(t) && Recorded(t, t', limits, call, reply) && Effect(t, t', limits, call, reply)
    ensures AllocationsTold(t')
  {
    assert Data(t').allocations == t'.allocations;
    ReservationsAppend(t.journal, JournalRow(call.user, call.id, call.request, reply));
    if PackageReserved(t, t', call, reply) {
      PairsAppend(t.allocations, Allocation(call.user, call.request.recipient, call.env.allocatedAt));
    }
  }

  lemma PairsAppend(rows: seq<Allocation>, row: Allocation)
    ensures Pairs(rows + [row]) == Pairs(rows) + [(row.requester, row.recipient)]
  {}

  lemma {:induction false} WithoutFirstIn(packages: seq<PackageRow>, user: UserId)
    ensures forall i :: 0 <= i < |WithoutFirst(packages, user)| ==> WithoutFirst(packages, user)[i] in packages
  {
    if packages != [] && packages[0].user != user { WithoutFirstIn(packages[1..], user); }
  }

  lemma PackagesBoundedKept(t: Tables, t': Tables, limits: Limits, call: Call, reply: Response)
    requires PackagesBounded(t) && Recorded(t, t', limits, call, reply) && Effect(t, t', limits, call, reply)
    ensures PackagesBounded(t')
  {
    assert Data(t').packages == t'.packages;
    if PackageReserved(t, t', call, reply) {
      WithoutFirstIn(t.packages, call.request.recipient);
      forall i | 0 <= i < |t'.packages| ensures PackageBounded(t'.packages[i].package) {
        var j :| 0 <= j < |t.packages| && t.packages[j] == t'.packages[i];
      }
    }
  }

  lemma GrantAnswered(t: Tables, limits: Limits, call: Call)
    requires SubscribedRoomsExist(t) && call.request.SetFetchGrant? && After(t, limits, call) != t
    ensures Reply(t, limits, call).FetchGrantSet?
  {}

  lemma ToldKept(t: Tables, limits: Limits, call: Call)
    requires LogOk(t) && Told(t)
    ensures Told(After(t, limits, call))
  {
    var t', reply := After(t, limits, call), Reply(t, limits, call);
    DeliverEffect(t, limits, call);
    if t' != t {
      RoomsToldKept(t, t', limits, call, reply);
      RoomsCountedKept(t, t', limits, call, reply);
      if call.request.SetFetchGrant? { GrantAnswered(t, limits, call); }
      GrantsToldKept(t, t', limits, call, reply);
      AllocationsToldKept(t, t', limits, call, reply);
      PackagesBoundedKept(t, t', limits, call, reply);
    }
  }

  lemma {:induction false} RunTold(t: Tables, limits: Limits, calls: seq<Call>)
    requires RelayOk(t, limits) && Told(t)
    ensures RelayOk(Run(t, limits, calls), limits) && Told(Run(t, limits, calls))
    decreases |calls|
  {
    if calls != [] {
      RelayKept(t, limits, calls[0]);
      ToldKept(t, limits, calls[0]);
      RunTold(After(t, limits, calls[0]), limits, calls[1..]);
    }
  }

  lemma EmptyTold()
    ensures Told(EMPTY)
  {
    forall user: UserId ensures |RoomsCreatedBy(EMPTY.rooms, user)| == 0 {
      assert RoomsCreatedBy(EMPTY.rooms, user) == {};
    }
  }

  // ----- logs and members -----

  lemma {:induction false} LogInAccepted(journal: seq<JournalRow>, events: seq<EventRow>, room: RoomId)
    requires AcceptedEvents(journal) == EventsOf(events)
    requires forall i :: 0 <= i < |events| ==> events[i].room == events[i].event.operation.room
    ensures LogIn(journal, room) == EventsOf(RowsOf(events, room))
    decreases |journal|
  {
    if journal != [] {
      var init, last := journal[..|journal| - 1], journal[|journal| - 1];
      if last.response.AppendAccepted? {
        var before, row := events[..|events| - 1], events[|events| - 1];
        assert EventsOf(events) == EventsOf(before) + [row.event];
        assert AcceptedEvents(init) == EventsOf(events)[..|events| - 1] == EventsOf(before);
        LogInAccepted(init, before, room);
        assert events == before + [row];
        RowsOfAppend(before, row, room);
      } else {
        LogInAccepted(init, events, room);
      }
    }
  }

  /** The log of a room is its accepted appends. */
  lemma LogTold(t: Tables, room: RoomId)
    requires LogOk(t) && AcceptedOk(t)
    ensures Log(t, room) == LogIn(t.journal, room)
  {
    forall i | 0 <= i < |t.events| ensures t.events[i].room == t.events[i].event.operation.room {
      assert RowOk(t, i);
    }
    LogInAccepted(t.journal, t.events, room);
  }

  /** The queue holds the Welcome of every event that has one. */
  lemma {:induction false} QueueHas(rooms: map<RoomId, Room>, events: seq<EventRow>, i: nat) returns (c: nat)
    requires i < |events| && events[i].event.operation.welcome.Some? && events[i].room == events[i].event.operation.room
    ensures c < |WelcomeRowsOf(rooms, events)|
    ensures WelcomeRowsOf(rooms, events)[c].record.room == events[i].room
    ensures WelcomeRowsOf(rooms, events)[c].recipient == events[i].event.operation.welcome.value.recipient
  {
    var init := events[..|events| - 1];
    if i < |init| {
      c := QueueHas(rooms, init, i);
    } else {
      c := |WelcomeRowsOf(rooms, init)|;
    }
  }

  lemma WelcomedIsInvited(t: Tables, room: RoomId, user: UserId)
    requires LogOk(t) && AcceptedOk(t) && WelcomesOk(t) && JournalOk(t.journal) && Welcomed(t, room, user)
    ensures Belongs(t.journal, room, user)
  {
    var c :| 0 <= c < |t.welcomes| && t.welcomes[c].record.room == room && t.welcomes[c].recipient == user;
    var event := WelcomePublished(t, c);
    LogJournaled(t, event);
    LookupFinds(t.journal, event.sender, event.id);
    var i :| 0 <= i < |t.journal| && t.journal[i] == AcceptedAs(event);
    assert Invites(t.journal[i], room, user);
  }

  lemma InvitedIsWelcomed(t: Tables, room: RoomId, user: UserId, i: nat)
    requires LogOk(t) && AcceptedOk(t) && WelcomesOk(t) && i < |t.journal| && Invites(t.journal[i], room, user)
    ensures Welcomed(t, room, user)
  {
    var k := AcceptedHas(t.journal, i);
    assert EventsOf(t.events)[k] == t.events[k].event;
    assert RowOk(t, k);
    var c := QueueHas(t.rooms, t.events, k);
  }

  /** The subscribers of a room are those who belong to it. */
  lemma MembersTold(t: Tables, limits: Limits, room: RoomId, user: UserId)
    requires RelayOk(t, limits) && Told(t)
    ensures Subscribed(t, room, user) <==> Belongs(t.journal, room, user)
  {
    if Subscribed(t, room, user) {
      if Welcomed(t, room, user) {
        WelcomedIsInvited(t, room, user);
      } else {
        assert WasMade(t.journal, room);
        var i :| 0 <= i < |t.journal| && Creates(t.journal[i], room);
        assert RoomTold(t, t.journal[i]);
      }
    }
    if Belongs(t.journal, room, user) {
      var i :| 0 <= i < |t.journal| && ((t.journal[i].user == user && Creates(t.journal[i], room))
                                        || Invites(t.journal[i], room, user));
      if Invites(t.journal[i], room, user) {
        InvitedIsWelcomed(t, room, user, i);
      } else {
        assert RoomTold(t, t.journal[i]);
      }
    }
  }
}
