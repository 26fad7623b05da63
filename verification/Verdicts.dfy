/**
  What the relay answers to every kind of request, after every run of requests off the wire, told
  from its journal of earlier results alone.
 */
module Verdicts {
  import opened Records
  import opened Sizes
  import opened RoomNames
  import opened SortedSets
  import opened RelaySpec
  import opened RelayInvariants
  import opened LogFacts
  import opened JournalFacts
  import opened Pages

  /** The state after requests off the wire, whoever made them. */
  ghost predicate Reachable(t: Tables, limits: Limits) {
    exists calls :: OffWire(calls) && Run(EMPTY, limits, calls) == t
  }

  ghost predicate OffWire(calls: seq<Call>) { forall i :: 0 <= i < |calls| ==> Words(calls[i].request) }

  ghost predicate Known(t: Tables, limits: Limits) { RelayOk(t, limits) && Told(t) && RecordsOk(t) }

  lemma RunKnown(limits: Limits, calls: seq<Call>)
    requires OffWire(calls)
    ensures Known(Run(EMPTY, limits, calls), limits)
  {
    RelayStart(limits);
    EmptyTold();
    RunTold(EMPTY, limits, calls);
    RecordsInvariant(EMPTY, limits, calls);
  }

  lemma ReachableFacts(t: Tables, limits: Limits)
    requires Reachable(t, limits)
    ensures Known(t, limits)
  {
    var calls :| OffWire(calls) && Run(EMPTY, limits, calls) == t;
    RunKnown(limits, calls);
  }

  /** The identifier is new, and the relay has room for the request. */
  ghost predicate IsNew(t: Tables, limits: Limits, call: Call) {
    && Lookup(t.journal, call.user, call.id).None?
    && RequestSize(call.request) <= MAX_PAYLOAD
    && (IsDurable(call.request) && !call.request.Acknowledge? ==>
          Admit(t, limits, call.user, call.request, call.env))
  }

  lemma NewReply(t: Tables, limits: Limits, call: Call)
    requires IsNew(t, limits, call) && !call.request.Acknowledge?
    ensures var executed := Execute(t, call.user, call.id, call.request, call.env);
            if executed.StorageError? then Reply(t, limits, call) == Rejected(Internal)
            else ResponseSize(executed.response) <= MAX_PAYLOAD ==> Reply(t, limits, call) == executed.response
  {}

  lemma SmallAnswers(room: RoomId, n: nat, reason: Rejection)
    requires n <= I64_MAX
    ensures ResponseSize(HeadConflict(room, n)) <= MAX_PAYLOAD && ResponseSize(KeyPackagesPublished(n)) <= MAX_PAYLOAD
    ensures ResponseSize(Rejected(reason)) <= MAX_PAYLOAD && ResponseSize(RoomCreated(room)) <= MAX_PAYLOAD
  {
    VarintSizeOfWord(n);
  }

  lemma Members(t: Tables, limits: Limits, room: RoomId, user: UserId)
    requires Reachable(t, limits)
    ensures Subscribed(t, room, user) <==> Belongs(t.journal, room, user)
  {
    ReachableFacts(t, limits);
    MembersTold(t, limits, room, user);
  }

  // ----- appends -----

  /** The bounds of an append, in bytes. */
  predicate Bounded(operation: Append) {
    var body, welcome := |operation.body.bytes|,
                         if operation.welcome.Some? then |operation.welcome.value.body.bytes| else 0;
    && operation.parent < 0x7fff_ffff_ffff_ffff
    && 1 <= body <= 512 * 1024 && (operation.welcome.Some? ==> 1 <= welcome <= 512 * 1024)
    && body + welcome + 256 <= 768 * 1024
  }

  ghost predicate Logged(journal: seq<JournalRow>, id: MessageId) {
    exists i :: 0 <= i < |journal| && journal[i].response.AppendAccepted? && journal[i].response.event.id == id
  }

  lemma LoggedIsEvent(t: Tables, id: MessageId)
    requires AcceptedOk(t)
    ensures HasEvent(t.events, id) <==> Logged(t.journal, id)
  {
    if HasEvent(t.events, id) {
      var k :| 0 <= k < |t.events| && t.events[k].event.id == id;
      assert EventsOf(t.events)[k].id == id;
      var i := AcceptedFinds(t.journal, k);
    }
    if Logged(t.journal, id) {
      var i :| 0 <= i < |t.journal| && t.journal[i].response.AppendAccepted? && t.journal[i].response.event.id == id;
      var k := AcceptedHas(t.journal, i);
      assert EventsOf(t.events)[k] == t.events[k].event;
    }
  }

  lemma EventsLogged(t: Tables, limits: Limits, id: MessageId)
    requires Reachable(t, limits)
    ensures HasEvent(t.events, id) <==> Logged(t.journal, id)
  {
    ReachableFacts(t, limits);
    LoggedIsEvent(t, id);
  }

  lemma HeadTold(t: Tables, limits: Limits, room: RoomId)
    requires Reachable(t, limits)
    ensures Head(t.events, room) == |LogIn(t.journal, room)| <= I64_MAX
    ensures !HasSequence(t.events, room, |LogIn(t.journal, room)| + 1)
  {
    ReachableFacts(t, limits);
    LogTold(t, room);
    LogSequences(t, room);
    LogNumbered(t, room);
    NoneBeyond(t, room);
  }

  lemma LogNumbered(t: Tables, room: RoomId)
    requires LogOk(t) && RecordsOk(t)
    ensures |Log(t, room)| <= I64_MAX
  {
    var log := Log(t, room);
    if log != [] {
      var i := RowsOfFinds(t.events, room, |log| - 1);
      LogSequences(t, room);
      assert Accepted(t.events[i].event) && log[|log| - 1] == t.events[i].event;
    }
  }

  lemma NoneBeyond(t: Tables, room: RoomId)
    requires LogOk(t)
    ensures !HasSequence(t.events, room, |Log(t, room)| + 1)
  {
    if HasSequence(t.events, room, |Log(t, room)| + 1) {
      var i :| 0 <= i < |t.events| && t.events[i].room == room && t.events[i].sequence == |Log(t, room)| + 1;
      assert RowOk(t, i);
      RowsOfPrefix(t.events, i + 1, room);
      assert t.events[..i + 1] == t.events[..i] + [t.events[i]];
      RowsOfAppend(t.events[..i], t.events[i], room);
    }
  }

  /** Compare and append: an append is refused to outsiders and out of bounds, told the head when
      its parent is not the head, and otherwise accepted unless its identifier is taken. */
  lemma AppendVerdict(t: Tables, limits: Limits, call: Call, operation: Append)
    requires Reachable(t, limits) && IsNew(t, limits, call)
    requires call.request == AppendRoomOperation(operation) && operation.epoch <= U64_MAX
    ensures var log := LogIn(t.journal, operation.room);
            Reply(t, limits, call)
            == if !Belongs(t.journal, operation.room, call.user) then Rejected(Unauthorized)
               else if !Bounded(operation) then Rejected(Invalid)
               else if operation.parent != |log| then HeadConflict(operation.room, |log|)
               else if Logged(t.journal, call.id) then Rejected(RequestConflict)
               else AppendAccepted(Event(call.id, call.user, operation))
  {
    var room := operation.room;
    Members(t, limits, room, call.user);
    HeadTold(t, limits, room);
    EventsLogged(t, limits, call.id);
    NewReply(t, limits, call);
    SmallAnswers(room, |LogIn(t.journal, room)|, Unauthorized);
    AppendAnswered(t, limits, call.user, call.id, operation);
  }

  lemma AppendAnswered(t: Tables, limits: Limits, user: UserId, id: MessageId, operation: Append)
    requires Reachable(t, limits) && operation.epoch <= U64_MAX
    requires !HasSequence(t.events, operation.room, Head(t.events, operation.room) + 1)
    ensures AppendResult(t, user, id, operation, ExecuteAppend(t, user, id, operation))
  {
    ReachableFacts(t, limits);
    AppendExecutes(t, user, id, operation);
  }

  ghost predicate AppendResult(t: Tables, user: UserId, id: MessageId, operation: Append, executed: Outcome) {
    var head := Head(t.events, operation.room);
    executed.Done?
    && executed.response
       == (if !Subscribed(t, operation.room, user) then Rejected(Unauthorized)
           else if !Bounded(operation) then Rejected(Invalid)
           else if operation.parent != head then HeadConflict(operation.room, head)
           else if HasEvent(t.events, id) then Rejected(RequestConflict)
           else AppendAccepted(Event(id, user, operation)))
    && (executed.response.AppendAccepted? ==> ResponseSize(executed.response) <= MAX_PAYLOAD)
  }

  lemma AppendExecutes(t: Tables, user: UserId, id: MessageId, operation: Append)
    requires RecordsOk(t) && SubscribedRoomsExist(t) && operation.epoch <= U64_MAX
    requires !HasSequence(t.events, operation.room, Head(t.events, operation.room) + 1)
    ensures AppendResult(t, user, id, operation, ExecuteAppend(t, user, id, operation))
  {
    if Subscribed(t, operation.room, user) && Bounded(operation) {
      AppendFits(t, Event(id, user, operation), operation.parent + 1);
    }
  }

  /** Nothing that is within bounds is too large to store or to answer. */
  lemma AppendFits(t: Tables, event: Event, sequence: nat)
    requires RecordsOk(t) && SubscribedRoomsExist(t) && Subscribed(t, event.operation.room, event.sender)
    requires Bounded(event.operation) && event.operation.epoch <= U64_MAX && sequence == event.operation.parent + 1
    ensures event.operation.room in t.rooms && ResponseSize(AppendAccepted(event)) <= MAX_PAYLOAD
    ensures EventSize(event) <= MAX_PAYLOAD
    ensures event.operation.welcome.Some? ==> WelcomeSize(WelcomeRecord(t, event, sequence)) <= MAX_PAYLOAD
  {
    assert (event.operation.room, event.sender) in t.subscribers;
    EventBound(event);
    if event.operation.welcome.Some? { WelcomeBound(t.rooms[event.operation.room].name, event, sequence); }
  }

  // ----- reads of a log -----

  /** A log is shown to those who belong to the room and to nobody else. What they get is the
      next page of it. */
  lemma FetchVerdict(t: Tables, limits: Limits, call: Call, room: RoomId, after: nat)
    requires Reachable(t, limits) && Lookup(t.journal, call.user, call.id).None?
    requires call.request == FetchRoomEvents(room, after) && after <= I64_MAX
    ensures var reply, log := Reply(t, limits, call), LogIn(t.journal, room);
            if !Belongs(t.journal, room, call.user) then reply == Rejected(Unauthorized)
            else
              && reply.RoomEvents? && reply.room == room && reply.afterSequence == after
              && (after <= |log| ==> reply.events <= log[after..] && (after < |log| ==> reply.events != []))
              && (reply.more <==> after + |reply.events| < |log|)
  {
    Members(t, limits, room, call.user);
    ReadReply(t, limits, call, room, after);
    if Subscribed(t, room, call.user) { PageIs(t, limits, call.user, room, after); }
  }

  lemma ReadReply(t: Tables, limits: Limits, call: Call, room: RoomId, after: nat)
    requires Lookup(t.journal, call.user, call.id).None?
    requires call.request == FetchRoomEvents(room, after) && after <= I64_MAX
    ensures Reply(t, limits, call) == ExecuteFetch(t, call.user, room, after).response
  {
    VarintSizeOfWord(after);
  }

  lemma PageIs(t: Tables, limits: Limits, user: UserId, room: RoomId, after: nat)
    requires Reachable(t, limits) && Subscribed(t, room, user) && after <= I64_MAX
    ensures var reply, log := ExecuteFetch(t, user, room, after).response, LogIn(t.journal, room);
            && reply.RoomEvents? && reply.room == room && reply.afterSequence == after
            && (after <= |log| ==> reply.events <= log[after..] && (after < |log| ==> reply.events != []))
            && (reply.more <==> after + |reply.events| < |log|)
  {
    ReachableFacts(t, limits);
    LogTold(t, room);
    if after <= |Log(t, room)| {
      StartsFit(t, room, after);
      FetchGood(t, user, room, after);
    } else {
      LogSequences(t, room);
      NothingAfter(RowsOf(t.events, room), after);
    }
  }

  lemma {:induction false} NothingAfter(rows: seq<EventRow>, after: nat)
    requires forall i :: 0 <= i < |rows| ==> rows[i].sequence <= after
    ensures RowsAfter(rows, after) == []
  {
    if rows != [] { NothingAfter(rows[1..], after); }
  }

  // ----- grants and reservations -----

  /** Who may reserve is what the owner last said, and saying it always works. */
  lemma GrantVerdict(
    t: Tables, limits: Limits, call: Call, requester: UserId, allowed: bool, owner: UserId, other: UserId)
    requires Reachable(t, limits) && IsNew(t, limits, call) && call.request == SetFetchGrant(requester, allowed)
    ensures Reply(t, limits, call) == FetchGrantSet
    ensures (owner, other) in t.grants <==> Granted(t.journal, owner, other)
    ensures (owner, other) in After(t, limits, call).grants
            <==> if owner == call.user && other == requester then allowed else Granted(t.journal, owner, other)
  {
    GrantTold(t, limits, owner, other);
    NewReply(t, limits, call);
  }

  /** The reservations of a recipient's packages after a time, by one requester or by anybody. */
  function Recent(rows: seq<Allocation>, recipient: UserId, requester: Option<UserId>, after: int): set<nat> {
    set i | 0 <= i < |rows| && rows[i].recipient == recipient && rows[i].at > after
            && (requester.Some? ==> rows[i].requester == requester.value)
  }

  lemma {:induction false} RecentCounts(rows: seq<Allocation>, recipient: UserId, requester: Option<UserId>, after: int)
    ensures AllocationsAfter(rows, recipient, requester, after) == |Recent(rows, recipient, requester, after)|
  {
    if rows == [] {
      assert Recent(rows, recipient, requester, after) == {};
    } else {
      var init, last := rows[..|rows| - 1], rows[|rows| - 1];
      RecentCounts(init, recipient, requester, after);
      var hit := last.recipient == recipient && last.at > after
                 && (requester.Some? ==> last.requester == requester.value);
      assert Recent(rows, recipient, requester, after)
             == Recent(init, recipient, requester, after) + (if hit then {|rows| - 1} else {});
    }
  }

  /** A reservation needs the owner's standing grant and room in both hourly limits; then it gets
      the oldest package that was published and not handed out. */
  lemma ReserveVerdict(t: Tables, limits: Limits, call: Call, recipient: UserId)
    requires Reachable(t, limits) && IsNew(t, limits, call) && call.request == ReserveKeyPackage(recipient)
    ensures var handed, hourAgo := |HandedOut(t.journal, recipient)|, call.env.checkedAt - 3600;
            handed <= |Published(t.journal, recipient)| && Pairs(t.allocations) == Reservations(t.journal)
            && Reply(t, limits, call)
               == if !Granted(t.journal, recipient, call.user) then Rejected(Unauthorized)
                  else if |Recent(t.allocations, recipient, None, hourAgo)| >= 16
                       || |Recent(t.allocations, recipient, Some(call.user), hourAgo)| >= 4 then Rejected(Overloaded)
                  else if handed == |Published(t.journal, recipient)| then Rejected(NotFound)
                  else KeyPackage(recipient, Published(t.journal, recipient)[handed])
  {
    GrantTold(t, limits, recipient, call.user);
    NewReply(t, limits, call);
    RecentCounts(t.allocations, recipient, None, call.env.checkedAt - 3600);
    RecentCounts(t.allocations, recipient, Some(call.user), call.env.checkedAt - 3600);
    SmallAnswers(0, 0, NotFound);
    PoolTold(t, limits, recipient);
  }

  lemma PoolTold(t: Tables, limits: Limits, user: UserId)
    requires Reachable(t, limits)
    ensures Published(t.journal, user) == HandedOut(t.journal, user) + Pool(t.packages, user)
    ensures |Pool(t.packages, user)| <= 64
    ensures Pool(t.packages, user) != [] ==> ResponseSize(KeyPackage(user, Pool(t.packages, user)[0])) <= MAX_PAYLOAD
  {
    ReachableFacts(t, limits);
    assert Conserved(t, user);
    if Pool(t.packages, user) != [] { PoolBounded(t.packages, user); }
  }

  lemma GrantTold(t: Tables, limits: Limits, owner: UserId, requester: UserId)
    requires Reachable(t, limits)
    ensures (owner, requester) in t.grants <==> Granted(t.journal, owner, requester)
    ensures Pairs(t.allocations) == Reservations(t.journal)
  {
    ReachableFacts(t, limits);
  }

  lemma {:induction false} PoolBounded(packages: seq<PackageRow>, user: UserId)
    requires forall i :: 0 <= i < |packages| ==> PackageBounded(packages[i].package)
    requires Pool(packages, user) != []
    ensures ResponseSize(KeyPackage(user, Pool(packages, user)[0])) <= MAX_PAYLOAD
  {
    if packages[0].user == user {
      VarintSizeOfWord(|packages[0].package.bytes|);
    } else {
      PoolBounded(packages[1..], user);
    }
  }

  // ----- rooms and packages -----

  /** A user has at most 64 rooms, and a room has its normalized name. */
  lemma CreateVerdict(t: Tables, limits: Limits, call: Call, name: string)
    requires Reachable(t, limits) && IsNew(t, limits, call) && call.request == CreateRoom(name)
    ensures Reply(t, limits, call)
            == if NormalizeRoomName(name).None? then Rejected(Invalid)
               else if RoomsMade(t.journal, call.user) >= 64 then Rejected(Quota)
               else if WasMade(t.journal, call.env.room) then Rejected(Internal)
               else RoomCreated(call.env.room)
    ensures RoomsMade(t.journal, call.user) <= 64
  {
    NewReply(t, limits, call);
    SmallAnswers(call.env.room, 0, Invalid);
    MadeTold(t, limits, call.user, call.env.room);
  }

  lemma MadeTold(t: Tables, limits: Limits, user: UserId, room: RoomId)
    requires Reachable(t, limits)
    ensures |RoomsCreatedBy(t.rooms, user)| == RoomsMade(t.journal, user) <= 64
    ensures room in t.rooms <==> WasMade(t.journal, room)
  {
    ReachableFacts(t, limits);
    assert RoomsCounted(t);
    if WasMade(t.journal, room) {
      var i :| 0 <= i < |t.journal| && Creates(t.journal[i], room);
      assert RoomTold(t, t.journal[i]);
    }
  }

  function Bytes(packages: seq<Blob>): nat {
    if packages == [] then 0 else Bytes(packages[..|packages| - 1]) + |packages[|packages| - 1].bytes|
  }

  lemma {:induction false} BytesFrom(first: Blob, packages: seq<Blob>)
    ensures Bytes([first] + packages) == |first.bytes| + Bytes(packages)
  {
    if packages == [] {
      assert [first] + packages == [first];
      assert [first][..0] == [];
    } else {
      var init := packages[..|packages| - 1];
      BytesFrom(first, init);
      assert ([first] + packages)[..|packages|] == [first] + init;
    }
  }

  lemma {:induction false} BytesTotal(packages: seq<Blob>)
    ensures TotalBytes(packages) == Bytes(packages)
  {
    if packages != [] {
      BytesTotal(packages[1..]);
      BytesFrom(packages[0], packages[1..]);
      assert packages == [packages[0]] + packages[1..];
    }
  }

  predicate Publishable(packages: seq<Blob>) {
    1 <= |packages| <= 64 && Bytes(packages) <= 768 * 1024
    && forall i :: 0 <= i < |packages| ==> PackageBounded(packages[i])
  }

  lemma PublishableIs(packages: seq<Blob>)
    ensures Publishable(packages) <==> !PublishInvalid(packages)
  {
    BytesTotal(packages);
  }

  /** At most 64 packages of a user wait, each of at most 16 KiB. */
  lemma PublishVerdict(t: Tables, limits: Limits, call: Call, packages: seq<Blob>)
    requires Reachable(t, limits) && IsNew(t, limits, call) && call.request == PublishKeyPackages(packages)
    ensures var waiting := |Published(t.journal, call.user)| - |HandedOut(t.journal, call.user)|;
            0 <= waiting <= 64
            && Reply(t, limits, call)
               == if !Publishable(packages) then Rejected(Invalid)
                  else if waiting + |packages| > 64 then Rejected(Quota)
                  else KeyPackagesPublished(|packages|)
  {
    NewReply(t, limits, call);
    PublishableIs(packages);
    PoolTold(t, limits, call.user);
    if |packages| <= 64 { SmallAnswers(0, |packages|, Invalid); }
  }

  // ----- the Welcome queue -----

  /** The accepted appends with a Welcome, in order: the queue of the Welcomes. */
  function Invitations(journal: seq<JournalRow>): seq<Event> {
    if journal == [] then []
    else
      var rest := Invitations(journal[..|journal| - 1]);
      var last := journal[|journal| - 1];
      if last.response.AppendAccepted? && last.response.event.operation.welcome.Some?
      then rest + [last.response.event] else rest
  }

  /** What the queue holds of an accepted append. */
  function Entry(rooms: map<RoomId, Room>, event: Event, cursor: nat): WelcomeRow
    requires event.operation.welcome.Some?
  {
    var attachment := event.operation.welcome.value;
    WelcomeRow(cursor, attachment.recipient,
               WelcomeDelivery(NameOf(rooms, event.operation.room), 0, event.id, event.operation.room,
                               event.operation.parent + 1, event.sender, attachment))
  }

  lemma {:induction false} QueueIs(journal: seq<JournalRow>, rooms: map<RoomId, Room>, events: seq<EventRow>)
    requires AcceptedEvents(journal) == EventsOf(events)
    requires forall i :: 0 <= i < |events| ==> events[i].room == events[i].event.operation.room
                                               && events[i].sequence == events[i].event.operation.parent + 1
    ensures var queue, told := WelcomeRowsOf(rooms, events), Invitations(journal);
            && |queue| == |told|
            && forall c :: 0 <= c < |queue| ==>
                 told[c].operation.welcome.Some? && queue[c] == Entry(rooms, told[c], c + 1)
    decreases |journal|
  {
    if journal != [] {
      var init, last := journal[..|journal| - 1], journal[|journal| - 1];
      if last.response.AppendAccepted? {
        var before, row := events[..|events| - 1], events[|events| - 1];
        assert EventsOf(events) == EventsOf(before) + [row.event];
        assert AcceptedEvents(init) == EventsOf(events)[..|events| - 1] == EventsOf(before);
        QueueIs(init, rooms, before);
        assert events == before + [row];
        WelcomeRowsAppend(rooms, before, row);
      } else {
        QueueIs(init, rooms, events);
      }
    }
  }

  lemma QueueTold(t: Tables, limits: Limits)
    requires Reachable(t, limits)
    ensures |t.welcomes| == |Invitations(t.journal)|
    ensures forall c :: 0 <= c < |t.welcomes| ==>
              && Invitations(t.journal)[c].operation.welcome.Some?
              && t.welcomes[c] == Entry(t.rooms, Invitations(t.journal)[c], c + 1)
  {
    ReachableFacts(t, limits);
    forall i | 0 <= i < |t.events|
      ensures t.events[i].room == t.events[i].event.operation.room
              && t.events[i].sequence == t.events[i].event.operation.parent + 1
    {
      assert RowOk(t, i);
    }
    QueueIs(t.journal, t.rooms, t.events);
  }

  /** The Welcome of that number is for the user. */
  ghost predicate Invited(journal: seq<JournalRow>, user: UserId, c: nat) {
    1 <= c <= |Invitations(journal)| && Invitations(journal)[c - 1].operation.welcome.Some?
    && Invitations(journal)[c - 1].operation.welcome.value.recipient == user
  }

  /** The record is the user's Welcome of its number, as its commit published it. */
  ghost predicate Delivers(journal: seq<JournalRow>, user: UserId, record: WelcomeDelivery) {
    && Invited(journal, user, record.cursor)
    && var event := Invitations(journal)[record.cursor - 1];
       && record.event == event.id && record.inviter == event.sender && record.room == event.operation.room
       && record.sequence == event.operation.parent + 1 && record.attachment == event.operation.welcome.value
       && NamedAs(journal, record.room, record.roomName)
  }

  ghost predicate InPage(page: seq<WelcomeDelivery>, c: nat) { exists i :: 0 <= i < |page| && page[i].cursor == c }

  /** The next Welcomes of the user in order; one that is left out comes after them, and `more`
      says whether one is. */
  ghost predicate GoodQueue(journal: seq<JournalRow>, user: UserId, after: nat, reply: Response) {
    && reply.Welcomes? && reply.afterCursor == after
    && (forall i :: 0 <= i < |reply.welcomes| ==>
          Delivers(journal, user, reply.welcomes[i]) && after < reply.welcomes[i].cursor)
    && (forall i, j :: 0 <= i < j < |reply.welcomes| ==> reply.welcomes[i].cursor < reply.welcomes[j].cursor)
    && (forall c :: Invited(journal, user, c) && after < c && !InPage(reply.welcomes, c) ==>
          reply.more && reply.welcomes != [] && reply.welcomes[|reply.welcomes| - 1].cursor < c)
    && (reply.more ==> exists c :: Invited(journal, user, c) && after < c && !InPage(reply.welcomes, c))
  }

  /** A user is shown the own Welcomes and nobody else's. */
  lemma WelcomesVerdict(t: Tables, limits: Limits, call: Call, after: nat)
    requires Reachable(t, limits) && Lookup(t.journal, call.user, call.id).None?
    requires call.request == FetchWelcomes(after) && after <= I64_MAX
    ensures GoodQueue(t.journal, call.user, after, Reply(t, limits, call))
  {
    QueueReply(t, limits, call, after);
    var reply := QueueSlice(t, limits, call.user, after);
    SliceIsGood(t, limits, call.user, after, WelcomesAfter(t.welcomes, call.user, after), reply);
  }

  ghost predicate IsSlice(rows: seq<WelcomeRow>, after: nat, reply: Response) {
    && reply.Welcomes? && reply.afterCursor == after && |reply.welcomes| <= |rows|
    && (reply.more <==> |reply.welcomes| < |rows|) && (rows != [] ==> reply.welcomes != [])
    && forall i :: 0 <= i < |reply.welcomes| ==> reply.welcomes[i] == rows[i].record.(cursor := rows[i].cursor)
  }

  lemma SliceIsGood(t: Tables, limits: Limits, user: UserId, after: nat, rows: seq<WelcomeRow>, reply: Response)
    requires Reachable(t, limits) && rows == WelcomesAfter(t.welcomes, user, after) && IsSlice(rows, after, reply)
    ensures GoodQueue(t.journal, user, after, reply)
  {
    SliceDelivers(t, limits, user, after, rows, reply.welcomes);
    SliceLeaves(t, limits, user, after, rows, reply.welcomes);
  }

  lemma SliceDelivers(t: Tables, limits: Limits, user: UserId, after: nat, rows: seq<WelcomeRow>,
                      page: seq<WelcomeDelivery>)
    requires Reachable(t, limits) && rows == WelcomesAfter(t.welcomes, user, after) && |page| <= |rows|
    requires forall i :: 0 <= i < |page| ==> page[i] == rows[i].record.(cursor := rows[i].cursor)
    ensures forall i :: 0 <= i < |page| ==> Delivers(t.journal, user, page[i]) && after < page[i].cursor
    ensures forall i, j :: 0 <= i < j < |page| ==> page[i].cursor < page[j].cursor
  {
    RowsExact(t, limits, user, after, rows);
    forall i | 0 <= i < |page| ensures Delivers(t.journal, user, page[i]) && after < page[i].cursor {
      RowDelivers(t, limits, user, rows[i]);
    }
  }

  /** Of the rows there are, a first part leaves exactly the later ones. */
  lemma SliceLeaves(t: Tables, limits: Limits, user: UserId, after: nat, rows: seq<WelcomeRow>,
                    page: seq<WelcomeDelivery>)
    requires Reachable(t, limits) && rows == WelcomesAfter(t.welcomes, user, after) && |page| <= |rows|
    requires forall i :: 0 <= i < |page| ==> page[i].cursor == rows[i].cursor
    requires rows != [] ==> page != []
    ensures forall c :: Invited(t.journal, user, c) && after < c ==>
              InPage(page, c) || (|page| < |rows| && page != [] && page[|page| - 1].cursor < c)
    ensures |page| < |rows| ==> exists c :: Invited(t.journal, user, c) && after < c && !InPage(page, c)
  {
    RowsExact(t, limits, user, after, rows);
    forall c | Invited(t.journal, user, c) && after < c
      ensures InPage(page, c) || (|page| < |rows| && page != [] && page[|page| - 1].cursor < c)
    {
      var i := FindRow(t, limits, user, after, rows, c);
      if i < |page| { assert page[i].cursor == c; }
    }
    if |page| < |rows| {
      RowInvited(t, limits, user, rows[|page|]);
      assert !InPage(page, rows[|page|].cursor);
    }
  }

  lemma QueueReply(t: Tables, limits: Limits, call: Call, after: nat)
    requires Lookup(t.journal, call.user, call.id).None?
    requires call.request == FetchWelcomes(after) && after <= I64_MAX
    ensures Reply(t, limits, call) == ExecuteWelcomes(t, call.user, after).response
  {
    VarintSizeOfWord(after);
  }

  lemma QueueSlice(t: Tables, limits: Limits, user: UserId, after: nat) returns (reply: Response)
    requires Reachable(t, limits) && after <= I64_MAX
    ensures reply == ExecuteWelcomes(t, user, after).response
    ensures IsSlice(WelcomesAfter(t.welcomes, user, after), after, reply)
  {
    ReachableFacts(t, limits);
    FetchedWelcomes(t, user, after);
    reply := ExecuteWelcomes(t, user, after).response;
  }

  lemma RowsExact(t: Tables, limits: Limits, user: UserId, after: nat, rows: seq<WelcomeRow>)
    requires Reachable(t, limits) && rows == WelcomesAfter(t.welcomes, user, after)
    ensures Ascending(rows)
    ensures forall i :: 0 <= i < |rows| ==> rows[i] in t.welcomes && rows[i].recipient == user && rows[i].cursor > after
  {
    ReachableFacts(t, limits);
    QueueOk(t);
    WelcomesAfterExact(t.welcomes, user, after);
  }

  lemma RowInvited(t: Tables, limits: Limits, user: UserId, row: WelcomeRow)
    requires Reachable(t, limits) && row in t.welcomes && row.recipient == user
    ensures Invited(t.journal, user, row.cursor)
    ensures row == Entry(t.rooms, Invitations(t.journal)[row.cursor - 1], row.cursor)
  {
    QueueTold(t, limits);
    var c :| 0 <= c < |t.welcomes| && t.welcomes[c] == row;
  }

  lemma RowDelivers(t: Tables, limits: Limits, user: UserId, row: WelcomeRow)
    requires Reachable(t, limits) && row in t.welcomes && row.recipient == user
    ensures Delivers(t.journal, user, row.record.(cursor := row.cursor))
  {
    RowInvited(t, limits, user, row);
    InvitedRoom(t, limits, row);
    NameTold(t, limits, row.record.room);
  }

  lemma InvitedRoom(t: Tables, limits: Limits, row: WelcomeRow)
    requires Reachable(t, limits) && row in t.welcomes
    ensures row.record.room in t.rooms
  {
    ReachableFacts(t, limits);
    var c :| 0 <= c < |t.welcomes| && t.welcomes[c] == row;
    assert Welcomed(t, row.record.room, row.recipient);
    assert (row.record.room, row.recipient) in t.subscribers;
  }

  lemma FindRow(t: Tables, limits: Limits, user: UserId, after: nat, rows: seq<WelcomeRow>, c: nat) returns (i: nat)
    requires Reachable(t, limits) && rows == WelcomesAfter(t.welcomes, user, after)
    requires Invited(t.journal, user, c) && after < c
    ensures i < |rows| && rows[i].cursor == c
  {
    QueueTold(t, limits);
    assert t.welcomes[c - 1].cursor == c && t.welcomes[c - 1].recipient == user;
    ReachableFacts(t, limits);
    QueueOk(t);
    WelcomesAfterExact(t.welcomes, user, after);
    assert t.welcomes[c - 1] in rows;
    i :| 0 <= i < |rows| && rows[i] == t.welcomes[c - 1];
  }

  // ----- receipts -----

  /** The record the receipt names exists and was meant for the user. */
  ghost predicate Receivable(journal: seq<JournalRow>, user: UserId, request: Request)
    requires request.Acknowledge?
  {
    && (forall i :: 0 <= i < |request.events| ==> Shown(journal, user, request.events[i]))
    && (forall i :: 0 <= i < |request.welcomes| ==> Invited(journal, user, request.welcomes[i]))
  }

  /** The event is in the log of a room the user belongs to. */
  ghost predicate Shown(journal: seq<JournalRow>, user: UserId, id: MessageId) {
    exists i :: 0 <= i < |journal| && journal[i].response.AppendAccepted? && journal[i].response.event.id == id
                && Belongs(journal, journal[i].response.event.operation.room, user)
  }

  lemma EventShown(t: Tables, limits: Limits, user: UserId, id: MessageId)
    requires Reachable(t, limits)
    ensures MayAcknowledgeEvent(t, user, id) <==> Shown(t.journal, user, id)
  {
    if MayAcknowledgeEvent(t, user, id) {
      var k :| 0 <= k < |t.events| && t.events[k].event.id == id && Subscribed(t, t.events[k].room, user);
      var i := RowAccepted(t, limits, k);
      Members(t, limits, t.events[k].room, user);
    }
    if Shown(t.journal, user, id) {
      var i :| 0 <= i < |t.journal| && t.journal[i].response.AppendAccepted? && t.journal[i].response.event.id == id
               && Belongs(t.journal, t.journal[i].response.event.operation.room, user);
      var k := AcceptedRowed(t, limits, i);
      Members(t, limits, t.events[k].room, user);
    }
  }

  lemma RowAccepted(t: Tables, limits: Limits, k: nat) returns (i: nat)
    requires Reachable(t, limits) && k < |t.events|
    ensures i < |t.journal| && t.journal[i].response == AppendAccepted(t.events[k].event)
    ensures t.events[k].room == t.events[k].event.operation.room
  {
    ReachableFacts(t, limits);
    assert RowOk(t, k);
    assert EventsOf(t.events)[k] == t.events[k].event;
    i := AcceptedFinds(t.journal, k);
  }

  lemma AcceptedRowed(t: Tables, limits: Limits, i: nat) returns (k: nat)
    requires Reachable(t, limits) && i < |t.journal| && t.journal[i].response.AppendAccepted?
    ensures k < |t.events| && t.events[k].event == t.journal[i].response.event
    ensures t.events[k].room == t.events[k].event.operation.room
  {
    ReachableFacts(t, limits);
    k := AcceptedHas(t.journal, i);
    assert EventsOf(t.events)[k] == t.events[k].event;
    assert RowOk(t, k);
  }

  lemma WelcomeShown(t: Tables, limits: Limits, user: UserId, c: nat)
    requires Reachable(t, limits)
    ensures MayAcknowledgeWelcome(t, user, c) <==> Invited(t.journal, user, c)
  {
    QueueTold(t, limits);
    if 1 <= c <= |t.welcomes| { assert t.welcomes[c - 1].cursor == c; }
  }

  /** A receipt is taken for one record, under its canonical identifier, from somebody the record
      was shown to. */
  lemma ReceiptVerdict(t: Tables, limits: Limits, call: Call)
    requires Reachable(t, limits) && IsNew(t, limits, call) && call.request.Acknowledge?
    ensures Reply(t, limits, call)
            == if |call.request.events| + |call.request.welcomes| != 1
                  || call.id != Receipt(call.user, call.request.events, call.request.welcomes)
               then Rejected(Invalid)
               else if Receivable(t.journal, call.user, call.request) then Acknowledged
               else Rejected(Unauthorized)
  {
    forall i | 0 <= i < |call.request.events|
      ensures MayAcknowledgeEvent(t, call.user, call.request.events[i])
              <==> Shown(t.journal, call.user, call.request.events[i])
    {
      EventShown(t, limits, call.user, call.request.events[i]);
    }
    forall i | 0 <= i < |call.request.welcomes|
      ensures MayAcknowledgeWelcome(t, call.user, call.request.welcomes[i])
              <==> Invited(t.journal, call.user, call.request.welcomes[i])
    {
      WelcomeShown(t, limits, call.user, call.request.welcomes[i]);
    }
    SmallAnswers(0, 0, Unauthorized);
    ReceiptReply(t, limits, call);
  }

  lemma ReceiptReply(t: Tables, limits: Limits, call: Call)
    requires IsNew(t, limits, call) && call.request.Acknowledge?
    ensures var events, welcomes := call.request.events, call.request.welcomes;
            Reply(t, limits, call)
            == if |events| + |welcomes| != 1 || call.id != Receipt(call.user, events, welcomes) then Rejected(Invalid)
               else if (forall i :: 0 <= i < |events| ==> MayAcknowledgeEvent(t, call.user, events[i]))
                    && (forall i :: 0 <= i < |welcomes| ==> MayAcknowledgeWelcome(t, call.user, welcomes[i]))
               then Acknowledged
               else Rejected(Unauthorized)
  {}

  // ----- the room index -----

  ghost predicate NamedAs(journal: seq<JournalRow>, room: RoomId, name: string) {
    exists i :: 0 <= i < |journal| && Creates(journal[i], room)
                && NormalizeRoomName(journal[i].request.name) == Some(name)
  }

  /** A line of the index: a room of the user with its name and the length of its log. */
  ghost predicate Line(journal: seq<JournalRow>, user: UserId, head: RoomHead) {
    && Belongs(journal, head.room, user) && NamedAs(journal, head.room, head.name)
    && head.sequence == |LogIn(journal, head.room)|
  }

  ghost predicate Listing(journal: seq<JournalRow>, user: UserId, after: Option<RoomId>, heads: seq<RoomHead>) {
    && (forall i :: 0 <= i < |heads| ==>
          Line(journal, user, heads[i]) && (after.Some? ==> after.value < heads[i].room))
    && (forall i, j :: 0 <= i < j < |heads| ==> heads[i].room < heads[j].room)
  }

  ghost predicate IsListed(heads: seq<RoomHead>, room: RoomId) {
    exists i :: 0 <= i < |heads| && heads[i].room == room
  }

  lemma LineTold(t: Tables, limits: Limits, user: UserId, room: RoomId)
    requires Reachable(t, limits) && room in t.rooms && Subscribed(t, room, user)
    ensures Line(t.journal, user, RoomHead(room, NameOf(t.rooms, room), Head(t.events, room)))
  {
    Members(t, limits, room, user);
    HeadTold(t, limits, room);
    NameTold(t, limits, room);
  }

  lemma NameTold(t: Tables, limits: Limits, room: RoomId)
    requires Reachable(t, limits) && room in t.rooms
    ensures NamedAs(t.journal, room, NameOf(t.rooms, room))
  {
    ReachableFacts(t, limits);
    assert WasMade(t.journal, room);
    var i :| 0 <= i < |t.journal| && Creates(t.journal[i], room);
    assert RoomTold(t, t.journal[i]);
  }

  lemma HeadsTold(t: Tables, limits: Limits, user: UserId, after: Option<RoomId>, ids: seq<RoomId>)
    requires Reachable(t, limits) && Ascends(ids)
    requires forall i :: 0 <= i < |ids| ==> ids[i] in IndexedRooms(t, user, after)
    ensures Listing(t.journal, user, after, IndexHeads(t, ids))
  {
    forall i | 0 <= i < |ids| ensures Line(t.journal, user, IndexHeads(t, ids)[i]) {
      LineTold(t, limits, user, ids[i]);
    }
  }

  lemma RoomListed(t: Tables, limits: Limits, user: UserId, after: Option<RoomId>, room: RoomId)
    requires Reachable(t, limits) && Belongs(t.journal, room, user) && (after.Some? ==> after.value < room)
    ensures room in IndexedRooms(t, user, after)
  {
    ReachableFacts(t, limits);
    MembersTold(t, limits, room, user);
    assert (room, user) in t.subscribers;
  }

  /** The index shows the user's rooms in order, each with its name and the length of its log. A
      room of the user that is not on the page comes after it, and `more` says whether one does. */
  lemma IndexVerdict(t: Tables, limits: Limits, call: Call, after: Option<RoomId>)
    requires Reachable(t, limits) && Lookup(t.journal, call.user, call.id).None? && call.request == SyncIndex(after)
    ensures GoodIndex(t.journal, call.user, after, Reply(t, limits, call))
  {
    IndexReply(t, limits, call, after);
    IndexAnswers(t, limits, call.user, after);
  }

  ghost predicate GoodIndex(journal: seq<JournalRow>, user: UserId, after: Option<RoomId>, reply: Response) {
    && reply.RoomIndex? && |reply.rooms| <= 100
    && Listing(journal, user, after, reply.rooms)
    && (forall room :: Further(journal, user, after, reply.rooms, room) ==>
          reply.more && reply.rooms != [] && reply.rooms[|reply.rooms| - 1].room < room)
    && (reply.more ==> |reply.rooms| == 100 && exists room :: Further(journal, user, after, reply.rooms, room))
  }

  lemma IndexAnswers(t: Tables, limits: Limits, user: UserId, after: Option<RoomId>)
    requires Reachable(t, limits)
    ensures GoodIndex(t.journal, user, after, ExecuteIndex(t, user, after).response)
  {
    var ids := Sorted(IndexedRooms(t, user, after));
    SortedLists(IndexedRooms(t, user, after));
    IndexPage(t, user, after, ids);
    HeadsTold(t, limits, user, after, First(ids, PAGE_SIZE));
    PageLeaves(t, limits, user, after, ids);
  }

  lemma IndexReply(t: Tables, limits: Limits, call: Call, after: Option<RoomId>)
    requires Lookup(t.journal, call.user, call.id).None? && call.request == SyncIndex(after)
    ensures Reply(t, limits, call) == ExecuteIndex(t, call.user, after).response
  {}

  /** A room of the user after the given one that the page does not show. */
  ghost predicate Further(journal: seq<JournalRow>, user: UserId, after: Option<RoomId>, heads: seq<RoomHead>,
                          room: RoomId)
  {
    Belongs(journal, room, user) && (after.Some? ==> after.value < room) && !IsListed(heads, room)
  }

  lemma PageLeaves(t: Tables, limits: Limits, user: UserId, after: Option<RoomId>, ids: seq<RoomId>)
    requires Reachable(t, limits) && Lists(ids, IndexedRooms(t, user, after))
    ensures var heads := IndexHeads(t, First(ids, PAGE_SIZE));
            && (forall room :: Further(t.journal, user, after, heads, room) ==>
                  |ids| > PAGE_SIZE && ids[PAGE_SIZE - 1] < room)
            && (|ids| > PAGE_SIZE ==> Further(t.journal, user, after, heads, ids[PAGE_SIZE]))
  {
    var heads := IndexHeads(t, First(ids, PAGE_SIZE));
    forall room | Further(t.journal, user, after, heads, room)
      ensures |ids| > PAGE_SIZE && ids[PAGE_SIZE - 1] < room
    {
      RoomListed(t, limits, user, after, room);
      OnPageOrAfter(t, ids, room);
    }
    if |ids| > PAGE_SIZE {
      assert ids[PAGE_SIZE] in IndexedRooms(t, user, after);
      Members(t, limits, ids[PAGE_SIZE], user);
    }
  }

  lemma OnPageOrAfter(t: Tables, ids: seq<RoomId>, room: RoomId)
    requires Ascends(ids) && room in ids
    ensures IsListed(IndexHeads(t, First(ids, PAGE_SIZE)), room) || (|ids| > PAGE_SIZE && ids[PAGE_SIZE - 1] < room)
  {
    var i :| 0 <= i < |ids| && ids[i] == room;
    if i < |First(ids, PAGE_SIZE)| { assert IndexHeads(t, First(ids, PAGE_SIZE))[i].room == room; }
  }

  /** The whole walk lists every room of the user, once and in order. */
  lemma IndexWalkVerdict(t: Tables, limits: Limits, user: UserId)
    requires Reachable(t, limits)
    ensures Listing(t.journal, user, None, IndexWalk(t, user, None))
    ensures forall room :: Belongs(t.journal, room, user) ==> IsListed(IndexWalk(t, user, None), room)
  {
    var ids := Sorted(IndexedRooms(t, user, None));
    SortedLists(IndexedRooms(t, user, None));
    IndexWalkComplete(t, user, None, ids);
    HeadsTold(t, limits, user, None, ids);
    forall room | Belongs(t.journal, room, user) ensures IsListed(IndexHeads(t, ids), room) {
      RoomListed(t, limits, user, None, room);
      var i :| 0 <= i < |ids| && ids[i] == room;
      assert IndexHeads(t, ids)[i].room == room;
    }
  }

  // ----- admission -----

  /** A limit of the largest 64-bit number is no limit. */
  predicate Within(total: nat, limit: nat) { total <= limit || limit >= 0xffff_ffff_ffff_ffff }

  /** The charge of a request of so many bytes. */
  function Cost(size: nat): nat { 3 * size + 16384 }

  /** A request is admitted if and only if, with its charge, the database stays within the global
      limit, with its write-ahead log within that and the reserve, the sender's and the room's
      journaled charges stay within theirs, and the disk keeps its reserve. */
  lemma AdmissionExactly(t: Tables, limits: Limits, user: UserId, request: Request, env: Environment)
    requires Reachable(t, limits)
    ensures var size := RequestSize(request);
            Admit(t, limits, user, request, env)
            <==> && size <= 768 * 1024
                 && Within(env.logical + Cost(size), limits.global)
                 && Within(env.logical + env.wal + Cost(size), limits.global + limits.reserve)
                 && Within(SenderCharges(t.journal, user) + Cost(size), limits.sender)
                 && (request.AppendRoomOperation? ==>
                       Within(RoomCharges(t.journal, request.operation.room) + Cost(size), limits.room))
                 && (limits.reserve + Cost(size) <= env.free || env.free >= 0xffff_ffff_ffff_ffff)
  {
    LedgersTold(t, limits, user, if request.AppendRoomOperation? then request.operation.room else 0);
    if RequestSize(request) <= 768 * 1024 { AdmitIs(t, limits, user, request, env); }
  }

  lemma LedgersTold(t: Tables, limits: Limits, user: UserId, room: RoomId)
    requires Reachable(t, limits)
    ensures Used(t.usageSender, user) == SenderCharges(t.journal, user)
    ensures Used(t.usageRoom, room) == RoomCharges(t.journal, room)
  {
    ReachableFacts(t, limits);
  }

  lemma AdmitIs(t: Tables, limits: Limits, user: UserId, request: Request, env: Environment)
    requires RequestSize(request) <= 768 * 1024
    ensures var size := RequestSize(request);
            Admit(t, limits, user, request, env)
            <==> && Within(env.logical + Cost(size), limits.global)
                 && Within(env.logical + env.wal + Cost(size), limits.global + limits.reserve)
                 && Within(Used(t.usageSender, user) + Cost(size), limits.sender)
                 && (request.AppendRoomOperation? ==>
                       Within(Used(t.usageRoom, request.operation.room) + Cost(size), limits.room))
                 && (limits.reserve + Cost(size) <= env.free || env.free >= 0xffff_ffff_ffff_ffff)
  {
    assert Charge(request) == Cost(RequestSize(request));
  }

  /** What is not admitted leaves no trace and may come again. */
  lemma QuotaVerdict(t: Tables, limits: Limits, call: Call)
    requires Lookup(t.journal, call.user, call.id).None? && RequestSize(call.request) <= MAX_PAYLOAD
    requires IsDurable(call.request) && !call.request.Acknowledge?
    requires !Admit(t, limits, call.user, call.request, call.env)
    ensures Reply(t, limits, call) == Rejected(Quota) && After(t, limits, call) == t
  {}

  /** A journaled request that is no receipt costs its sender three times its size and 16 KiB. */
  lemma ChargeTold(t: Tables, limits: Limits, call: Call, user: UserId)
    requires Reachable(t, limits)
    ensures var charged := After(t, limits, call).journal != t.journal && !call.request.Acknowledge?;
            SenderCharges(After(t, limits, call).journal, user)
            == SenderCharges(t.journal, user)
               + (if charged && user == call.user then Cost(RequestSize(call.request)) else 0)
  {
    ReachableFacts(t, limits);
    DeliverEffect(t, limits, call);
    if After(t, limits, call) != t {
      ChargesAppend(t.journal, JournalRow(call.user, call.id, call.request, Reply(t, limits, call)));
    }
  }
}
