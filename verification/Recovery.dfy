/**
  A member with an attempt in the outbox first has to learn what became of it. Its result is in
  the journal, or the relay can still take it on, or the member is held for good; and only in
  the last case the head of the room is out of reach.
 */
module Recovery {
  import opened Records
  import opened Sizes
  import opened RelaySpec
  import opened RelayInvariants
  import opened ClientSpec
  import opened ClientInvariants
  import opened ClientTheorems
  import opened Honest
  import opened LogFacts
  import opened World
  import opened Sync
  import opened SyncSteps
  import opened WorldInvariant
  import opened Agreement
  import opened Settlements
  import opened Holds
  import opened Progress

  ghost predicate Sound(w: World, limits: Limits) {
    Good(w, limits) && Orderly(w) && HistoryAgreement.VerdictsTrue(w.relay)
  }

  lemma RunSound(w: World, limits: Limits, moves: seq<Move>)
    requires Sound(w, limits)
    ensures Sound(RunWorld(w, limits, moves), limits)
  {
    RunOrderly(w, limits, moves);
    HistoryAgreement.RunVerdicts(w, limits, moves);
  }

  lemma StartSound(users: set<UserId>, limits: Limits)
    ensures Sound(Start(users), limits)
  {
    StartGood(users, limits);
    StartOrderly(users);
  }

  lemma ReachedSound(users: set<UserId>, limits: Limits, moves: seq<Move>)
    ensures Sound(Reached(users, limits, moves), limits)
  {
    StartSound(users, limits);
    RunSound(Start(users), limits, moves);
  }

  // ----- the relay settles what it can afford -----

  lemma {:induction false} HeadIsLast(events: seq<EventRow>, room: RoomId)
    ensures !HasSequence(events, room, Head(events, room) + 1)
    ensures forall i :: 0 <= i < |events| && events[i].room == room ==> events[i].sequence <= Head(events, room)
  {
    if events != [] {
      HeadIsLast(events[..|events| - 1], room);
    }
  }

  lemma AcceptedFits(t: Tables, event: Event, sequence: nat)
    requires Pages.Accepted(event) && event.operation.room in t.rooms && NamesOk(t.rooms) && sequence <= I64_MAX
    ensures EventSize(event) < MAX_PAYLOAD
    ensures event.operation.welcome.Some? ==> WelcomeSize(WelcomeRecord(t, event, sequence)) <= MAX_PAYLOAD
  {
    Pages.EventBound(event);
    if event.operation.welcome.Some? {
      VarintSizeOfWord(sequence);
      VarintSizeOfWord(Utf8Size(t.rooms[event.operation.room].name));
      Pages.BlobBound(|event.operation.welcome.value.body.bytes|);
    }
  }

  predicate Final(response: Response) { !IsTransient(response) && ResponseSize(response) <= MAX_PAYLOAD }

  /** An honest append always gets a result. */
  lemma AppendDone(
    t: Tables, limits: Limits, issued: map<MessageId, Message>, user: UserId, id: MessageId, operation: Append)
    requires RelayGood(t, limits, issued) && HistoryAgreement.VerdictsTrue(t) && NamesOk(t.rooms)
    requires HonestAppend(t, user, id, operation)
    requires Issued(issued, Message(user, id, AppendRoomOperation(operation))) && Lookup(t.journal, user, id).None?
    ensures var outcome := ExecuteAppend(t, user, id, operation); outcome.Done? && Final(outcome.response)
  {
    HistoryAgreement.MembersSubscribed(t, operation.room, operation.parent, user);
    LogSequences(t, operation.room);
    LogShort(t, limits, operation.room);
    VarintSizeOfWord(Head(t.events, operation.room));
    EpochBound(t, operation.room, operation.parent);
    if !AppendInvalid(operation) {
      AcceptedFits(t, Event(id, user, operation), operation.parent + 1);
      HeadIsLast(t.events, operation.room);
    }
  }

  /** A time at which every allocation is more than an hour old. */
  lemma {:induction false} LongAgo(rows: seq<Allocation>) returns (at: int)
    ensures forall i :: 0 <= i < |rows| ==> rows[i].at <= at - 3600
  {
    if rows == [] {
      at := 0;
    } else {
      at := LongAgo(rows[..|rows| - 1]);
      var last := rows[|rows| - 1].at + 3600;
      at := if last > at then last else at;
    }
  }

  lemma {:induction false} NoneSince(rows: seq<Allocation>, recipient: UserId, requester: Option<UserId>, after: int)
    requires forall i :: 0 <= i < |rows| ==> rows[i].at <= after
    ensures AllocationsAfter(rows, recipient, requester, after) == 0
  {
    if rows != [] {
      NoneSince(rows[..|rows| - 1], recipient, requester, after);
    }
  }

  lemma ReserveDone(t: Tables, user: UserId, recipient: UserId, env: Environment)
    requires PoolsTrue(t.packages)
    requires forall i :: 0 <= i < |t.allocations| ==> t.allocations[i].at <= env.checkedAt - 3600
    ensures var outcome := ExecuteReserve(t, user, recipient, env); outcome.Done? && Final(outcome.response)
  {
    NoneSince(t.allocations, recipient, None, env.checkedAt - 3600);
    NoneSince(t.allocations, recipient, Some(user), env.checkedAt - 3600);
    PoolTrue(t.packages, recipient);
    if Pool(t.packages, recipient) != [] {
      VarintSizeOfWord(|Pool(t.packages, recipient)[0].bytes|);
    }
  }

  /** Whatever is admitted and done is answered. */
  lemma DoneAnswered(t: Tables, limits: Limits, call: Call)
    requires IsAttempt(call.request) && Lookup(t.journal, call.user, call.id).None?
    requires Admit(t, limits, call.user, call.request, call.env)
    requires var outcome := Execute(t, call.user, call.id, call.request, call.env);
             outcome.Done? && Final(outcome.response)
    ensures !IsTransient(Reply(t, limits, call))
  {}

  lemma AppendAnswered(
    t: Tables, limits: Limits, issued: map<MessageId, Message>, user: UserId, id: MessageId, request: Request, at: int)
    requires RelayGood(t, limits, issued) && HistoryAgreement.VerdictsTrue(t) && NamesOk(t.rooms)
    requires request.AppendRoomOperation? && HonestAppend(t, user, id, request.operation)
    requires Issued(issued, Message(user, id, request)) && Lookup(t.journal, user, id).None?
    requires Affordable(t, limits, user, request)
    ensures !IsTransient(Reply(t, limits, Call(user, id, request, Idle(limits, request, at))))
  {
    AppendDone(t, limits, issued, user, id, request.operation);
    IdleAdmits(t, limits, user, request, at);
    DoneAnswered(t, limits, Call(user, id, request, Idle(limits, request, at)));
  }

  lemma ReserveAnswered(t: Tables, limits: Limits, user: UserId, id: MessageId, request: Request, at: int)
    requires PoolsTrue(t.packages) && request.ReserveKeyPackage? && Affordable(t, limits, user, request)
    requires Lookup(t.journal, user, id).None?
    requires forall i :: 0 <= i < |t.allocations| ==> t.allocations[i].at <= at - 3600
    ensures !IsTransient(Reply(t, limits, Call(user, id, request, Idle(limits, request, at))))
  {
    ReserveDone(t, user, request.recipient, Idle(limits, request, at));
    IdleAdmits(t, limits, user, request, at);
    DoneAnswered(t, limits, Call(user, id, request, Idle(limits, request, at)));
  }

  /** What waits in an outbox was honestly built. */
  lemma WaitingHonest(w: World, limits: Limits, user: UserId, id: MessageId)
    requires Good(w, limits) && user in w.clients && id in w.clients[user].db.outbox
    ensures var request := w.clients[user].db.outbox[id].request;
            && Issued(w.issued, Message(user, id, request))
            && (request.AppendRoomOperation? ==> HonestAppend(w.relay, user, id, request.operation))
  {
    var db := w.clients[user].db;
    assert ClientGood(w.relay, w.issued, user, w.clients[user]);
    if db.outbox[id].request.AppendRoomOperation? {
      assert AppendTrue(w.relay, user, db.cursors, id, db.outbox[id].request.operation);
    }
  }

  /** An attempt that the relay can afford gets a result at some time. */
  lemma GetsResult(w: World, limits: Limits, user: UserId, id: MessageId, request: Request) returns (env: Environment)
    requires Sound(w, limits) && user in w.clients && id in w.clients[user].db.outbox
    requires w.clients[user].db.outbox[id].request == request && IsAttempt(request)
    requires Lookup(w.relay.journal, user, id).None? && Affordable(w.relay, limits, user, request)
    ensures !IsTransient(Reply(w.relay, limits, Call(user, id, request, env)))
  {
    WaitingHonest(w, limits, user, id);
    var at := LongAgo(w.relay.allocations);
    env := Idle(limits, request, at);
    if request.AppendRoomOperation? {
      AppendAnswered(w.relay, limits, w.issued, user, id, request, at);
    } else {
      ReserveAnswered(w.relay, limits, user, id, request, at);
    }
  }

  // ----- the client acts on a result -----

  /** The answer is taken, and the room waits no more. */
  ghost predicate Releases(db: Database, user: UserId, room: RoomId, id: MessageId, response: Response) {
    && Next(db, user, Answer(id, response)).Some?
    && var db' := Next(db, user, Answer(id, response)).value;
       && !Unresolved(db', room) && db'.contacts == db.contacts && db'.cursors == db.cursors
       && room in db'.groups
  }

  lemma AcceptanceReleases(
    t: Tables, user: UserId, starts: Starts, db: Database, room: RoomId, id: MessageId, operation: Append)
    requires LogOk(t) && InboxOk(db, starts) && InboxTrue(t, db.inbox) && Asks(db, room, id)
    requires db.outbox[id].request == AppendRoomOperation(operation)
    requires InLog(t, Event(id, user, operation)) && operation.parent + 1 <= I64_MAX
    ensures Releases(db, user, room, id, AppendAccepted(Event(id, user, operation)))
  {
    NextReceives(t, user, starts, db, Event(id, user, operation));
  }

  lemma ConflictReleases(db: Database, user: UserId, room: RoomId, id: MessageId, operation: Append, head: nat)
    requires Asks(db, room, id) && HasGroup(db, room) && db.outbox[id].request == AppendRoomOperation(operation)
    requires operation.room == room && head != operation.parent
    ensures Releases(db, user, room, id, HeadConflict(room, head))
  {}

  lemma RefusalReleases(db: Database, user: UserId, room: RoomId, id: MessageId, response: Response)
    requires Asks(db, room, id) && HasGroup(db, room) && response.Rejected? && !IsTransient(response)
    requires match db.outbox[id].request
             case AppendRoomOperation(operation) => operation.room == room
             case ReserveKeyPackage(_) => true
             case _ => false
    ensures Releases(db, user, room, id, response)
  {}

  lemma ReservationReleases(db: Database, user: UserId, room: RoomId, id: MessageId, recipient: UserId, package: Blob)
    requires Asks(db, room, id) && db.outbox[id].request == ReserveKeyPackage(recipient)
    requires db.intents[room].target == Some(recipient) && recipient in db.contacts
    requires package.content == KeyPackageMessage(recipient) && |ReservingRooms(db.intents, id, recipient)| == 1
    ensures Releases(db, user, room, id, KeyPackage(recipient, package))
  {
    var db' := CompleteReservation(db, id, recipient, package).value;
    assert db'.intents == AttachPackage(db.intents, id, recipient, package);
    assert Reserves(db.intents[room], id, recipient);
  }

  lemma AcceptedParent(t: Tables, limits: Limits, event: Event)
    requires RelayOk(t, limits) && HistoryAgreement.VerdictsTrue(t) && InLog(t, event)
    ensures event.operation.parent + 1 <= I64_MAX
  {
    LogShort(t, limits, event.operation.room);
  }

  lemma AppendReleases(t: Tables, limits: Limits, user: UserId, starts: Starts, db: Database, room: RoomId,
                       id: MessageId, operation: Append, response: Response)
    requires RelayOk(t, limits) && HistoryAgreement.VerdictsTrue(t)
    requires ClientOk(db, starts) && InboxTrue(t, db.inbox) && Asks(db, room, id)
    requires db.outbox[id].request == AppendRoomOperation(operation) && operation.room == room
    requires Journaled(t, JournalRow(user, id, AppendRoomOperation(operation), response))
    requires Settles(user, id, AppendRoomOperation(operation), response)
    ensures Releases(db, user, room, id, response)
  {
    match response {
      case AppendAccepted(event) =>
        JournaledInLog(t, JournalRow(user, id, AppendRoomOperation(operation), response));
        AcceptedParent(t, limits, event);
        AcceptanceReleases(t, user, starts, db, room, id, operation);
      case HeadConflict(_, head) => ConflictReleases(db, user, room, id, operation, head);
      case _ => RefusalReleases(db, user, room, id, response);
    }
  }

  lemma ReserveReleases(user: UserId, starts: Starts, db: Database, room: RoomId, id: MessageId, recipient: UserId,
                     response: Response)
    requires ClientOk(db, starts) && AttemptsDistinct(db) && TargetsKnown(db)
    requires Asks(db, room, id) && AttemptOf(db, room, id)
    requires db.outbox[id].request == ReserveKeyPackage(recipient)
    requires Settles(user, id, ReserveKeyPackage(recipient), response)
    ensures Releases(db, user, room, id, response)
  {
    if response.KeyPackage? {
      OneReservingRoom(db, id, recipient);
      ReservationReleases(db, user, room, id, recipient, response.package);
    } else {
      RefusalReleases(db, user, room, id, response);
    }
  }

  /** A journaled result is one the member can act on. */
  lemma ResultReleases(w: World, limits: Limits, user: UserId, room: RoomId, id: MessageId)
    requires Sound(w, limits) && user in w.clients && Unresolved(w.clients[user].db, room)
    requires w.clients[user].db.intents[room].attempt == Some(id) && Lookup(w.relay.journal, user, id).Some?
    ensures var row := Lookup(w.relay.journal, user, id).value;
            && row == JournalRow(user, id, w.clients[user].db.outbox[id].request, row.response)
            && Releases(w.clients[user].db, user, room, id, row.response)
  {
    var client := w.clients[user];
    var row := Lookup(w.relay.journal, user, id).value;
    assert ClientGood(w.relay, w.issued, user, client) && TargetsKnown(client.db);
    assert AttemptOf(client.db, room, id);
    LookupFinds(w.relay.journal, user, id);
    SameRequest(w.issued, Message(user, id, client.db.outbox[id].request), Message(row.user, row.id, row.request));
    match row.request {
      case AppendRoomOperation(operation) =>
        AppendReleases(w.relay, limits, user, client.starts, client.db, room, id, operation, row.response);
      case ReserveKeyPackage(recipient) =>
        ReserveReleases(user, client.starts, client.db, room, id, recipient, row.response);
    }
  }

  // ----- getting there -----

  /** The request is sent and the relay answers. */
  lemma SendServe(w: World, limits: Limits, user: UserId, id: MessageId, env: Environment)
    returns (moves: seq<Move>, w': World)
    requires user in w.clients && id in w.clients[user].db.outbox
    ensures var message := Message(user, id, w.clients[user].db.outbox[id].request);
            var call := Call(user, id, message.request, env);
            && RunWorld(w, limits, moves) == w' && w'.clients == w.clients
            && w'.relay == After(w.relay, limits, call)
            && Answered(message, Reply(w.relay, limits, call)) in w'.answers
  {
    var message := Message(user, id, w.clients[user].db.outbox[id].request);
    var w1 := w.(sent := w.sent + {message});
    w' := Served(w1, limits, message, env);
    moves := [Send(user, id), Serve(message, env)];
    RunTwo(w, w1, w', limits, Send(user, id), Serve(message, env));
  }

  lemma AttemptFits(w: World, limits: Limits, user: UserId, id: MessageId)
    requires Good(w, limits) && IssuedLawful(w.issued) && user in w.clients && id in w.clients[user].db.outbox
    requires IsAttempt(w.clients[user].db.outbox[id].request)
    ensures RequestSize(w.clients[user].db.outbox[id].request) <= MAX_PAYLOAD
  {
    assert ClientGood(w.relay, w.issued, user, w.clients[user]);
    assert Lawful(w.issued[id]);
  }

  lemma RepeatAnswered(t: Tables, limits: Limits, user: UserId, id: MessageId, request: Request, env: Environment)
    requires RequestSize(request) <= MAX_PAYLOAD && Lookup(t.journal, user, id).Some?
    requires Lookup(t.journal, user, id).value.request == request
    ensures var call := Call(user, id, request, env);
            After(t, limits, call) == t && Reply(t, limits, call) == Lookup(t.journal, user, id).value.response
  {}

  /** The member has done something that leaves what it has to follow as it was. */
  lemma StillKnows(w: World, w': World, user: UserId, room: RoomId)
    requires Knows(w, user, room) && w'.relay == w.relay && user in w'.clients
    requires w'.clients[user].db.contacts == w.clients[user].db.contacts
    requires w'.clients[user].db.cursors == w.clients[user].db.cursors && room in w'.clients[user].db.groups
    ensures Knows(w', user, room)
  {
    forall k | w'.clients[user].db.cursors[room] <= k < |Log(w'.relay, room)|
      ensures !Stranger(w'.clients[user].db, Log(w'.relay, room)[k])
    {
      assert !Stranger(w.clients[user].db, Log(w.relay, room)[k]);
    }
  }

  lemma AnswerMove(w: World, limits: Limits, user: UserId, room: RoomId, id: MessageId, response: Response)
    returns (w': World)
    requires user in w.clients && id in w.clients[user].db.outbox && Knows(w, user, room)
    requires Answered(Message(user, id, w.clients[user].db.outbox[id].request), response) in w.answers
    requires Releases(w.clients[user].db, user, room, id, response)
    ensures RunWorld(w, limits, [Act(user, Answer(id, response))]) == w' && w'.relay == w.relay
    ensures CanFollow(w', user, room)
  {
    var db' := Next(w.clients[user].db, user, Answer(id, response)).value;
    w' := Acted(w, user, Answer(id, response), db');
    ActMoves(w, limits, user, Answer(id, response), db');
    assert RunWorld(w, limits, [Act(user, Answer(id, response))]) == RunWorld(w', limits, []);
    StillKnows(w, w', user, room);
  }

  /** An attempt with a journaled result is resolved without any change to the relay. */
  lemma Resolve(w: World, limits: Limits, user: UserId, room: RoomId, id: MessageId)
    returns (moves: seq<Move>, w': World)
    requires Sound(w, limits) && Knows(w, user, room) && Unresolved(w.clients[user].db, room)
    requires w.clients[user].db.intents[room].attempt == Some(id) && Lookup(w.relay.journal, user, id).Some?
    ensures RunWorld(w, limits, moves) == w' && w'.relay == w.relay && CanFollow(w', user, room)
  {
    var request, response := w.clients[user].db.outbox[id].request, Lookup(w.relay.journal, user, id).value.response;
    ResultReleases(w, limits, user, room, id);
    UnresolvedIsAttempt(w, limits, user, room, id);
    AttemptFits(w, limits, user, id);
    RepeatAnswered(w.relay, limits, user, id, request, ENV);
    var ask, w1 := SendServe(w, limits, user, id, ENV);
    StillKnows(w, w1, user, room);
    w' := AnswerMove(w1, limits, user, room, id, response);
    WorldMore(w, limits, ask, [Act(user, Answer(id, response))]);
    moves := ask + [Act(user, Answer(id, response))];
  }

  lemma UnresolvedIsAttempt(w: World, limits: Limits, user: UserId, room: RoomId, id: MessageId)
    requires Good(w, limits) && user in w.clients && Unresolved(w.clients[user].db, room)
    requires w.clients[user].db.intents[room].attempt == Some(id)
    ensures AttemptOf(w.clients[user].db, room, id) && IsAttempt(w.clients[user].db.outbox[id].request)
  {
    assert ClientGood(w.relay, w.issued, user, w.clients[user]);
    assert AttemptOf(w.clients[user].db, room, id);
  }

  // ----- an attempt that has to be served first -----

  /** A member knows whom it adds itself. */
  lemma OwnNoStranger(t: Tables, user: UserId, starts: Starts, db: Database, room: RoomId, id: MessageId)
    requires ClientOk(db, starts) && Synced(t, user, db) && AttemptOf(db, room, id)
    requires db.outbox[id].request.AppendRoomOperation?
    ensures !Stranger(db, Event(id, user, db.outbox[id].request.operation))
  {
    if db.outbox[id].request.operation.body.content.CommitMessage? {
      assert Outstanding(db.intents, db.outbox, room).Some?;
      assert db.groups[room].pending == Outstanding(db.intents, db.outbox, room);
    }
  }

  lemma OwnKnown(w: World, limits: Limits, user: UserId, room: RoomId, id: MessageId)
    requires Good(w, limits) && user in w.clients && AttemptOf(w.clients[user].db, room, id)
    requires w.clients[user].db.outbox[id].request.AppendRoomOperation?
    ensures !Stranger(w.clients[user].db, Event(id, user, w.clients[user].db.outbox[id].request.operation))
  {
    assert ClientGood(w.relay, w.issued, user, w.clients[user]);
    OwnNoStranger(w.relay, user, w.clients[user].starts, w.clients[user].db, room, id);
  }

  /** Serving an attempt adds its own event to the log of its room at most. */
  lemma ServedLog(t: Tables, limits: Limits, call: Call, room: RoomId)
    requires SubscribedRoomsExist(t)
    ensures var log, log' := Log(t, room), Log(After(t, limits, call), room);
            || log' == log
            || (call.request.AppendRoomOperation? && log' == log + [Event(call.id, call.user, call.request.operation)])
  {
    DeliverEffect(t, limits, call);
    EffectExtends(t, After(t, limits, call), limits, call, Reply(t, limits, call));
  }

  lemma LogKnown(t: Tables, limits: Limits, call: Call, db: Database, room: RoomId, after: nat)
    requires SubscribedRoomsExist(t)
    requires forall k :: after <= k < |Log(t, room)| ==> !Stranger(db, Log(t, room)[k])
    requires call.request.AppendRoomOperation? ==> !Stranger(db, Event(call.id, call.user, call.request.operation))
    ensures var log' := Log(After(t, limits, call), room);
            forall k :: after <= k < |log'| ==> !Stranger(db, log'[k])
  {
    ServedLog(t, limits, call, room);
  }

  lemma ServedKnows(w: World, limits: Limits, user: UserId, room: RoomId, id: MessageId, env: Environment, w': World)
    requires Good(w, limits) && Knows(w, user, room) && AttemptOf(w.clients[user].db, room, id)
    requires w'.clients == w.clients
    requires w'.relay == After(w.relay, limits, Call(user, id, w.clients[user].db.outbox[id].request, env))
    ensures Knows(w', user, room)
  {
    var db := w.clients[user].db;
    if db.outbox[id].request.AppendRoomOperation? {
      OwnKnown(w, limits, user, room, id);
    }
    LogKnown(w.relay, limits, Call(user, id, db.outbox[id].request, env), db, room, db.cursors[room]);
  }

  lemma NowJournaled(t: Tables, limits: Limits, call: Call)
    requires SubscribedRoomsExist(t) && IsAttempt(call.request) && Lookup(t.journal, call.user, call.id).None?
    requires !IsTransient(Reply(t, limits, call))
    ensures Lookup(After(t, limits, call).journal, call.user, call.id).Some?
  {
    ReplyRecorded(t, limits, call);
    LookupAppend(t.journal, JournalRow(call.user, call.id, call.request, Reply(t, limits, call)), call.user, call.id);
  }

  /** An attempt that the relay can afford gets a result in the journal. */
  lemma SettleAttempt(w: World, limits: Limits, user: UserId, room: RoomId, id: MessageId)
    returns (moves: seq<Move>, w': World)
    requires Sound(w, limits) && Knows(w, user, room) && Unresolved(w.clients[user].db, room)
    requires w.clients[user].db.intents[room].attempt == Some(id) && Lookup(w.relay.journal, user, id).None?
    requires Affordable(w.relay, limits, user, w.clients[user].db.outbox[id].request)
    ensures RunWorld(w, limits, moves) == w' && w'.clients == w.clients && Knows(w', user, room)
    ensures Lookup(w'.relay.journal, user, id).Some?
  {
    var request := w.clients[user].db.outbox[id].request;
    UnresolvedIsAttempt(w, limits, user, room, id);
    var env := GetsResult(w, limits, user, id, request);
    moves, w' := SendServe(w, limits, user, id, env);
    NowJournaled(w.relay, limits, Call(user, id, request, env));
    ServedKnows(w, limits, user, room, id, env, w');
  }

  // ----- exactly when the head can be reached -----

  /** The member has applied the whole log, has its group, and waits for nothing. */
  ghost predicate AtHead(w: World, user: UserId, room: RoomId) {
    && InRoom(w, user, room) && room in w.relay.rooms && !Unresolved(w.clients[user].db, room)
    && w.clients[user].db.cursors[room] == |Log(w.relay, room)|
    && w.clients[user].db.groups[room].group == GroupAt(w.relay, room, |Log(w.relay, room)|)
  }

  ghost predicate CanReachHead(w: World, limits: Limits, user: UserId, room: RoomId) {
    exists moves :: AtHead(RunWorld(w, limits, moves), user, room)
  }

  /** Nothing waits, or what waits has its result, or the relay would take it on some day. */
  ghost predicate Resolvable(w: World, limits: Limits, user: UserId, room: RoomId)
    requires user in w.clients
  {
    var db := w.clients[user].db;
    Unresolved(db, room) ==>
      var id := db.intents[room].attempt.value;
      || Lookup(w.relay.journal, user, id).Some?
      || exists env :: Admit(w.relay, limits, user, db.outbox[id].request, env)
  }

  lemma FollowToHead(w: World, limits: Limits, user: UserId, room: RoomId) returns (moves: seq<Move>)
    requires Sound(w, limits) && CanFollow(w, user, room)
    ensures AtHead(RunWorld(w, limits, moves), user, room)
  {
    var w';
    moves, w' := FollowAll(w, limits, user, room);
    assert ClientGood(w'.relay, w'.issued, user, w'.clients[user]);
  }

  lemma ResultToHead(w: World, limits: Limits, user: UserId, room: RoomId, id: MessageId) returns (moves: seq<Move>)
    requires Sound(w, limits) && Knows(w, user, room) && Unresolved(w.clients[user].db, room)
    requires w.clients[user].db.intents[room].attempt == Some(id) && Lookup(w.relay.journal, user, id).Some?
    ensures AtHead(RunWorld(w, limits, moves), user, room)
  {
    var first, w1 := Resolve(w, limits, user, room, id);
    RunSound(w, limits, first);
    var others := FollowToHead(w1, limits, user, room);
    WorldMore(w, limits, first, others);
    moves := first + others;
  }

  lemma AttemptToHead(w: World, limits: Limits, user: UserId, room: RoomId, id: MessageId) returns (moves: seq<Move>)
    requires Sound(w, limits) && Knows(w, user, room) && Unresolved(w.clients[user].db, room)
    requires w.clients[user].db.intents[room].attempt == Some(id) && Lookup(w.relay.journal, user, id).None?
    requires Affordable(w.relay, limits, user, w.clients[user].db.outbox[id].request)
    ensures AtHead(RunWorld(w, limits, moves), user, room)
  {
    var first, w1 := SettleAttempt(w, limits, user, room, id);
    RunSound(w, limits, first);
    var others := ResultToHead(w1, limits, user, room, id);
    WorldMore(w, limits, first, others);
    moves := first + others;
  }

  lemma ReachHead(w: World, limits: Limits, user: UserId, room: RoomId) returns (moves: seq<Move>)
    requires Sound(w, limits) && Knows(w, user, room) && !Held(w, limits, user, room)
    ensures AtHead(RunWorld(w, limits, moves), user, room)
  {
    var db := w.clients[user].db;
    if !Unresolved(db, room) {
      moves := FollowToHead(w, limits, user, room);
    } else if Lookup(w.relay.journal, user, db.intents[room].attempt.value).Some? {
      moves := ResultToHead(w, limits, user, room, db.intents[room].attempt.value);
    } else {
      moves := AttemptToHead(w, limits, user, room, db.intents[room].attempt.value);
    }
  }

  lemma ResolvableExactly(w: World, limits: Limits, user: UserId, room: RoomId)
    requires user in w.clients
    ensures Resolvable(w, limits, user, room) <==> !Held(w, limits, user, room)
  {
    var db := w.clients[user].db;
    if Unresolved(db, room) {
      AffordableExactly(w.relay, limits, user, db.outbox[db.intents[room].attempt.value].request);
    }
  }

  /** Recovery, on every run: a member who has verified everybody the log adds can reach the
      head of the room if and only if it waits for no attempt, or the attempt has a journaled
      result, or the relay would still admit it in some environment. */
  lemma CatchUpExactly(users: set<UserId>, limits: Limits, moves: seq<Move>, user: UserId, room: RoomId)
    requires Knows(Reached(users, limits, moves), user, room)
    ensures var w := Reached(users, limits, moves);
            CanReachHead(w, limits, user, room) <==> Resolvable(w, limits, user, room)
  {
    var w := Reached(users, limits, moves);
    ReachedSound(users, limits, moves);
    ResolvableExactly(w, limits, user, room);
    if Held(w, limits, user, room) {
      forall more ensures !AtHead(RunWorld(w, limits, more), user, room) {
        HeldForGood(w, limits, user, room, more);
      }
    } else {
      var more := ReachHead(w, limits, user, room);
    }
  }
}
