/**
  An attempt that no ledger will admit again. The relay answers it with a quota refusal, which
  the client takes as transient: the attempt stays in the outbox, and while it waits there its
  room is not recovered (crates/grotto-client/src/delivery.rs). Ledgers never shrink
  (crates/grotto-relay/src/delivery.rs), so the room is held for good.
 */
module Holds {
  import opened Records
  import opened Sizes
  import opened RelaySpec
  import opened RelayInvariants
  import opened ClientSpec
  import opened ClientInvariants
  import opened ClientTheorems
  import opened LogFacts
  import opened World
  import opened Sync
  import opened SyncSteps
  import opened WorldInvariant

  // ----- what the relay can admit -----

  /** The ledgers, the payload limit and an empty database leave room for the request. */
  predicate Affordable(t: Tables, limits: Limits, user: UserId, request: Request) {
    && RequestSize(request) <= MAX_PAYLOAD
    && Charge(request) <= limits.global
    && SaturatingAdd(Used(t.usageSender, user), Charge(request)) <= limits.sender
    && (request.AppendRoomOperation? ==>
          SaturatingAdd(Used(t.usageRoom, request.operation.room), Charge(request)) <= limits.room)
  }

  /** Nothing in the way but the ledgers: an empty database on an empty disk, at some time. */
  function Idle(limits: Limits, request: Request, at: int): Environment {
    Environment(0, at, at, 0, 0, SaturatingAdd(limits.reserve, Charge(request)))
  }

  lemma IdleAdmits(t: Tables, limits: Limits, user: UserId, request: Request, at: int)
    requires Affordable(t, limits, user, request)
    ensures Admit(t, limits, user, request, Idle(limits, request, at))
  {}

  /** A request is affordable if and only if the relay would admit it on some day. */
  lemma AffordableExactly(t: Tables, limits: Limits, user: UserId, request: Request)
    ensures Affordable(t, limits, user, request) <==> exists env :: Admit(t, limits, user, request, env)
  {
    if Affordable(t, limits, user, request) {
      IdleAdmits(t, limits, user, request, 0);
    }
  }

  /** Ledgers only grow. */
  ghost predicate LedgersGrow(t: Tables, t': Tables) {
    && (forall user: UserId :: Used(t.usageSender, user) <= Used(t'.usageSender, user))
    && (forall room: RoomId :: Used(t.usageRoom, room) <= Used(t'.usageRoom, room))
  }

  lemma CallLedgers(t: Tables, limits: Limits, call: Call)
    requires SubscribedRoomsExist(t)
    ensures LedgersGrow(t, After(t, limits, call))
  {
    DeliverEffect(t, limits, call);
  }

  lemma StillTooMuch(t: Tables, t': Tables, limits: Limits, user: UserId, request: Request)
    requires LedgersGrow(t, t') && !Affordable(t, limits, user, request)
    ensures !Affordable(t', limits, user, request)
  {
    assert Used(t.usageSender, user) <= Used(t'.usageSender, user);
    if request.AppendRoomOperation? {
      assert Used(t.usageRoom, request.operation.room) <= Used(t'.usageRoom, request.operation.room);
    }
  }

  // ----- an attempt waits -----

  /** The room's attempt, with its request in the outbox. */
  predicate Asks(db: Database, room: RoomId, id: MessageId) {
    && room in db.intents && db.intents[room].attempt == Some(id)
    && id in db.outbox && id !in db.inbox
    && room in db.groups && room in db.cursors
  }

  predicate StillAsks(db: Database, room: RoomId, id: MessageId, db': Database) {
    && room in db.intents && room in db'.intents && db'.intents[room] == db.intents[room]
    && id in db.outbox && id in db'.outbox && db'.outbox[id].request == db.outbox[id].request
    && room in db'.groups
    && room in db.cursors && room in db'.cursors && db'.cursors[room] == db.cursors[room]
  }

  lemma SaveAsks(db: Database, room: RoomId, id: MessageId, other: MessageId, request: Request)
    requires room in db.intents && id in db.outbox && room in db.groups && room in db.cursors
    ensures var saved := SaveOutbox(db, other, request); saved.Some? ==> StillAsks(db, room, id, saved.value)
  {}

  lemma AnswerAsks(
    db: Database, user: UserId, other: MessageId, response: Response, db': Database, room: RoomId, id: MessageId)
    requires Next(db, user, Answer(other, response)) == Some(db') && Asks(db, room, id)
    requires other == id ==> IsTransient(response)
    ensures StillAsks(db, room, id, db')
  {
    if other != id {
      OtherAnswerAsks(db, user, other, response, db', room, id);
    }
  }

  lemma OtherAnswerAsks(
    db: Database, user: UserId, other: MessageId, response: Response, db': Database, room: RoomId, id: MessageId)
    requires Next(db, user, Answer(other, response)) == Some(db') && Asks(db, room, id) && other != id
    ensures StillAsks(db, room, id, db')
  {
    var request := db.outbox[other].request;
    if request.CreateRoom? && response.RoomCreated? {
      CreationAsks(db, user, other, response.room, room, id);
    } else if request.ReserveKeyPackage? && response.KeyPackage? {
      ReservationAsks(db, other, request.recipient, response.package, db', room, id);
    } else if request.AppendRoomOperation? && response.HeadConflict? {
      ConflictAsks(db, other, request.operation, db', room, id);
    } else if response.Rejected? && !IsTransient(response) {
      RefusalAsks(db, other, request, db', room, id);
    }
  }

  lemma CreationAsks(db: Database, user: UserId, other: MessageId, created: RoomId, room: RoomId, id: MessageId)
    requires Asks(db, room, id) && other != id
    ensures StillAsks(db, room, id, CompleteCreation(db, user, other, created))
  {}

  lemma ReservationAsks(
    db: Database, other: MessageId, recipient: UserId, package: Blob, db': Database, room: RoomId, id: MessageId)
    requires CompleteReservation(db, other, recipient, package) == Some(db') && Asks(db, room, id) && other != id
    ensures StillAsks(db, room, id, db')
  {}

  lemma ConflictAsks(db: Database, other: MessageId, operation: Append, db': Database, room: RoomId, id: MessageId)
    requires CompleteConflict(db, other, operation) == Some(db') && Asks(db, room, id) && other != id
    ensures StillAsks(db, room, id, db')
  {}

  lemma RefusalAsks(db: Database, other: MessageId, request: Request, db': Database, room: RoomId, id: MessageId)
    requires CompleteRefusal(db, other, request) == Some(db') && Asks(db, room, id) && other != id
    ensures StillAsks(db, room, id, db')
  {}

  lemma BuildAsks(db: Database, user: UserId, starts: Starts, other: RoomId, drawn: MessageId, bytes: Ciphertext,
                  db': Database, room: RoomId, id: MessageId)
    requires ClientOk(db, starts) && Next(db, user, Build(other, drawn, bytes)) == Some(db') && Asks(db, room, id)
    ensures StillAsks(db, room, id, db')
  {
    BuildShape(db, user, other, drawn, bytes);
  }

  lemma OwnAsks(db: Database, user: UserId, event: Event, db': Database, room: RoomId, id: MessageId)
    requires ApplyOwn(db, user, event) == Some(db') && Asks(db, room, id)
    requires event.operation.room != room && event.id != id
    ensures StillAsks(db, room, id, db')
  {
    var db0 := if event.operation.contentType == Commit then ApplyAcceptedCommit(db, event.operation.room).value
               else db;
    FinishAsks(Claim(db0, event), user, event, Applied, db', room, id);
  }

  lemma FinishAsks(
    db: Database, user: UserId, event: Event, state: RowState, db': Database, room: RoomId, id: MessageId)
    requires FinishEvent(db, user, event, state) == Some(db') && event.operation.room != room
    requires room in db.intents && id in db.outbox && room in db.groups && room in db.cursors
    ensures StillAsks(db, room, id, db')
  {
    SaveAsks(Advance(db, event, state), room, id, AcknowledgementId(user, [event.id], []), Acknowledge([event.id], []));
  }

  lemma OpenedAsks(db: Database, user: UserId, event: Event, db1: Database, plaintext: Option<seq<byte>>,
                   room: RoomId, id: MessageId)
    requires ProcessBound(db, user, event) == Opened(db1, plaintext) && Asks(db, room, id)
    ensures StillAsks(db, room, id, Remember(db1, event, plaintext))
  {}

  lemma OtherEventAsks(db: Database, user: UserId, event: Event, db': Database, room: RoomId, id: MessageId)
    requires ApplyOther(db, user, event) == Some(db') && Asks(db, room, id) && event.operation.room != room
    ensures StillAsks(db, room, id, db')
  {
    var processed := ProcessBound(db, user, event);
    if processed.Opened? {
      var db2 := Remember(processed.db, event, processed.plaintext);
      OpenedAsks(db, user, event, processed.db, processed.plaintext, room, id);
      FinishAsks(db2, user, event, Applied, db', room, id);
    } else if processed.FaultRejected? {
      FinishAsks(db, user, event, Refused, db', room, id);
    }
  }

  lemma ApplyAsks(db: Database, user: UserId, event: Event, db': Database, room: RoomId, id: MessageId)
    requires Next(db, user, Apply(event)) == Some(db') && Asks(db, room, id)
    ensures StillAsks(db, room, id, db')
  {
    if event.sender == user {
      OwnAsks(db, user, event, db', room, id);
    } else {
      OtherEventAsks(db, user, event, db', room, id);
    }
  }

  lemma ProcessAsks(
    db: Database, user: UserId, cursor: nat, keyAvailable: bool, db': Database, room: RoomId, id: MessageId)
    requires cursor in db.welcomes && Asks(db, room, id)
    requires db' == MarkWelcome(db, cursor, Stuck)
             || JoinRoom(db, user, cursor, db.welcomes[cursor].record, keyAvailable) == Some(db')
    ensures StillAsks(db, room, id, db')
  {}

  lemma PlainAsks(db: Database, user: UserId, action: Action, db': Database, room: RoomId, id: MessageId)
    requires action.Import? || action.Intend? || action.Receive? || action.Store?
    requires Next(db, user, action) == Some(db') && Asks(db, room, id)
    ensures StillAsks(db, room, id, db')
  {}

  lemma IssueAsks(
    db: Database, user: UserId, other: MessageId, request: Request, db': Database, room: RoomId, id: MessageId)
    requires Next(db, user, Issue(other, request)) == Some(db') && Asks(db, room, id)
    ensures StillAsks(db, room, id, db')
  {
    SaveAsks(db, room, id, other, request);
  }

  lemma ProcessStepAsks(
    db: Database, user: UserId, cursor: nat, keyAvailable: bool, db': Database, room: RoomId, id: MessageId)
    requires Next(db, user, Process(cursor, keyAvailable)) == Some(db') && Asks(db, room, id)
    ensures StillAsks(db, room, id, db')
  {
    ProcessCases(db, user, cursor, keyAvailable);
    ProcessAsks(db, user, cursor, keyAvailable, db', room, id);
  }

  /** Only its answer ends an attempt, and the room stands still until then. */
  lemma StepAsks(
    db: Database, user: UserId, starts: Starts, action: Action, db': Database, room: RoomId, id: MessageId)
    requires ClientOk(db, starts) && Next(db, user, action) == Some(db') && Asks(db, room, id)
    requires action.Answer? && action.id == id ==> IsTransient(action.response)
    ensures StillAsks(db, room, id, db')
  {
    match action {
      case Issue(other, request) => IssueAsks(db, user, other, request, db', room, id);
      case Build(other, drawn, bytes) => BuildAsks(db, user, starts, other, drawn, bytes, db', room, id);
      case Answer(other, response) => AnswerAsks(db, user, other, response, db', room, id);
      case Apply(event) => ApplyAsks(db, user, event, db', room, id);
      case Process(cursor, keyAvailable) => ProcessStepAsks(db, user, cursor, keyAvailable, db', room, id);
      case _ => PlainAsks(db, user, action, db', room, id);
    }
  }

  // ----- held for good -----

  /** The room's attempt is unresolved, the relay has no result for it, and it cannot afford one. */
  ghost predicate Held(w: World, limits: Limits, user: UserId, room: RoomId) {
    && user in w.clients && Unresolved(w.clients[user].db, room)
    && var id := w.clients[user].db.intents[room].attempt.value;
       && Lookup(w.relay.journal, user, id).None?
       && !Affordable(w.relay, limits, user, w.clients[user].db.outbox[id].request)
  }

  /** The same attempt still waits, at the same cursor. */
  ghost predicate StandsStill(w: World, w': World, user: UserId, room: RoomId) {
    && user in w.clients && user in w'.clients
    && room in w.clients[user].db.intents && room in w'.clients[user].db.intents
    && w'.clients[user].db.intents[room] == w.clients[user].db.intents[room]
    && room in w.clients[user].db.cursors && room in w'.clients[user].db.cursors
    && w'.clients[user].db.cursors[room] == w.clients[user].db.cursors[room]
  }

  ghost predicate Remains(w: World, w': World, limits: Limits, user: UserId, room: RoomId) {
    Held(w', limits, user, room) && StandsStill(w, w', user, room)
  }

  lemma HeldAsks(w: World, limits: Limits, user: UserId, room: RoomId)
    requires Good(w, limits) && Held(w, limits, user, room)
    ensures Asks(w.clients[user].db, room, w.clients[user].db.intents[room].attempt.value)
    ensures IsAttempt(w.clients[user].db.outbox[w.clients[user].db.intents[room].attempt.value].request)
  {
    assert ClientGood(w.relay, w.issued, user, w.clients[user]);
    assert AttemptOf(w.clients[user].db, room, w.clients[user].db.intents[room].attempt.value);
  }

  /** An answer to a request without a result is transient. */
  lemma NoResultYet(w: World, limits: Limits, user: UserId, id: MessageId, response: Response)
    requires Good(w, limits) && user in w.clients && id in w.clients[user].db.outbox
    requires IsAttempt(w.clients[user].db.outbox[id].request) && Lookup(w.relay.journal, user, id).None?
    requires Answered(Message(user, id, w.clients[user].db.outbox[id].request), response) in w.answers
    ensures IsTransient(response)
  {
    var message := Message(user, id, w.clients[user].db.outbox[id].request);
    assert AnswerTrue(w.relay, message, response);
  }

  /** What has no result has not been received. */
  lemma NotReceived(w: World, limits: Limits, user: UserId, id: MessageId)
    requires Good(w, limits) && user in w.clients && id in w.clients[user].db.outbox
    requires IsAttempt(w.clients[user].db.outbox[id].request) && Lookup(w.relay.journal, user, id).None?
    ensures id !in w.clients[user].db.inbox
  {
    var db := w.clients[user].db;
    assert ClientGood(w.relay, w.issued, user, w.clients[user]);
    if id in db.inbox {
      var event := db.inbox[id].event;
      LogJournaled(w.relay, event);
      LookupFinds(w.relay.journal, event.sender, id);
      SameRequest(w.issued, Message(user, id, db.outbox[id].request),
                  Message(event.sender, id, AppendRoomOperation(event.operation)));
      assert false;
    }
  }

  /** The user's own step leaves the attempt alone. */
  lemma ActAsks(w: World, limits: Limits, user: UserId, room: RoomId, action: Action, db': Database)
    requires Good(w, limits) && Held(w, limits, user, room) && Justified(w, user, w.clients[user].db, action)
    requires Next(w.clients[user].db, user, action) == Some(db')
    ensures StillAsks(w.clients[user].db, room, w.clients[user].db.intents[room].attempt.value, db')
  {
    var client := w.clients[user];
    var id := client.db.intents[room].attempt.value;
    HeldAsks(w, limits, user, room);
    assert ClientGood(w.relay, w.issued, user, client);
    if action.Answer? && action.id == id {
      NoResultYet(w, limits, user, id, action.response);
    }
    StepAsks(client.db, user, client.starts, action, db', room, id);
  }

  lemma ActHeld(w: World, limits: Limits, user: UserId, room: RoomId, action: Action, db': Database)
    requires Good(w, limits) && Held(w, limits, user, room) && Justified(w, user, w.clients[user].db, action)
    requires Next(w.clients[user].db, user, action) == Some(db')
    ensures Remains(w, Acted(w, user, action, db'), limits, user, room)
  {
    HeldAsks(w, limits, user, room);
    ActAsks(w, limits, user, room, action, db');
    ActGood(w, limits, user, action, db');
    NotReceived(Acted(w, user, action, db'), limits, user, w.clients[user].db.intents[room].attempt.value);
  }

  lemma SameHeld(w: World, w': World, limits: Limits, user: UserId, room: RoomId)
    requires Held(w, limits, user, room) && room in w.clients[user].db.cursors
    requires w'.relay == w.relay && user in w'.clients && w'.clients[user] == w.clients[user]
    ensures Remains(w, w', limits, user, room)
  {}

  /** A move of somebody else. */
  lemma ElsewhereSame(w: World, limits: Limits, move: Move, user: UserId)
    requires user in w.clients && !move.Serve? && !(move.Act? && move.user == user)
    ensures var w' := Moved(w, limits, move);
            w'.relay == w.relay && user in w'.clients && w'.clients[user] == w.clients[user]
  {}

  /** The relay does not take on what it cannot afford. */
  lemma RefusedAgain(t: Tables, limits: Limits, user: UserId, id: MessageId, request: Request, env: Environment)
    requires !Affordable(t, limits, user, request) && IsAttempt(request) && Lookup(t.journal, user, id).None?
    ensures After(t, limits, Call(user, id, request, env)) == t
  {}

  lemma StillNoResult(t: Tables, limits: Limits, call: Call, user: UserId, id: MessageId)
    requires SubscribedRoomsExist(t) && Lookup(t.journal, user, id).None? && (call.user != user || call.id != id)
    ensures Lookup(After(t, limits, call).journal, user, id).None?
  {
    DeliverEffect(t, limits, call);
    LookupAppend(t.journal, JournalRow(call.user, call.id, call.request, Reply(t, limits, call)), user, id);
  }

  lemma ServeHeld(w: World, limits: Limits, user: UserId, room: RoomId, message: Message, env: Environment)
    requires Good(w, limits) && Held(w, limits, user, room) && message in w.sent
    ensures Remains(w, Served(w, limits, message, env), limits, user, room)
  {
    var db := w.clients[user].db;
    var id := db.intents[room].attempt.value;
    var call := Call(message.user, message.id, message.request, env);
    HeldAsks(w, limits, user, room);
    if message.user == user && message.id == id {
      assert Issued(w.issued, message) && ClientGood(w.relay, w.issued, user, w.clients[user]);
      SameRequest(w.issued, message, Message(user, id, db.outbox[id].request));
      RefusedAgain(w.relay, limits, user, id, message.request, env);
    } else {
      StillNoResult(w.relay, limits, call, user, id);
      CallLedgers(w.relay, limits, call);
      StillTooMuch(w.relay, After(w.relay, limits, call), limits, user, db.outbox[id].request);
    }
  }

  lemma OwnMoveHeld(w: World, limits: Limits, user: UserId, room: RoomId, action: Action)
    requires Good(w, limits) && Held(w, limits, user, room) && Enabled(w, Act(user, action))
    ensures Remains(w, Moved(w, limits, Act(user, action)), limits, user, room)
  {
    ActHeld(w, limits, user, room, action, Next(w.clients[user].db, user, action).value);
  }

  lemma MoveHeld(w: World, limits: Limits, user: UserId, room: RoomId, move: Move)
    requires Good(w, limits) && Held(w, limits, user, room)
    ensures Remains(w, Moved(w, limits, move), limits, user, room)
  {
    if !Enabled(w, move) {
      OtherMoveHeld(w, w, limits, user, room);
    } else if move.Serve? {
      ServeHeld(w, limits, user, room, move.message, move.env);
    } else if move.Act? && move.user == user {
      OwnMoveHeld(w, limits, user, room, move.action);
    } else {
      ElsewhereSame(w, limits, move, user);
      OtherMoveHeld(w, Moved(w, limits, move), limits, user, room);
    }
  }

  lemma OtherMoveHeld(w: World, w': World, limits: Limits, user: UserId, room: RoomId)
    requires Good(w, limits) && Held(w, limits, user, room)
    requires w'.relay == w.relay && user in w'.clients && w'.clients[user] == w.clients[user]
    ensures Remains(w, w', limits, user, room)
  {
    HeldAsks(w, limits, user, room);
    SameHeld(w, w', limits, user, room);
  }

  /** Held for good: on every further run the same attempt waits at the same cursor, however far
      the log goes on. */
  lemma {:induction false} HeldForGood(w: World, limits: Limits, user: UserId, room: RoomId, moves: seq<Move>)
    requires Good(w, limits) && Held(w, limits, user, room)
    ensures var w' := RunWorld(w, limits, moves);
            Good(w', limits) && Held(w', limits, user, room) && StandsStill(w, w', user, room)
    decreases |moves|
  {
    if moves == [] {
      HeldAsks(w, limits, user, room);
    } else {
      MoveGood(w, limits, moves[0]);
      MoveHeld(w, limits, user, room, moves[0]);
      HeldForGood(Moved(w, limits, moves[0]), limits, user, room, moves[1..]);
    }
  }
}
