/** The promises of the whole system, on every run of honest clients and the relay. */
module Agreement {
  import opened Records
  import opened RelaySpec
  import opened RelayInvariants
  import opened ClientSpec
  import opened ClientInvariants
  import opened ClientTheorems
  import opened Honest
  import opened LogFacts
  import opened World
  import opened Sync
  import opened SyncSteps
  import opened SyncApply
  import opened SyncBuild
  import opened WorldInvariant

  ghost function Reached(users: set<UserId>, limits: Limits, moves: seq<Move>): World {
    RunWorld(Start(users), limits, moves)
  }

  lemma ReachedGood(users: set<UserId>, limits: Limits, moves: seq<Move>)
    ensures Good(Reached(users, limits, moves), limits)
  {
    StartGood(users, limits);
    RunGood(Start(users), limits, moves);
  }

  lemma ClientReached(users: set<UserId>, limits: Limits, moves: seq<Move>, user: UserId)
    ensures var w := Reached(users, limits, moves);
            user in w.clients ==> ClientGood(w.relay, w.issued, user, w.clients[user])
  {
    ReachedGood(users, limits, moves);
  }

  predicate InRoom(w: World, user: UserId, room: RoomId) {
    user in w.clients && room in w.clients[user].db.groups && room in w.clients[user].db.cursors
    && room in w.clients[user].starts
  }

  /** Convergence: a member's group is the one that the log leads to at its cursor, so members
      with the same cursor have the same epoch and roster, and nobody is ahead of the log. */
  lemma Convergence(users: set<UserId>, limits: Limits, moves: seq<Move>, a: UserId, b: UserId, room: RoomId)
    ensures var w := Reached(users, limits, moves);
            InRoom(w, a, room) && InRoom(w, b, room) ==>
              var da, db := w.clients[a].db, w.clients[b].db;
              && room in w.relay.rooms && da.cursors[room] <= |Log(w.relay, room)|
              && da.groups[room].group == GroupAt(w.relay, room, da.cursors[room])
              && a in da.groups[room].group.roster
              && (da.cursors[room] == db.cursors[room] ==> da.groups[room].group == db.groups[room].group)
  {
    var w := Reached(users, limits, moves);
    ReachedGood(users, limits, moves);
    if InRoom(w, a, room) && InRoom(w, b, room) {
      assert ClientGood(w.relay, w.issued, a, w.clients[a]) && ClientGood(w.relay, w.issued, b, w.clients[b]);
    }
  }

  /** The epoch counts the commits and the roster never shrinks: of two members, the one with
      the larger cursor knows at least the other's roster and epoch. */
  lemma RostersGrow(users: set<UserId>, limits: Limits, moves: seq<Move>, a: UserId, b: UserId, room: RoomId)
    ensures var w := Reached(users, limits, moves);
            InRoom(w, a, room) && InRoom(w, b, room)
            && w.clients[a].db.cursors[room] <= w.clients[b].db.cursors[room] ==>
              var ga, gb := w.clients[a].db.groups[room].group, w.clients[b].db.groups[room].group;
              ga.epoch <= gb.epoch && ga.roster <= gb.roster && |ga.roster| == ga.epoch + 1
  {
    var w := Reached(users, limits, moves);
    ReachedGood(users, limits, moves);
    Convergence(users, limits, moves, a, b, room);
    Convergence(users, limits, moves, b, a, room);
    if InRoom(w, a, room) && InRoom(w, b, room)
       && w.clients[a].db.cursors[room] <= w.clients[b].db.cursors[room] {
      GroupsGrow(w.relay, room, w.clients[a].db.cursors[room], w.clients[b].db.cursors[room]);
      OneEpochPerMember(w.relay, room, w.clients[a].db.cursors[room]);
    }
  }

  lemma {:induction false} GroupsGrow(t: Tables, room: RoomId, m: nat, n: nat)
    requires room in t.rooms && m <= n <= |Log(t, room)|
    ensures GroupAt(t, room, m).epoch <= GroupAt(t, room, n).epoch
    ensures GroupAt(t, room, m).roster <= GroupAt(t, room, n).roster
    decreases n
  {
    if m < n {
      GroupsGrow(t, room, m, n - 1);
      GroupAtNext(t, room, n - 1);
    }
  }

  lemma {:induction false} OneEpochPerMember(t: Tables, room: RoomId, n: nat)
    requires HonestLogs(t) && room in t.rooms && n <= |Log(t, room)|
    ensures |GroupAt(t, room, n).roster| == GroupAt(t, room, n).epoch + 1
  {
    if n > 0 {
      OneEpochPerMember(t, room, n - 1);
      GroupAtNext(t, room, n - 1);
      assert HonestEvent(t, room, n - 1);
    } else {
      assert Log(t, room)[..0] == [];
    }
  }

  /** No event is lost, doubled, reordered or skipped: from the start of a room to the cursor
      the inbox holds exactly the log's events, all applied. */
  lemma AppliedExactly(users: set<UserId>, limits: Limits, moves: seq<Move>, user: UserId, room: RoomId, k: nat)
    ensures var w := Reached(users, limits, moves);
            InRoom(w, user, room) && w.clients[user].starts[room] <= k < w.clients[user].db.cursors[room] ==>
              && k < |Log(w.relay, room)|
              && Log(w.relay, room)[k].id in w.clients[user].db.inbox
              && w.clients[user].db.inbox[Log(w.relay, room)[k].id] == InboxRow(Log(w.relay, room)[k], Applied)
  {
    var w := Reached(users, limits, moves);
    ReachedGood(users, limits, moves);
    if InRoom(w, user, room) && w.clients[user].starts[room] <= k < w.clients[user].db.cursors[room] {
      assert ClientGood(w.relay, w.issued, user, w.clients[user]);
      AppliedRow(w.relay, user, w.clients[user].starts, w.clients[user].db, room, k);
    }
  }

  lemma AppliedRow(t: Tables, user: UserId, starts: Starts, db: Database, room: RoomId, k: nat)
    requires ClientOk(db, starts) && InboxTrue(t, db.inbox) && room in db.cursors
             && starts[room] <= k < db.cursors[room]
    ensures k < |Log(t, room)| && Log(t, room)[k].id in db.inbox
    ensures db.inbox[Log(t, room)[k].id] == InboxRow(Log(t, room)[k], Applied)
  {
    assert HasRowAt(db, room, k);
    var id :| id in db.inbox && At(db.inbox[id], room, k);
    assert InLog(t, db.inbox[id].event) && RowPlaced(db, starts, db.inbox[id]);
  }

  // ----- progress -----

  /** A receipt can always be saved: its identifier never holds another request. */
  lemma FinishWorks(issued: map<MessageId, Message>, user: UserId, db: Database, event: Event, state: RowState)
    requires OutboxIssued(issued, user, db.outbox)
    ensures FinishEvent(db, user, event, state).Some?
  {
    var id := AcknowledgementId(user, [event.id], []);
    if id in db.outbox {
      assert Issued(issued, Message(user, id, db.outbox[id].request));
    }
  }

  lemma OwnApplies(t: Tables, issued: map<MessageId, Message>, user: UserId, db: Database, event: Event)
    requires AttemptsOk(db) && Synced(t, user, db) && OutboxIssued(issued, user, db.outbox)
    requires InLog(t, event) && event.sender == user && HasGroup(db, event.operation.room)
    requires event.operation.room in db.cursors && db.cursors[event.operation.room] == event.operation.parent
    ensures ApplyOwn(db, user, event).Some?
  {
    assert Waiting(db.outbox, event);
    OwnGroup(t, user, db, event);
    var db0 := if event.operation.contentType == Commit then ApplyAcceptedCommit(db, event.operation.room).value
               else db;
    FinishWorks(issued, user, Claim(db0, event), event, Applied);
  }

  lemma OwnMoves(user: UserId, db: Database, event: Event)
    requires ApplyOwn(db, user, event).Some? && event.operation.room in db.groups
    ensures Cursor(ApplyOwn(db, user, event).value, event.operation.room) == event.operation.parent + 1
  {
    var db' := ApplyOwn(db, user, event).value;
    ApplyOwnIs(db, user, event, db');
  }

  lemma OtherApplies(t: Tables, issued: map<MessageId, Message>, user: UserId, db: Database, event: Event)
    requires HonestLogs(t) && GroupsTrue(t, user, db.cursors, db.groups) && OutboxIssued(issued, user, db.outbox)
    requires InLog(t, event) && event.sender != user && HasGroup(db, event.operation.room)
    requires event.operation.room in db.cursors && db.cursors[event.operation.room] == event.operation.parent
    ensures ApplyOther(db, user, event).Some?
    ensures Cursor(ApplyOther(db, user, event).value, event.operation.room)
            == if Stranger(db, event) then event.operation.parent else event.operation.parent + 1
  {
    HonestOpens(t, user, db, event);
    match ProcessBound(db, user, event) {
      case FaultBlocked =>
      case Opened(db1, plaintext) =>
        var db2 := Remember(db1, event, plaintext);
        FinishWorks(issued, user, db2, event, Applied);
        FinishIs(db2, user, event, Applied, FinishEvent(db2, user, event, Applied).value);
    }
  }

  /** The event adds somebody whose card the user has not verified. */
  predicate Stranger(db: Database, event: Event) {
    event.operation.contentType == Commit && event.operation.body.content.CommitMessage?
    && event.operation.body.content.added !in db.contacts
  }

  /** The event is received and next in its room, and no own attempt is unresolved. */
  predicate IsNext(db: Database, event: Event) {
    && event.id in db.inbox && db.inbox[event.id].event == event
    && event.operation.room in db.groups && event.operation.room in db.cursors
    && db.cursors[event.operation.room] == event.operation.parent
    && !Unresolved(db, event.operation.room)
  }

  /** The step applies the event and moves the cursor by one, unless it has to wait. */
  ghost predicate Applies(db: Database, user: UserId, event: Event) {
    && Next(db, user, Apply(event)).Some?
    && Cursor(Next(db, user, Apply(event)).value, event.operation.room)
       == event.operation.parent + (if event.sender != user && Stranger(db, event) then 0 else 1)
  }

  lemma OwnNext(t: Tables, issued: map<MessageId, Message>, user: UserId, db: Database, event: Event)
    requires AttemptsOk(db) && Synced(t, user, db) && OutboxIssued(issued, user, db.outbox)
    requires IsNext(db, event) && HasGroup(db, event.operation.room) && event.sender == user && InLog(t, event)
    ensures Applies(db, user, event)
  {
    OwnApplies(t, issued, user, db, event);
    OwnMoves(user, db, event);
  }

  lemma OtherNext(t: Tables, issued: map<MessageId, Message>, user: UserId, db: Database, event: Event)
    requires HonestLogs(t) && GroupsTrue(t, user, db.cursors, db.groups) && OutboxIssued(issued, user, db.outbox)
    requires IsNext(db, event) && HasGroup(db, event.operation.room) && event.sender != user && InLog(t, event)
    ensures Applies(db, user, event)
  {
    OtherApplies(t, issued, user, db, event);
  }

  lemma NextApplies(
    t: Tables, issued: map<MessageId, Message>, user: UserId, starts: Starts, db: Database, event: Event)
    requires HonestLogs(t) && CursorsOk(db, starts) && AttemptsOk(db) && Synced(t, user, db)
    requires OutboxIssued(issued, user, db.outbox) && IsNext(db, event)
    ensures Applies(db, user, event)
  {
    assert InLog(t, db.inbox[event.id].event);
    if event.sender == user {
      OwnNext(t, issued, user, db, event);
    } else {
      OtherNext(t, issued, user, db, event);
    }
  }

  /** A received event that is next in its room always applies and moves the cursor by one;
      the only thing it can wait for is an unverified contact that somebody else added. */
  lemma NextEventApplies(users: set<UserId>, limits: Limits, moves: seq<Move>, user: UserId, event: Event)
    ensures var w := Reached(users, limits, moves);
            user in w.clients && IsNext(w.clients[user].db, event) ==> Applies(w.clients[user].db, user, event)
  {
    var w := Reached(users, limits, moves);
    ReachedGood(users, limits, moves);
    if user in w.clients && IsNext(w.clients[user].db, event) {
      assert ClientGood(w.relay, w.issued, user, w.clients[user]);
      NextApplies(w.relay, w.issued, user, w.clients[user].starts, w.clients[user].db, event);
    }
  }

  // ----- Welcomes -----

  /** At this cursor the Welcome inbox agrees with the relay's queue for the user. */
  ghost predicate QueueCopied(t: Tables, user: UserId, db: Database, cursor: nat) {
    && db.welcomeCursor <= |t.welcomes|
    && (cursor in db.welcomes <==> 1 <= cursor <= db.welcomeCursor && t.welcomes[cursor - 1].recipient == user)
    && (cursor in db.welcomes ==> db.welcomes[cursor].record == t.welcomes[cursor - 1].record.(cursor := cursor))
  }

  lemma QueueIsCopied(t: Tables, user: UserId, db: Database, cursor: nat)
    requires WelcomesTrue(t, user, db.welcomes, db.welcomeCursor)
    ensures QueueCopied(t, user, db, cursor)
  {
    assert cursor in db.welcomes <==> cursor <= db.welcomeCursor && Addressed(t, user, cursor);
    assert cursor in db.welcomes ==> Delivered(t, user, db.welcomes[cursor].record);
  }

  /** The Welcome inbox is the relay's queue for the user up to the Welcome cursor. */
  lemma WelcomeInbox(users: set<UserId>, limits: Limits, moves: seq<Move>, user: UserId, cursor: nat)
    ensures var w := Reached(users, limits, moves);
            user in w.clients ==> QueueCopied(w.relay, user, w.clients[user].db, cursor)
  {
    var w := Reached(users, limits, moves);
    ClientReached(users, limits, moves, user);
    if user in w.clients { QueueIsCopied(w.relay, user, w.clients[user].db, cursor); }
  }

  /** The Welcome was signed by the member who sent it, for exactly this user, room, event and
      sequence, and carries the group of the log there. */
  ghost predicate Authentic(t: Tables, user: UserId, welcome: WelcomeDelivery) {
    && welcome.room in t.rooms && 1 <= welcome.sequence <= |Log(t, welcome.room)|
    && welcome.attachment.body.content == WelcomeMessage(welcome.room, GroupAt(t, welcome.room, welcome.sequence))
    && welcome.attachment.signature
       == Signature(welcome.inviter, Transcript(user, welcome.room, welcome.event, welcome.sequence,
                                                welcome.attachment.body))
    && Log(t, welcome.room)[welcome.sequence - 1].id == welcome.event
    && Log(t, welcome.room)[welcome.sequence - 1].sender == welcome.inviter
  }

  lemma DeliveredIsAuthentic(t: Tables, user: UserId, welcome: WelcomeDelivery)
    requires LogOk(t) && WelcomesOk(t) && HonestLogs(t) && Delivered(t, user, welcome)
    ensures Authentic(t, user, welcome)
  {
    WelcomeGroup(t, user, welcome);
    var event := WelcomePublished(t, welcome.cursor - 1);
    assert HonestEvent(t, event.operation.room, event.operation.parent);
  }

  lemma WelcomeAuthentic(users: set<UserId>, limits: Limits, moves: seq<Move>, user: UserId, cursor: nat)
    ensures var w := Reached(users, limits, moves);
            user in w.clients && cursor in w.clients[user].db.welcomes ==>
              Authentic(w.relay, user, w.clients[user].db.welcomes[cursor].record)
  {
    var w := Reached(users, limits, moves);
    ReachedGood(users, limits, moves);
    ClientReached(users, limits, moves, user);
    if user in w.clients && cursor in w.clients[user].db.welcomes {
      DeliveredIsAuthentic(w.relay, user, w.clients[user].db.welcomes[cursor].record);
    }
  }

  // ----- attempts -----

  lemma OneReservingRoom(db: Database, id: MessageId, recipient: UserId)
    requires AttemptsOk(db) && AttemptsDistinct(db)
    requires id in db.outbox && db.outbox[id].request == ReserveKeyPackage(recipient)
    ensures |ReservingRooms(db.intents, id, recipient)| == 1
  {
    assert Owned(db, id);
    var room: RoomId :| AttemptOf(db, room, id);
    forall r | r in ReservingRooms(db.intents, id, recipient) ensures r == room {}
    assert ReservingRooms(db.intents, id, recipient) == {room};
  }

  /** A room has at most one append underway: the intent's, built at the cursor. The MLS group
      holds a pending commit exactly while that append is a commit. */
  ghost predicate AppendBooked(db: Database, room: RoomId, id: MessageId) {
    (id in db.outbox && db.outbox[id].request.AppendRoomOperation? && db.outbox[id].request.operation.room == room) ==>
      && room in db.intents && db.intents[room].attempt == Some(id)
      && room in db.cursors && db.outbox[id].request.operation.parent == db.cursors[room]
      && room in db.groups
      && (db.groups[room].pending.Some? <==> db.outbox[id].request.operation.contentType == Commit)
  }

  /** An intent that waits to be built finds no pending commit in its way. */
  ghost predicate Unhindered(db: Database, room: RoomId) {
    room in db.intents && db.intents[room].attempt.None? ==> room in db.groups && db.groups[room].pending.None?
  }

  /** A commit of the room waits in the outbox. */
  ghost predicate CommitWaits(db: Database, room: RoomId) {
    exists id :: id in db.outbox && db.outbox[id].request.AppendRoomOperation?
                 && db.outbox[id].request.operation.room == room
                 && db.outbox[id].request.operation.contentType == Commit
  }

  /** An attempt is in the outbox, and a commit is pending exactly while one waits there. */
  ghost predicate PendingBooked(db: Database, room: RoomId) {
    && (room in db.intents && db.intents[room].attempt.Some? ==>
          AttemptOf(db, room, db.intents[room].attempt.value))
    && (room in db.groups ==> (db.groups[room].pending.Some? <==> CommitWaits(db, room)))
  }

  /** A reservation in the outbox belongs to exactly one intent. */
  ghost predicate ReservationBooked(db: Database, id: MessageId) {
    id in db.outbox && db.outbox[id].request.ReserveKeyPackage? ==>
      |ReservingRooms(db.intents, id, db.outbox[id].request.recipient)| == 1
  }

  lemma AppendIsBooked(t: Tables, user: UserId, starts: Starts, db: Database, room: RoomId, id: MessageId)
    requires CursorsOk(db, starts) && AttemptsOk(db) && PendingTrue(db.intents, db.outbox, db.groups)
    requires AppendsTrue(t, user, db.cursors, db.outbox)
    ensures AppendBooked(db, room, id) && Unhindered(db, room)
  {
    if id in db.outbox && db.outbox[id].request.AppendRoomOperation? {
      AttemptIs(db, id);
      assert AppendTrue(t, user, db.cursors, id, db.outbox[id].request.operation);
    }
  }

  lemma PendingIsBooked(t: Tables, user: UserId, starts: Starts, db: Database, room: RoomId)
    requires CursorsOk(db, starts) && AttemptsOk(db) && PendingTrue(db.intents, db.outbox, db.groups)
    requires AppendsTrue(t, user, db.cursors, db.outbox)
    ensures PendingBooked(db, room)
  {
    if CommitWaits(db, room) {
      var id :| id in db.outbox && db.outbox[id].request.AppendRoomOperation?
                && db.outbox[id].request.operation.room == room
                && db.outbox[id].request.operation.contentType == Commit;
      AppendIsBooked(t, user, starts, db, room, id);
    }
    if room in db.groups && db.groups[room].pending.Some? {
      AppendIsBooked(t, user, starts, db, room, db.intents[room].attempt.value);
    }
  }

  lemma AttemptBookkeeping(
    users: set<UserId>, limits: Limits, moves: seq<Move>, user: UserId, room: RoomId, id: MessageId)
    ensures var w := Reached(users, limits, moves);
            user in w.clients ==>
              && AppendBooked(w.clients[user].db, room, id)
              && Unhindered(w.clients[user].db, room)
              && PendingBooked(w.clients[user].db, room)
              && ReservationBooked(w.clients[user].db, id)
  {
    var w := Reached(users, limits, moves);
    ClientReached(users, limits, moves, user);
    if user in w.clients {
      var db := w.clients[user].db;
      AppendIsBooked(w.relay, user, w.clients[user].starts, db, room, id);
      PendingIsBooked(w.relay, user, w.clients[user].starts, db, room);
      if id in db.outbox && db.outbox[id].request.ReserveKeyPackage? {
        OneReservingRoom(db, id, db.outbox[id].request.recipient);
      }
    }
  }
}
