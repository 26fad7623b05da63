/**
  With an honest relay a member's history of a room is the log: the messages from the start
  boundary to the cursor, and the member's own message that is underway.
 */
module HistoryLogs {
  import opened Records
  import opened RelaySpec
  import opened RelayInvariants
  import opened ClientSpec
  import opened ClientInvariants
  import opened Honest
  import opened LogFacts
  import opened World
  import opened Sync
  import opened SyncSteps
  import opened WorldInvariant
  import opened Histories
  import opened Agreement
  import opened HistoryAgreement

  // ----- every message that is ever issued has a body the relay takes -----

  predicate BodyOk(request: Request) {
    request.AppendRoomOperation? && IsMessage(request.operation) ==>
      0 < |request.operation.body.bytes| <= MAX_MLS_BLOB_BYTES
  }

  ghost predicate BodiesOk(issued: map<MessageId, Message>) { forall id :: id in issued ==> BodyOk(issued[id].request) }

  lemma BuiltBody(db: Database, user: UserId, room: RoomId, id: MessageId, bytes: Ciphertext, db': Database)
    requires Next(db, user, Build(room, id, bytes)) == Some(db') && id in db'.outbox
    ensures BodyOk(db'.outbox[id].request)
  {
    var intent := db.intents[room];
    if intent.package.Some? {
      AddedBody(db, user, room, intent, id, bytes);
    } else if intent.target.None? {
      SentBody(db, user, room, intent, id, bytes);
    }
  }

  lemma SentBody(db: Database, user: UserId, room: RoomId, intent: Intent, id: MessageId, bytes: Ciphertext)
    requires id !in db.outbox && Encrypted(intent, bytes) && intent.target.None?
    ensures var built := BuildSend(db, user, room, intent, id, bytes);
            built.Some? ==> id in built.value.outbox && BodyOk(built.value.outbox[id].request)
  {}

  lemma AddedBody(db: Database, user: UserId, room: RoomId, intent: Intent, id: MessageId, bytes: Ciphertext)
    requires id !in db.outbox
    ensures var built := BuildAdd(db, user, room, intent, id, bytes);
            built.Some? ==> id in built.value.outbox && BodyOk(built.value.outbox[id].request)
  {}

  lemma MoveBodies(w: World, limits: Limits, move: Move)
    requires BodiesOk(w.issued)
    ensures BodiesOk(Moved(w, limits, move).issued)
  {
    if Enabled(w, move) && move.Act? && move.action.Build? {
      var db := w.clients[move.user].db;
      var db' := Next(db, move.user, move.action).value;
      if move.action.id in db'.outbox {
        BuiltBody(db, move.user, move.action.room, move.action.id, move.action.bytes, db');
      }
    }
  }

  // ----- every append the relay has answered was honest -----

  ghost predicate AnsweredHonest(t: Tables, row: JournalRow) {
    row.request.AppendRoomOperation? ==> HonestAppend(t, row.user, row.id, row.request.operation)
  }

  ghost predicate JournalHonest(t: Tables) { forall i :: 0 <= i < |t.journal| ==> AnsweredHonest(t, t.journal[i]) }

  lemma RowStaysHonest(t: Tables, t': Tables, row: JournalRow)
    requires Extends(t, t') && AnsweredHonest(t, row)
    ensures AnsweredHonest(t', row)
  {
    if row.request.AppendRoomOperation? {
      HonestAppendStable(t, t', row.user, row.id, row.request.operation);
    }
  }

  lemma JournalStaysHonest(t: Tables, t': Tables, row: JournalRow)
    requires Extends(t, t') && JournalHonest(t)
    requires t'.journal == t.journal || (t'.journal == t.journal + [row] && AnsweredHonest(t, row))
    ensures JournalHonest(t')
  {
    forall i | 0 <= i < |t'.journal| ensures AnsweredHonest(t', t'.journal[i]) {
      assert AnsweredHonest(t, t'.journal[i]);
      RowStaysHonest(t, t', t'.journal[i]);
    }
  }

  /** What one call does to the journal. */
  lemma JournalEffect(t: Tables, limits: Limits, call: Call)
    requires SubscribedRoomsExist(t)
    ensures var t' := After(t, limits, call);
            && Extends(t, t')
            && (|| t'.journal == t.journal
                || (&& Lookup(t.journal, call.user, call.id).None?
                    && t'.journal == t.journal
                                     + [JournalRow(call.user, call.id, call.request, Reply(t, limits, call))]))
  {
    DeliverEffect(t, limits, call);
    EffectExtends(t, After(t, limits, call), limits, call, Reply(t, limits, call));
  }

  lemma ServeHonest(w: World, limits: Limits, message: Message, env: Environment)
    requires Good(w, limits) && JournalHonest(w.relay) && message in w.sent
    ensures JournalHonest(Served(w, limits, message, env).relay)
  {
    var call := Call(message.user, message.id, message.request, env);
    var t, t' := w.relay, After(w.relay, limits, call);
    var row := JournalRow(call.user, call.id, call.request, Reply(t, limits, call));
    JournalEffect(t, limits, call);
    if t'.journal != t.journal && message.request.AppendRoomOperation? {
      AppendFromOutbox(w, limits, message);
    }
    JournalStaysHonest(t, t', row);
  }

  lemma MoveHonest(w: World, limits: Limits, move: Move)
    requires Good(w, limits) && JournalHonest(w.relay)
    ensures JournalHonest(Moved(w, limits, move).relay)
  {
    if Enabled(w, move) && move.Serve? {
      ServeHonest(w, limits, move.message, move.env);
    } else {
      assert Moved(w, limits, move).relay == w.relay;
    }
  }

  ghost predicate Answering(w: World) { BodiesOk(w.issued) && JournalHonest(w.relay) && VerdictsTrue(w.relay) }

  lemma {:induction false} RunAnswering(w: World, limits: Limits, moves: seq<Move>)
    requires Good(w, limits) && Answering(w)
    ensures Good(RunWorld(w, limits, moves), limits) && Answering(RunWorld(w, limits, moves))
    decreases |moves|
  {
    if moves != [] {
      MoveGood(w, limits, moves[0]);
      MoveBodies(w, limits, moves[0]);
      MoveHonest(w, limits, moves[0]);
      MoveVerdicts(w, limits, moves[0]);
      RunAnswering(Moved(w, limits, moves[0]), limits, moves[1..]);
    }
  }

  lemma ReachedAnswering(users: set<UserId>, limits: Limits, moves: seq<Move>)
    ensures var w := Reached(users, limits, moves); Good(w, limits) && HistoriesTrue(w) && Answering(w)
  {
    ReachedHistories(users, limits, moves);
    StartGood(users, limits);
    RunAnswering(Start(users), limits, moves);
  }

  // ----- no message is refused for good -----

  /** The only message the relay refuses for good is one built at the end of the numbering. */
  lemma RefusedAtTheEnd(w: World, limits: Limits, user: UserId, id: MessageId)
    requires Good(w, limits) && Answering(w) && Dropped(w.relay, user, id)
    ensures var operation := Lookup(w.relay.journal, user, id).value.request.operation;
            operation.parent >= I64_MAX && |Log(w.relay, operation.room)| >= I64_MAX
  {
    var t := w.relay;
    LookupFinds(t.journal, user, id);
    var row := Lookup(t.journal, user, id).value;
    assert VerdictTrue(row) && AnsweredHonest(t, row);
    assert Issued(w.issued, Message(row.user, row.id, row.request));
    assert BodyOk(row.request);
  }

  /** The relay has refused an own message for good if and only if it has answered one that was
      built at the end of the numbering, after the largest number of events a log can have. */
  lemma RefusedExactly(users: set<UserId>, limits: Limits, moves: seq<Move>, user: UserId, id: MessageId)
    ensures var w := Reached(users, limits, moves);
            Dropped(w.relay, user, id) <==>
              && Lookup(w.relay.journal, user, id).Some?
              && var request := Lookup(w.relay.journal, user, id).value.request;
                 request.AppendRoomOperation? && IsMessage(request.operation) && request.operation.parent >= I64_MAX
  {
    var w := Reached(users, limits, moves);
    ReachedAnswering(users, limits, moves);
    LookupFinds(w.relay.journal, user, id);
    if Dropped(w.relay, user, id) {
      RefusedAtTheEnd(w, limits, user, id);
    } else if Lookup(w.relay.journal, user, id).Some? {
      assert VerdictTrue(Lookup(w.relay.journal, user, id).value);
    }
  }

  // ----- the history is the log -----

  /** The identifiers of a log's messages in a range. */
  function MessageIds(log: seq<Event>, start: nat, end: nat): set<MessageId>
    requires end <= |log|
  {
    set k | start <= k < end && IsMessage(log[k].operation) :: log[k].id
  }

  /** A room's messages in the outbox. */
  function WaitingIds(outbox: map<MessageId, OutboxRow>, room: RoomId): set<MessageId> {
    set id | id in outbox && Underway(outbox, id) && outbox[id].request.operation.room == room
  }

  function ShownIds(history: map<MessageId, HistoryRow>, room: RoomId): set<MessageId> {
    set id | id in history && history[id].room == room
  }

  /** The history of a room: exactly the log's messages in the range, each with its place, author
      and text, and at most one more, the own message that waits on the current cursor. */
  ghost predicate IsTheLog(db: Database, user: UserId, room: RoomId, log: seq<Event>, start: nat, end: nat)
    requires end <= |log|
  {
    && ShownIds(db.history, room) == MessageIds(log, start, end) + WaitingIds(db.outbox, room)
    && MessageIds(log, start, end) !! WaitingIds(db.outbox, room) && |WaitingIds(db.outbox, room)| <= 1
    && (forall k :: start <= k < end && IsMessage(log[k].operation) ==>
          log[k].id in db.history && db.history[log[k].id] == RowOf(log[k]))
    && (forall id :: id in WaitingIds(db.outbox, room) ==>
          && id in db.history && db.history[id] == RowOf(Event(id, user, db.outbox[id].request.operation))
          && db.outbox[id].request.operation.parent == end)
  }

  ghost predicate Member(w: World, limits: Limits, user: UserId, room: RoomId) {
    Good(w, limits) && HistoriesTrue(w) && Answering(w) && InRoom(w, user, room) && room in w.relay.rooms
    && w.clients[user].db.cursors[room] <= |Log(w.relay, room)| < I64_MAX
  }

  lemma LoggedShown(w: World, limits: Limits, user: UserId, room: RoomId, k: nat)
    requires Member(w, limits, user, room)
    requires w.clients[user].starts[room] <= k < w.clients[user].db.cursors[room]
    requires IsMessage(Log(w.relay, room)[k].operation)
    ensures var event := Log(w.relay, room)[k]; var db := w.clients[user].db;
            && event.id in db.history && db.history[event.id] == RowOf(event)
            && event.operation.room == room && event.id !in WaitingIds(db.outbox, room)
  {
    var t, db, event := w.relay, w.clients[user].db, Log(w.relay, room)[k];
    assert ClientGood(t, w.issued, user, w.clients[user]);
    AppliedDisplays(w, limits, user, room, k);
    LogSequences(t, room);
    assert event.id in WaitingIds(db.outbox, room) ==>
        AppendTrue(t, user, db.cursors, event.id, db.outbox[event.id].request.operation);
    if event.id in db.outbox {
      LoggedRequest(t, w.issued, user, db.outbox, event);
    }
  }

  /** An event of the log under an identifier in the outbox is about that request. */
  lemma LoggedRequest(
    t: Tables, issued: map<MessageId, Message>, user: UserId, outbox: map<MessageId, OutboxRow>, event: Event)
    requires JournalOk(t.journal) && AcceptedOk(t) && JournalIssued(issued, t.journal) && InLog(t, event)
    requires OutboxIssued(issued, user, outbox) && event.id in outbox
    ensures outbox[event.id].request == AppendRoomOperation(event.operation)
  {
    LogJournaled(t, event);
    LookupFinds(t.journal, event.sender, event.id);
    SameRequest(issued, Message(user, event.id, outbox[event.id].request),
                Message(event.sender, event.id, AppendRoomOperation(event.operation)));
  }

  lemma WaitingShown(w: World, limits: Limits, user: UserId, room: RoomId, id: MessageId)
    requires Member(w, limits, user, room) && id in WaitingIds(w.clients[user].db.outbox, room)
    ensures var db := w.clients[user].db;
            && id in db.history && db.history[id] == RowOf(Event(id, user, db.outbox[id].request.operation))
            && db.outbox[id].request.operation.parent == db.cursors[room]
            && room in db.intents && db.intents[room].attempt == Some(id)
  {
    var db := w.clients[user].db;
    assert ClientGood(w.relay, w.issued, user, w.clients[user]);
    assert RowTrue(w.relay, user, db.inbox, db.outbox, db.history, id);
    AppendIsBooked(w.relay, user, w.clients[user].starts, db, room, id);
    assert AppendBooked(db, room, id);
  }

  lemma ShownExplained(w: World, limits: Limits, user: UserId, room: RoomId, id: MessageId)
    requires Member(w, limits, user, room) && id in ShownIds(w.clients[user].db.history, room)
    ensures var db := w.clients[user].db;
            id in MessageIds(Log(w.relay, room), w.clients[user].starts[room], db.cursors[room])
            || id in WaitingIds(db.outbox, room)
  {
    var t, db := w.relay, w.clients[user].db;
    assert ClientGood(t, w.issued, user, w.clients[user]);
    assert RowTrue(t, user, db.inbox, db.outbox, db.history, id);
    if Shown(db.inbox, id) {
      var event := db.inbox[id].event;
      assert InLog(t, event) && RowPlaced(db, w.clients[user].starts, db.inbox[id]);
      assert Log(t, room)[event.operation.parent] == event;
    } else if Dropped(t, user, id) {
      RefusedAtTheEnd(w, limits, user, id);
    }
  }

  lemma AtMostOne<T>(s: set<T>)
    requires forall a, b :: a in s && b in s ==> a == b
    ensures |s| <= 1
  {
    if s != {} {
      var a :| a in s;
      assert s == {a};
    }
  }

  lemma AllLoggedShown(w: World, limits: Limits, user: UserId, room: RoomId)
    requires Member(w, limits, user, room)
    ensures var db, log := w.clients[user].db, Log(w.relay, room);
            var ids := MessageIds(log, w.clients[user].starts[room], db.cursors[room]);
            && ids <= ShownIds(db.history, room) && ids !! WaitingIds(db.outbox, room)
            && (forall k :: w.clients[user].starts[room] <= k < db.cursors[room] && IsMessage(log[k].operation) ==>
                  log[k].id in db.history && db.history[log[k].id] == RowOf(log[k]))
  {
    var db, log := w.clients[user].db, Log(w.relay, room);
    forall k | w.clients[user].starts[room] <= k < db.cursors[room] && IsMessage(log[k].operation)
      ensures log[k].id in db.history && db.history[log[k].id] == RowOf(log[k])
      ensures log[k].id in ShownIds(db.history, room) && log[k].id !in WaitingIds(db.outbox, room)
    {
      LoggedShown(w, limits, user, room, k);
    }
  }

  lemma AllWaitingShown(w: World, limits: Limits, user: UserId, room: RoomId)
    requires Member(w, limits, user, room)
    ensures var db := w.clients[user].db;
            var ids := WaitingIds(db.outbox, room);
            && ids <= ShownIds(db.history, room) && |ids| <= 1
            && (forall id :: id in ids ==>
                  && id in db.history && db.history[id] == RowOf(Event(id, user, db.outbox[id].request.operation))
                  && db.outbox[id].request.operation.parent == db.cursors[room])
  {
    var db := w.clients[user].db;
    forall id | id in WaitingIds(db.outbox, room)
      ensures id in db.history && db.history[id] == RowOf(Event(id, user, db.outbox[id].request.operation))
      ensures db.outbox[id].request.operation.parent == db.cursors[room]
      ensures room in db.intents && db.intents[room].attempt == Some(id)
    {
      WaitingShown(w, limits, user, room, id);
    }
    AtMostOne(WaitingIds(db.outbox, room));
  }

  lemma MemberHistory(w: World, limits: Limits, user: UserId, room: RoomId)
    requires Member(w, limits, user, room)
    ensures IsTheLog(w.clients[user].db, user, room, Log(w.relay, room), w.clients[user].starts[room],
                     w.clients[user].db.cursors[room])
  {
    AllLoggedShown(w, limits, user, room);
    AllWaitingShown(w, limits, user, room);
    AllExplained(w, limits, user, room);
  }

  lemma AllExplained(w: World, limits: Limits, user: UserId, room: RoomId)
    requires Member(w, limits, user, room)
    ensures var db := w.clients[user].db;
            ShownIds(db.history, room)
            <= MessageIds(Log(w.relay, room), w.clients[user].starts[room], db.cursors[room])
               + WaitingIds(db.outbox, room)
  {
    forall id | id in ShownIds(w.clients[user].db.history, room)
      ensures id in MessageIds(Log(w.relay, room), w.clients[user].starts[room], w.clients[user].db.cursors[room])
                    + WaitingIds(w.clients[user].db.outbox, room)
    {
      ShownExplained(w, limits, user, room, id);
    }
  }

  /** History agreement: in every reachable state a member's history of a room is exactly the
      log's messages from the member's start boundary to its cursor, plus at most one row for
      the member's own message underway. (A log that has used up its numbers is left out.) */
  lemma HistoryIsTheLog(users: set<UserId>, limits: Limits, moves: seq<Move>, user: UserId, room: RoomId)
    ensures var w := Reached(users, limits, moves);
            InRoom(w, user, room) && |Log(w.relay, room)| < I64_MAX ==>
              var client := w.clients[user];
              && client.db.cursors[room] <= |Log(w.relay, room)|
              && IsTheLog(client.db, user, room, Log(w.relay, room), client.starts[room], client.db.cursors[room])
  {
    var w := Reached(users, limits, moves);
    ReachedAnswering(users, limits, moves);
    if InRoom(w, user, room) && |Log(w.relay, room)| < I64_MAX {
      Convergence(users, limits, moves, user, user, room);
      MemberHistory(w, limits, user, room);
    }
  }
}
