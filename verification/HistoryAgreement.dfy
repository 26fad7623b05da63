/** All members show the same messages, and the relay's verdicts on them. */
module HistoryAgreement {
  import opened Records
  import opened RelaySpec
  import opened RelayInvariants
  import opened ClientSpec
  import opened ClientInvariants
  import opened Honest
  import opened LogFacts
  import opened World
  import opened Sync
  import opened SyncSteps
  import opened WorldInvariant
  import opened Histories
  import opened Agreement

  lemma ReachedHistories(users: set<UserId>, limits: Limits, moves: seq<Move>)
    ensures Good(Reached(users, limits, moves), limits) && HistoriesTrue(Reached(users, limits, moves))
  {
    StartGood(users, limits);
    StartHistories(users);
    RunHistories(Start(users), limits, moves);
  }

  lemma StartHistories(users: set<UserId>)
    ensures HistoriesTrue(Start(users))
  {}

  /** The user has applied the k-th event of the room. */
  predicate HasApplied(w: World, user: UserId, room: RoomId, k: nat) {
    InRoom(w, user, room) && w.clients[user].starts[room] <= k < w.clients[user].db.cursors[room]
  }

  /** The message is in the user's history with the room, place, author and text of the log. */
  ghost predicate Displays(w: World, user: UserId, event: Event)
    requires user in w.clients && IsMessage(event.operation)
  {
    event.id in w.clients[user].db.history && w.clients[user].db.history[event.id] == RowOf(event)
  }

  lemma AppliedDisplays(w: World, limits: Limits, user: UserId, room: RoomId, k: nat)
    requires Good(w, limits) && HistoriesTrue(w) && HasApplied(w, user, room, k)
    ensures k < |Log(w.relay, room)|
    ensures IsMessage(Log(w.relay, room)[k].operation) ==> Displays(w, user, Log(w.relay, room)[k])
  {
    assert ClientGood(w.relay, w.issued, user, w.clients[user]);
    var db := w.clients[user].db;
    AppliedRow(w.relay, user, w.clients[user].starts, db, room, k);
    assert RowTrue(w.relay, user, db.inbox, db.outbox, db.history, Log(w.relay, room)[k].id);
  }

  /** Whoever has applied a message shows it, and all show the same. */
  lemma SameMessages(users: set<UserId>, limits: Limits, moves: seq<Move>, a: UserId, b: UserId, room: RoomId, k: nat)
    ensures var w := Reached(users, limits, moves);
            HasApplied(w, a, room, k) && HasApplied(w, b, room, k) ==>
              && k < |Log(w.relay, room)|
              && (IsMessage(Log(w.relay, room)[k].operation) ==>
                    Displays(w, a, Log(w.relay, room)[k]) && Displays(w, b, Log(w.relay, room)[k]))
  {
    var w := Reached(users, limits, moves);
    ReachedHistories(users, limits, moves);
    if HasApplied(w, a, room, k) && HasApplied(w, b, room, k) {
      AppliedDisplays(w, limits, a, room, k);
      AppliedDisplays(w, limits, b, room, k);
    }
  }

  /** Nothing else is shown: every row is a message of the log that the cursor has passed, an
      own message in the outbox, or an own message that the relay refused for good. */
  lemma NothingElse(users: set<UserId>, limits: Limits, moves: seq<Move>, user: UserId, id: MessageId)
    ensures var w := Reached(users, limits, moves);
            user in w.clients && id in w.clients[user].db.history ==>
              var db := w.clients[user].db;
              || (id in db.inbox && InLog(w.relay, db.inbox[id].event) && Passed(db.cursors, db.inbox[id].event)
                  && IsMessage(db.inbox[id].event.operation) && db.history[id] == RowOf(db.inbox[id].event))
              || (Underway(db.outbox, id) && db.history[id] == RowOf(Event(id, user, db.outbox[id].request.operation)))
              || Dropped(w.relay, user, id)
  {
    var w := Reached(users, limits, moves);
    ReachedHistories(users, limits, moves);
    if user in w.clients && id in w.clients[user].db.history {
      assert ClientGood(w.relay, w.issued, user, w.clients[user]);
      RowExplained(w.relay, user, w.clients[user].starts, w.clients[user].db, id);
    }
  }

  lemma RowExplained(t: Tables, user: UserId, starts: Starts, db: Database, id: MessageId)
    requires InboxOk(db, starts) && InboxTrue(t, db.inbox) && DatabaseTrue(t, user, db) && id in db.history
    ensures || (id in db.inbox && InLog(t, db.inbox[id].event) && Passed(db.cursors, db.inbox[id].event)
                && IsMessage(db.inbox[id].event.operation) && db.history[id] == RowOf(db.inbox[id].event))
            || (Underway(db.outbox, id) && db.history[id] == RowOf(Event(id, user, db.outbox[id].request.operation)))
            || Dropped(t, user, id)
  {
    assert RowTrue(t, user, db.inbox, db.outbox, db.history, id);
    if Shown(db.inbox, id) {
      assert RowPlaced(db, starts, db.inbox[id]);
    }
  }

  // ----- the relay's verdicts -----

  lemma {:induction false} MembersSubscribed(t: Tables, room: RoomId, n: nat, user: UserId)
    requires LogOk(t) && WelcomesOk(t) && SubscribersOk(t) && HonestLogs(t)
    requires room in t.rooms && n <= |Log(t, room)| && user in GroupAt(t, room, n).roster
    ensures Subscribed(t, room, user)
  {
    if n == 0 {
      assert Log(t, room)[..0] == [];
    } else {
      GroupAtNext(t, room, n - 1);
      assert HonestEvent(t, room, n - 1);
      if user in GroupAt(t, room, n - 1).roster {
        MembersSubscribed(t, room, n - 1, user);
      } else {
        AddedWelcomed(t, room, n - 1, user);
      }
    }
  }

  lemma {:induction false} PublishedBy(rooms: map<RoomId, Room>, events: seq<EventRow>, i: nat) returns (c: nat)
    requires i < |events| && events[i].event.operation.welcome.Some?
    ensures c < |WelcomeRowsOf(rooms, events)|
    ensures WelcomeRowsOf(rooms, events)[c].record.room == events[i].room
    ensures WelcomeRowsOf(rooms, events)[c].recipient == events[i].event.operation.welcome.value.recipient
  {
    var init := events[..|events| - 1];
    if i < |init| {
      c := PublishedBy(rooms, init, i);
    } else {
      c := |WelcomeRowsOf(rooms, init)|;
    }
  }

  lemma AddedWelcomed(t: Tables, room: RoomId, k: nat, user: UserId)
    requires LogOk(t) && WelcomesOk(t) && SubscribersOk(t)
    requires k < |Log(t, room)| && Log(t, room)[k].operation.welcome.Some?
    requires Log(t, room)[k].operation.welcome.value.recipient == user
    ensures Subscribed(t, room, user)
  {
    LogIsDense(t);
    RowsAreDense(t.events, room);
    var i := RowsOfFinds(t.events, room, k);
    var c := PublishedBy(t.rooms, t.events, i);
    assert Welcomed(t, room, user);
  }

  /** The relay's verdict on an honest append that is new to it. */
  lemma HonestVerdict(
    t: Tables, limits: Limits, issued: map<MessageId, Message>, user: UserId, id: MessageId, operation: Append)
    requires RelayGood(t, limits, issued) && HonestAppend(t, user, id, operation)
    requires Issued(issued, Message(user, id, AppendRoomOperation(operation))) && Lookup(t.journal, user, id).None?
    ensures var outcome := ExecuteAppend(t, user, id, operation);
            outcome.Done? ==> (outcome.response.Rejected? <==> AppendInvalid(operation))
  {
    MembersSubscribed(t, operation.room, operation.parent, user);
    if HasEvent(t.events, id) {
      var i :| 0 <= i < |t.events| && t.events[i].event.id == id;
      var event := t.events[i].event;
      RowInLog(t, i);
      LogJournaled(t, event);
      LookupFinds(t.journal, event.sender, id);
      SameRequest(issued, Message(user, id, AppendRoomOperation(operation)),
                  Message(event.sender, id, AppendRoomOperation(event.operation)));
      assert false;
    }
  }

  ghost predicate VerdictTrue(row: JournalRow) {
    row.request.AppendRoomOperation? ==> (row.response.Rejected? <==> AppendInvalid(row.request.operation))
  }

  ghost predicate VerdictsTrue(t: Tables) { forall i :: 0 <= i < |t.journal| ==> VerdictTrue(t.journal[i]) }

  lemma AppendReply(t: Tables, limits: Limits, call: Call)
    requires call.request.AppendRoomOperation? && Lookup(t.journal, call.user, call.id).None?
    requires !IsTransient(Reply(t, limits, call))
    ensures var outcome := ExecuteAppend(t, call.user, call.id, call.request.operation);
            outcome.Done? && Reply(t, limits, call) == outcome.response
  {}

  lemma AppendFromOutbox(w: World, limits: Limits, message: Message)
    requires Good(w, limits) && message.request.AppendRoomOperation? && Issued(w.issued, message)
    requires Lookup(w.relay.journal, message.user, message.id).None?
    ensures HonestAppend(w.relay, message.user, message.id, message.request.operation)
  {
    assert InFlight(w, w.issued[message.id]);
    assert ClientGood(w.relay, w.issued, message.user, w.clients[message.user]);
    var outbox := w.clients[message.user].db.outbox;
    SameRequest(w.issued, message, Message(message.user, message.id, outbox[message.id].request));
    assert AppendTrue(w.relay, message.user, w.clients[message.user].db.cursors, message.id, message.request.operation);
  }

  lemma ServeVerdicts(w: World, limits: Limits, message: Message, env: Environment)
    requires Good(w, limits) && VerdictsTrue(w.relay) && message in w.sent
    ensures VerdictsTrue(Served(w, limits, message, env).relay)
  {
    var call := Call(message.user, message.id, message.request, env);
    var t', reply := After(w.relay, limits, call), Reply(w.relay, limits, call);
    DeliverEffect(w.relay, limits, call);
    if t' != w.relay {
      NewVerdict(w, limits, call);
      VerdictsGrow(w.relay, t', JournalRow(call.user, call.id, call.request, reply));
    }
  }

  lemma VerdictsGrow(t: Tables, t': Tables, row: JournalRow)
    requires VerdictsTrue(t) && VerdictTrue(row) && t'.journal == t.journal + [row]
    ensures VerdictsTrue(t')
  {}

  lemma NewVerdict(w: World, limits: Limits, call: Call)
    requires Good(w, limits) && Issued(w.issued, Message(call.user, call.id, call.request))
    requires Lookup(w.relay.journal, call.user, call.id).None? && !IsTransient(Reply(w.relay, limits, call))
    ensures VerdictTrue(JournalRow(call.user, call.id, call.request, Reply(w.relay, limits, call)))
  {
    if call.request.AppendRoomOperation? {
      AppendFromOutbox(w, limits, Message(call.user, call.id, call.request));
      HonestVerdict(w.relay, limits, w.issued, call.user, call.id, call.request.operation);
      AppendReply(w.relay, limits, call);
    }
  }

  lemma MoveVerdicts(w: World, limits: Limits, move: Move)
    requires Good(w, limits) && VerdictsTrue(w.relay)
    ensures VerdictsTrue(Moved(w, limits, move).relay)
  {
    if Enabled(w, move) && move.Serve? {
      ServeVerdicts(w, limits, move.message, move.env);
    } else {
      assert Moved(w, limits, move).relay == w.relay;
    }
  }

  lemma {:induction false} RunVerdicts(w: World, limits: Limits, moves: seq<Move>)
    requires Good(w, limits) && VerdictsTrue(w.relay)
    ensures Good(RunWorld(w, limits, moves), limits) && VerdictsTrue(RunWorld(w, limits, moves).relay)
    decreases |moves|
  {
    if moves != [] {
      MoveGood(w, limits, moves[0]);
      MoveVerdicts(w, limits, moves[0]);
      RunVerdicts(Moved(w, limits, moves[0]), limits, moves[1..]);
    }
  }
}
