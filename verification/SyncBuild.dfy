/** Building attempts, storing Welcomes and entering rooms keep a client in step with the log. */
module SyncBuild {
  import opened Records
  import opened RelaySpec
  import opened RelayInvariants
  import opened ClientSpec
  import opened ClientInvariants
  import opened Honest
  import opened LogFacts
  import opened Sync
  import opened SyncSteps

  // ----- building -----

  /** An append enters the outbox as the room's attempt, with the commit it may carry. */
  ghost predicate Builds(db: Database, db': Database, user: UserId, room: RoomId, id: MessageId, operation: Append) {
    && room in db.intents && room in db.groups && room in db'.groups
    && operation.room == room && operation.parent == Cursor(db, room)
    && BuiltOn(user, id, operation, db.groups[room].group)
    && id in db'.outbox && db'.outbox[id].request == AppendRoomOperation(operation)
    && db'.outbox == db.outbox[id := db'.outbox[id]]
    && db'.intents == db.intents[room := db.intents[room].(attempt := Some(id))]
    && db'.groups == db.groups[room := db'.groups[room]]
    && db'.groups[room].group == db.groups[room].group
    && db'.groups[room].pending
       == (if operation.body.content.CommitMessage?
           then Some(Added(operation.body.content.base, operation.body.content.added)) else db.groups[room].pending)
    && db'.inbox == db.inbox && db'.cursors == db.cursors
    && db'.welcomes == db.welcomes && db'.welcomeCursor == db.welcomeCursor
    && (db.groups[room].pending.None?)
  }

  /** The content of an attempt is what its intent holds. */
  predicate BuiltFor(intent: Intent, operation: Append) {
    && (operation.body.content.ApplicationMessage? ==> intent.plaintext == Some(operation.body.content.plaintext))
    && (operation.body.content.CommitMessage? ==> intent.target == Some(operation.body.content.added))
  }

  lemma SendBuilds(
    db: Database, user: UserId, room: RoomId, id: MessageId, bytes: Ciphertext, built: Database, db': Database)
    requires room in db.intents && room in db.groups && id !in db.outbox && user in db.groups[room].group.roster
    requires BuildSend(db, user, room, db.intents[room], id, bytes) == Some(built)
    requires db' == built.(intents := built.intents[room := db.intents[room].(attempt := Some(id))])
    ensures id in db'.outbox && db'.outbox[id].request.AppendRoomOperation?
    ensures Builds(db, db', user, room, id, db'.outbox[id].request.operation)
    ensures BuiltFor(db.intents[room], db'.outbox[id].request.operation)
    ensures db'.outbox[id].request.operation.body.content.ApplicationMessage?
    ensures db'.history == RecordPlaintext(db.history, id, HistoryRow(room, Cursor(db, room) + 1, user,
                          db'.outbox[id].request.operation.body.content.plaintext))
  {}

  lemma AddBuilds(
    db: Database, user: UserId, room: RoomId, id: MessageId, bytes: Ciphertext, built: Database, db': Database)
    requires room in db.intents && room in db.groups && id !in db.outbox && user in db.groups[room].group.roster
    requires PackagesTrue(db.intents)
    requires BuildAdd(db, user, room, db.intents[room], id, bytes) == Some(built)
    requires db' == built.(intents := built.intents[room := db.intents[room].(attempt := Some(id))])
    ensures id in db'.outbox && db'.outbox[id].request.AppendRoomOperation?
    ensures Builds(db, db', user, room, id, db'.outbox[id].request.operation)
    ensures BuiltFor(db.intents[room], db'.outbox[id].request.operation)
    ensures db'.outbox[id].request.operation.body.content.CommitMessage?
    ensures db'.history == db.history
  {}

  lemma BuiltAppends(
    t: Tables, user: UserId, db: Database, room: RoomId, id: MessageId, operation: Append, db': Database)
    requires GroupsTrue(t, user, db.cursors, db.groups) && AppendsTrue(t, user, db.cursors, db.outbox)
    requires OwnWaiting(t, user, db.cursors, db.outbox)
    requires id !in db.outbox && room in db.cursors && Builds(db, db', user, room, id, operation)
    ensures AppendsTrue(t, user, db'.cursors, db'.outbox) && OwnWaiting(t, user, db'.cursors, db'.outbox)
  {
    forall other | other in db'.outbox && db'.outbox[other].request.AppendRoomOperation?
      ensures AppendTrue(t, user, db'.cursors, other, db'.outbox[other].request.operation)
    {
      if other != id {
        assert AppendTrue(t, user, db.cursors, other, db.outbox[other].request.operation);
      }
    }
    forall event | InLog(t, event) && event.sender == user && !Passed(db'.cursors, event)
      ensures Waiting(db'.outbox, event)
    {
      assert Waiting(db.outbox, event);
    }
  }

  lemma BuiltPending(user: UserId, db: Database, room: RoomId, id: MessageId, operation: Append, db': Database)
    requires Unseen(db, id) && PendingTrue(db.intents, db.outbox, db.groups)
    requires Builds(db, db', user, room, id, operation)
    ensures PendingTrue(db'.intents, db'.outbox, db'.groups)
  {
    forall r | r in db'.groups ensures db'.groups[r].pending == Outstanding(db'.intents, db'.outbox, r) {
      if r != room {
        assert r in db.intents ==> db.intents[r].attempt != Some(id);
        assert Outstanding(db'.intents, db'.outbox, r) == Outstanding(db.intents, db.outbox, r);
      }
    }
  }

  lemma BuiltSynced(
    t: Tables, user: UserId, db: Database, room: RoomId, id: MessageId, operation: Append, db': Database)
    requires Unseen(db, id) && Synced(t, user, db) && room in db.cursors && Builds(db, db', user, room, id, operation)
    ensures Synced(t, user, db')
  {
    BuiltAppends(t, user, db, room, id, operation, db');
    BuiltPending(user, db, room, id, operation, db');
  }

  lemma ReserveSynced(
    t: Tables, user: UserId, db: Database, room: RoomId, id: MessageId, request: Request, db': Database)
    requires Unseen(db, id) && Synced(t, user, db) && request.ReserveKeyPackage?
    requires room in db.intents && db.intents[room].attempt.None?
    requires SaveOutbox(db, id, request).Some?
    requires db' == SaveOutbox(db, id, request).value.(
                      intents := db.intents[room := db.intents[room].(attempt := Some(id))])
    ensures Synced(t, user, db')
  {
    OutboxFramed(t, user, db, db'.outbox);
    IntentsFramed(t, user, db.(outbox := db'.outbox), db'.intents);
  }

  /** Which of the three attempts an intent turns into. */
  ghost predicate BuildEffect(db: Database, user: UserId, room: RoomId, id: MessageId, db': Database) {
    && room in db.intents && id in db'.outbox
    && if db'.outbox[id].request.AppendRoomOperation? then
         Builds(db, db', user, room, id, db'.outbox[id].request.operation)
         && BuiltFor(db.intents[room], db'.outbox[id].request.operation)
       else
         && db'.outbox[id].request.ReserveKeyPackage?
         && SaveOutbox(db, id, db'.outbox[id].request).Some?
         && db' == SaveOutbox(db, id, db'.outbox[id].request).value.(
                     intents := db.intents[room := db.intents[room].(attempt := Some(id))])
  }

  lemma BuildAttemptEffect(db: Database, user: UserId, room: RoomId, id: MessageId, bytes: Ciphertext, db': Database)
    requires room in db.intents && room in db.groups && id !in db.outbox && user in db.groups[room].group.roster
    requires PackagesTrue(db.intents) && BuildAttempt(db, user, room, id, bytes) == Some(db')
    ensures BuildEffect(db, user, room, id, db')
  {
    var intent := db.intents[room];
    if intent.package.Some? {
      AddBuilds(db, user, room, id, bytes, BuildAdd(db, user, room, intent, id, bytes).value, db');
    } else if intent.target.None? {
      SendBuilds(db, user, room, id, bytes, BuildSend(db, user, room, intent, id, bytes).value, db');
    }
  }

  lemma BuildSynced(t: Tables, user: UserId, db: Database, room: RoomId, id: MessageId, db': Database)
    requires Unseen(db, id) && Synced(t, user, db) && room in db.cursors
    requires room in db.intents && db.intents[room].attempt.None? && BuildEffect(db, user, room, id, db')
    ensures Synced(t, user, db')
  {
    if db'.outbox[id].request.AppendRoomOperation? {
      BuiltSynced(t, user, db, room, id, db'.outbox[id].request.operation, db');
    } else {
      ReserveSynced(t, user, db, room, id, db'.outbox[id].request, db');
    }
  }

  // ----- Welcomes -----

  lemma {:induction false} InsertedPage(welcomes: map<nat, WelcomeEntry>, page: seq<WelcomeDelivery>)
    requires InsertPage(welcomes, page).Some?
    ensures var r := InsertPage(welcomes, page).value;
            && (forall c :: c in r <==> c in welcomes || OnPage(page, c))
            && (forall c :: c in welcomes ==> r[c] == welcomes[c])
            && (forall i :: 0 <= i < |page| ==> r[page[i].cursor] == WelcomeEntry(page[i], Pending))
    decreases |page|
  {
    if page != [] {
      var welcomes1 := welcomes[page[0].cursor := WelcomeEntry(page[0], Pending)];
      InsertedPage(welcomes1, page[1..]);
      var r := InsertPage(welcomes, page).value;
      forall c: nat ensures OnPage(page, c) <==> c == page[0].cursor || OnPage(page[1..], c) {
        if OnPage(page, c) && c != page[0].cursor {
          var i :| 0 <= i < |page| && page[i].cursor == c;
          assert page[1..][i - 1].cursor == c;
        }
        if OnPage(page[1..], c) {
          var i :| 0 <= i < |page[1..]| && page[1..][i].cursor == c;
          assert page[i + 1].cursor == c;
        }
        assert page[0].cursor == c ==> OnPage(page, c);
      }
      forall i | 0 <= i < |page| ensures r[page[i].cursor] == WelcomeEntry(page[i], Pending) {
        if i > 0 { assert page[1..][i - 1] == page[i]; }
      }
    }
  }

  lemma StoredTrue(t: Tables, user: UserId, welcomes: map<nat, WelcomeEntry>, cursor: nat, page: seq<WelcomeDelivery>)
    requires WelcomesTrue(t, user, welcomes, cursor) && PageTrue(t, user, cursor, page) && page != []
    requires InsertPage(welcomes, page).Some?
    ensures WelcomesTrue(t, user, InsertPage(welcomes, page).value, page[|page| - 1].cursor)
  {
    InsertedPage(welcomes, page);
    var r, last := InsertPage(welcomes, page).value, page[|page| - 1].cursor;
    assert Delivered(t, user, page[|page| - 1]);
    forall c: nat ensures c in r <==> c <= last && Addressed(t, user, c) {
      if OnPage(page, c) {
        var i :| 0 <= i < |page| && page[i].cursor == c;
        assert Delivered(t, user, page[i]);
      }
    }
    forall c | c in r ensures r[c].record.cursor == c && Delivered(t, user, r[c].record) {
      if OnPage(page, c) {
        var i :| 0 <= i < |page| && page[i].cursor == c;
        assert Delivered(t, user, page[i]);
      }
    }
  }

  lemma StoreSynced(t: Tables, user: UserId, db: Database, page: seq<WelcomeDelivery>, db': Database)
    requires Synced(t, user, db) && PageTrue(t, user, db.welcomeCursor, page)
    requires StorePage(db, user, page) == Some(db')
    ensures Synced(t, user, db')
  {
    if page != [] {
      StoredTrue(t, user, db.welcomes, db.welcomeCursor, page);
    }
  }

  lemma MarkSynced(t: Tables, user: UserId, db: Database, cursor: nat, state: RowState)
    requires Synced(t, user, db) && cursor in db.welcomes
    ensures Synced(t, user, MarkWelcome(db, cursor, state))
  {}

  /** A Welcome in the inbox carries the group that the log leads to at its sequence. */
  lemma WelcomeGroup(t: Tables, user: UserId, welcome: WelcomeDelivery)
    requires LogOk(t) && WelcomesOk(t) && HonestLogs(t) && Delivered(t, user, welcome)
    ensures welcome.room in t.rooms && 1 <= welcome.sequence <= |Log(t, welcome.room)|
    ensures welcome.attachment.body.content == WelcomeMessage(welcome.room, GroupAt(t, welcome.room, welcome.sequence))
    ensures user in GroupAt(t, welcome.room, welcome.sequence).roster
  {
    var event := WelcomePublished(t, welcome.cursor - 1);
    assert HonestEvent(t, event.operation.room, event.operation.parent);
    GroupAtNext(t, event.operation.room, event.operation.parent);
  }

  lemma JoinIs(
    db: Database, user: UserId, cursor: nat, welcome: WelcomeDelivery, keyAvailable: bool, group: Group, db': Database)
    requires cursor in db.welcomes && welcome.attachment.body.content == WelcomeMessage(welcome.room, group)
    requires JoinRoom(db, user, cursor, welcome, keyAvailable) == Some(db')
    ensures welcome.room !in db.cursors
    ensures var db1 := MarkWelcome(EnterRoom(db, welcome.room, group, welcome.sequence), cursor, Applied);
            db' == db1.(outbox := db'.outbox) && SameAppends(db1.outbox, db'.outbox)
  {}

  lemma JoinSynced(
    t: Tables, user: UserId, starts: Starts, db: Database, cursor: nat, keyAvailable: bool, db': Database)
    requires LogOk(t) && WelcomesOk(t) && HonestLogs(t) && ClientOk(db, starts) && Synced(t, user, db)
    requires cursor in db.welcomes && JoinRoom(db, user, cursor, db.welcomes[cursor].record, keyAvailable) == Some(db')
    ensures Synced(t, user, db')
  {
    var welcome := db.welcomes[cursor].record;
    WelcomeGroup(t, user, welcome);
    var group := GroupAt(t, welcome.room, welcome.sequence);
    JoinIs(db, user, cursor, welcome, keyAvailable, group, db');
    var db1 := EnterRoom(db, welcome.room, group, welcome.sequence);
    EnteredSynced(t, user, db, welcome.room, group, welcome.sequence);
    MarkSynced(t, user, db1, cursor, Applied);
    OutboxFramed(t, user, MarkWelcome(db1, cursor, Applied), db'.outbox);
  }

  lemma ProcessSynced(
    t: Tables, user: UserId, starts: Starts, db: Database, cursor: nat, keyAvailable: bool, db': Database)
    requires LogOk(t) && WelcomesOk(t) && HonestLogs(t) && ClientOk(db, starts) && Synced(t, user, db)
    requires cursor in db.welcomes
    requires db' == MarkWelcome(db, cursor, Stuck)
             || JoinRoom(db, user, cursor, db.welcomes[cursor].record, keyAvailable) == Some(db')
    ensures Synced(t, user, db')
  {
    if db' == MarkWelcome(db, cursor, Stuck) {
      MarkSynced(t, user, db, cursor, Stuck);
    } else {
      JoinSynced(t, user, starts, db, cursor, keyAvailable, db');
    }
  }
}
