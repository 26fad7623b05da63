/** Every step of a client keeps it in step with the log. */
module SyncSteps {
  import opened Records
  import opened RelaySpec
  import opened RelayInvariants
  import opened ClientSpec
  import opened ClientInvariants
  import opened Honest
  import opened LogFacts
  import opened World
  import opened Sync

  /** What the steps of one client rely on: the relay's invariants, honest logs, and
      identifiers that belong to one request. */
  ghost predicate Trusted(t: Tables, issued: map<MessageId, Message>, user: UserId, outbox: map<MessageId, OutboxRow>) {
    && JournalOk(t.journal) && LogOk(t) && AcceptedOk(t) && WelcomesOk(t)
    && HonestLogs(t) && ResultsTrue(t)
    && JournalIssued(issued, t.journal) && OutboxIssued(issued, user, outbox)
  }

  lemma SameRequest(issued: map<MessageId, Message>, a: Message, b: Message)
    requires Issued(issued, a) && Issued(issued, b) && a.id == b.id
    ensures a == b
  {}

  /** Whatever the journal holds under an identifier in the outbox is about that request. */
  lemma JournaledRequest(t: Tables, issued: map<MessageId, Message>, user: UserId, id: MessageId, request: Request,
                         row: JournalRow)
    requires JournalIssued(issued, t.journal) && Issued(issued, Message(user, id, request))
    requires Journaled(t, row) && row.id == id
    ensures row.user == user && row.request == request
  {
    LookupFinds(t.journal, row.user, row.id);
    SameRequest(issued, Message(row.user, row.id, row.request), Message(user, id, request));
  }

  /** An event of the log under an identifier in the outbox is the user's own. */
  lemma OwnEvent(
    t: Tables, issued: map<MessageId, Message>, user: UserId, outbox: map<MessageId, OutboxRow>, event: Event)
    requires Trusted(t, issued, user, outbox) && InLog(t, event) && event.id in outbox
    ensures event.sender == user && outbox[event.id].request == AppendRoomOperation(event.operation)
  {
    LogJournaled(t, event);
    JournaledRequest(t, issued, user, event.id, outbox[event.id].request, AcceptedAs(event));
  }

  // ----- steps that leave the appends alone -----

  predicate SameAppends(outbox: map<MessageId, OutboxRow>, outbox': map<MessageId, OutboxRow>) {
    && (forall id :: id in outbox && outbox[id].request.AppendRoomOperation? ==>
          id in outbox' && outbox'[id].request == outbox[id].request)
    && (forall id :: id in outbox' && outbox'[id].request.AppendRoomOperation? ==>
          id in outbox && outbox'[id].request == outbox[id].request)
  }

  lemma AppendsFramed(t: Tables, user: UserId, db: Database, outbox': map<MessageId, OutboxRow>)
    requires SameAppends(db.outbox, outbox')
    requires AppendsTrue(t, user, db.cursors, db.outbox) && OwnWaiting(t, user, db.cursors, db.outbox)
    requires PendingTrue(db.intents, db.outbox, db.groups)
    ensures AppendsTrue(t, user, db.cursors, outbox') && OwnWaiting(t, user, db.cursors, outbox')
    ensures PendingTrue(db.intents, outbox', db.groups)
  {
    forall id | id in outbox' && outbox'[id].request.AppendRoomOperation?
      ensures AppendTrue(t, user, db.cursors, id, outbox'[id].request.operation)
    {
      assert AppendTrue(t, user, db.cursors, id, db.outbox[id].request.operation);
    }
    forall event | InLog(t, event) && event.sender == user && !Passed(db.cursors, event)
      ensures Waiting(outbox', event)
    {
      assert Waiting(db.outbox, event);
    }
    forall room | room in db.groups
      ensures Outstanding(db.intents, outbox', room) == Outstanding(db.intents, db.outbox, room)
    {}
  }

  lemma OutboxFramed(t: Tables, user: UserId, db: Database, outbox': map<MessageId, OutboxRow>)
    requires Synced(t, user, db) && SameAppends(db.outbox, outbox')
    ensures Synced(t, user, db.(outbox := outbox'))
  {
    AppendsFramed(t, user, db, outbox');
  }

  /** Intents may change as long as no commit starts or stops being outstanding. */
  lemma IntentsFramed(t: Tables, user: UserId, db: Database, intents': map<RoomId, Intent>)
    requires Synced(t, user, db) && PackagesTrue(intents')
    requires forall room :: room in db.groups ==>
               Outstanding(intents', db.outbox, room) == Outstanding(db.intents, db.outbox, room)
    ensures Synced(t, user, db.(intents := intents'))
  {}

  lemma AttachIdle(db: Database, id: MessageId, recipient: UserId, package: Blob)
    requires id in db.outbox && !db.outbox[id].request.AppendRoomOperation? && PackagesTrue(db.intents)
    requires package.content == KeyPackageMessage(recipient)
    ensures var intents' := AttachPackage(db.intents, id, recipient, package);
            && PackagesTrue(intents')
            && forall room :: Outstanding(intents', db.outbox, room) == Outstanding(db.intents, db.outbox, room)
  {}

  lemma DropIdle(db: Database, id: MessageId)
    requires id in db.outbox && !db.outbox[id].request.AppendRoomOperation? && PackagesTrue(db.intents)
    ensures var intents' := DropIntents(db.intents, id);
            && PackagesTrue(intents')
            && forall room :: Outstanding(intents', db.outbox, room) == Outstanding(db.intents, db.outbox, room)
  {}

  /** A request that is no append leaves the outbox. */
  lemma IdleRemoved(t: Tables, user: UserId, db: Database, intents': map<RoomId, Intent>, id: MessageId)
    requires Synced(t, user, db) && PackagesTrue(intents')
    requires forall room :: Outstanding(intents', db.outbox, room) == Outstanding(db.intents, db.outbox, room)
    requires id in db.outbox && !db.outbox[id].request.AppendRoomOperation?
    ensures Synced(t, user, RemoveOutbox(db.(intents := intents'), id))
  {
    IntentsFramed(t, user, db, intents');
    OutboxFramed(t, user, db.(intents := intents'), db.outbox - {id});
  }

  lemma EnteredAppends(t: Tables, user: UserId, db: Database, cursors': map<RoomId, nat>)
    requires AppendsTrue(t, user, db.cursors, db.outbox) && OwnWaiting(t, user, db.cursors, db.outbox)
    requires forall room :: room in db.cursors ==> room in cursors' && cursors'[room] == db.cursors[room]
    ensures AppendsTrue(t, user, cursors', db.outbox) && OwnWaiting(t, user, cursors', db.outbox)
  {
    forall id | id in db.outbox && db.outbox[id].request.AppendRoomOperation?
      ensures AppendTrue(t, user, cursors', id, db.outbox[id].request.operation)
    {
      assert AppendTrue(t, user, db.cursors, id, db.outbox[id].request.operation);
    }
    forall event | InLog(t, event) && event.sender == user && !Passed(cursors', event)
      ensures Waiting(db.outbox, event)
    {
      assert !Passed(db.cursors, event);
    }
  }

  /** A room comes into use with the group that the log leads to. */
  lemma EnteredSynced(t: Tables, user: UserId, db: Database, room: RoomId, group: Group, start: nat)
    requires Synced(t, user, db) && room !in db.groups && room !in db.cursors && room !in db.intents
    requires room in t.rooms && start <= |Log(t, room)| && group == GroupAt(t, room, start) && user in group.roster
    ensures Synced(t, user, EnterRoom(db, room, group, start))
  {
    EnteredAppends(t, user, db, db.cursors[room := start]);
  }

  lemma CreationIs(db: Database, user: UserId, starts: Starts, id: MessageId, room: RoomId)
    requires CursorsOk(db, starts)
    ensures CompleteCreation(db, user, id, room)
            == RemoveOutbox(if room in db.groups then db else EnterRoom(db, room, Group(0, {user}), 0), id)
  {}

  lemma CreationSynced(t: Tables, user: UserId, starts: Starts, db: Database, id: MessageId, room: RoomId)
    requires ClientOk(db, starts) && Synced(t, user, db)
    requires id in db.outbox && !db.outbox[id].request.AppendRoomOperation?
    requires room in t.rooms && t.rooms[room].creator == user
    ensures Synced(t, user, CompleteCreation(db, user, id, room))
  {
    CreationIs(db, user, starts, id, room);
    if room in db.groups {
      IdleRemoved(t, user, db, db.intents, id);
    } else {
      assert Log(t, room)[..0] == [];
      EnteredSynced(t, user, db, room, Group(0, {user}), 0);
      IdleRemoved(t, user, EnterRoom(db, room, Group(0, {user}), 0), db.intents, id);
    }
  }

  // ----- an append leaves the outbox without an event -----

  /** The attempts of a room: an append of the room in the outbox is its intent's attempt. */
  lemma AttemptIs(db: Database, id: MessageId)
    requires AttemptsOk(db) && id in db.outbox && db.outbox[id].request.AppendRoomOperation?
    ensures var room := db.outbox[id].request.operation.room;
            room in db.intents && db.intents[room].attempt == Some(id)
  {
    assert Owned(db, id);
    var room :| AttemptOf(db, room, id);
  }

  lemma OutstandingIs(t: Tables, user: UserId, db: Database, id: MessageId)
    requires AttemptsOk(db) && AppendsTrue(t, user, db.cursors, db.outbox)
    requires id in db.outbox && db.outbox[id].request.AppendRoomOperation?
    ensures var operation := db.outbox[id].request.operation;
            operation.contentType != Commit ==> Outstanding(db.intents, db.outbox, operation.room) == None
  {
    AttemptIs(db, id);
    assert AppendTrue(t, user, db.cursors, id, db.outbox[id].request.operation);
  }

  /** The attempt is gone from the outbox and its intent, and so is the pending commit. */
  ghost predicate Withdrawn(db: Database, db': Database, id: MessageId, operation: Append) {
    && db'.outbox == db.outbox - {id} && Released(db.intents, db'.intents, id) && PackagesTrue(db'.intents)
    && db'.inbox == db.inbox && db'.cursors == db.cursors
    && db'.welcomes == db.welcomes && db'.welcomeCursor == db.welcomeCursor
    && db'.groups.Keys == db.groups.Keys
    && (forall room :: room in db.groups ==>
          db'.groups[room] == if room == operation.room && operation.contentType == Commit
                              then db.groups[room].(pending := None) else db.groups[room])
  }

  lemma WithdrawnAppends(t: Tables, user: UserId, db: Database, id: MessageId, outbox': map<MessageId, OutboxRow>)
    requires AppendsTrue(t, user, db.cursors, db.outbox) && OwnWaiting(t, user, db.cursors, db.outbox)
    requires outbox' == db.outbox - {id}
    requires forall event :: InLog(t, event) && event.sender == user ==> event.id != id
    ensures AppendsTrue(t, user, db.cursors, outbox') && OwnWaiting(t, user, db.cursors, outbox')
  {
    forall other | other in outbox' && outbox'[other].request.AppendRoomOperation?
      ensures AppendTrue(t, user, db.cursors, other, outbox'[other].request.operation)
    {
      assert AppendTrue(t, user, db.cursors, other, db.outbox[other].request.operation);
    }
    forall event | InLog(t, event) && event.sender == user && !Passed(db.cursors, event)
      ensures Waiting(outbox', event)
    {
      assert Waiting(db.outbox, event);
    }
  }

  lemma WithdrawnGroups(t: Tables, user: UserId, db: Database, id: MessageId, operation: Append, db': Database)
    requires GroupsTrue(t, user, db.cursors, db.groups) && Withdrawn(db, db', id, operation)
    ensures GroupsTrue(t, user, db'.cursors, db'.groups)
  {}

  lemma WithdrawnSynced(t: Tables, user: UserId, db: Database, id: MessageId, operation: Append, db': Database)
    requires AttemptsOk(db) && Synced(t, user, db)
    requires id in db.outbox && db.outbox[id].request == AppendRoomOperation(operation)
    requires forall event :: InLog(t, event) && event.sender == user ==> event.id != id
    requires Withdrawn(db, db', id, operation)
    ensures Synced(t, user, db')
  {
    OutstandingIs(t, user, db, id);
    AttemptIs(db, id);
    WithdrawnGroups(t, user, db, id, operation, db');
    WithdrawnAppends(t, user, db, id, db'.outbox);
    WithdrawnPending(db, id, operation, db');
  }

  lemma WithdrawnPending(db: Database, id: MessageId, operation: Append, db': Database)
    requires AttemptsOk(db) && PendingTrue(db.intents, db.outbox, db.groups)
    requires id in db.outbox && db.outbox[id].request == AppendRoomOperation(operation)
    requires operation.room in db.intents && db.intents[operation.room].attempt == Some(id)
    requires operation.contentType != Commit ==> Outstanding(db.intents, db.outbox, operation.room) == None
    requires Withdrawn(db, db', id, operation)
    ensures PendingTrue(db'.intents, db'.outbox, db'.groups)
  {
    forall room | room in db'.groups
      ensures db'.groups[room].pending == Outstanding(db'.intents, db'.outbox, room)
    {
      if room in db.intents && db.intents[room].attempt == Some(id) {
        assert AttemptOf(db, room, id);
      } else {
        assert room in db'.intents ==> room in db.intents && db'.intents[room] == db.intents[room];
        assert Outstanding(db'.intents, db'.outbox, room) == Outstanding(db.intents, db.outbox, room);
      }
    }
  }

  lemma Cleared(db: Database, room: RoomId, commit: bool, db1: Database)
    requires (if commit then DiscardPending(db, room) else Some(db)) == Some(db1)
    ensures db1 == db.(groups := db1.groups) && db1.groups.Keys == db.groups.Keys
    ensures forall r :: r in db.groups ==>
              db1.groups[r] == if r == room && commit then db.groups[r].(pending := None) else db.groups[r]
  {}

  lemma ReleasedPackages(intents: map<RoomId, Intent>, id: MessageId)
    requires PackagesTrue(intents)
    ensures PackagesTrue(Detach(intents, id)) && PackagesTrue(DropIntents(intents, id))
  {}

  lemma ConflictWithdraws(db: Database, id: MessageId, operation: Append, db': Database)
    requires PackagesTrue(db.intents) && CompleteConflict(db, id, operation) == Some(db')
    ensures Withdrawn(db, db', id, operation)
  {
    var commit := operation.contentType == Commit;
    Cleared(db, operation.room, commit, if commit then DiscardPending(db, operation.room).value else db);
    Releases(db.intents, id);
    ReleasedPackages(db.intents, id);
  }

  lemma RefusalWithdraws(db: Database, id: MessageId, operation: Append, db': Database)
    requires PackagesTrue(db.intents) && CompleteRefusal(db, id, AppendRoomOperation(operation)) == Some(db')
    ensures Withdrawn(db, db', id, operation)
  {
    var commit := operation.contentType == Commit;
    Cleared(db, operation.room, commit, if commit then DiscardPending(db, operation.room).value else db);
    Releases(db.intents, id);
    ReleasedPackages(db.intents, id);
  }

  /** An append that was answered otherwise is in no log. */
  lemma NotInLog(t: Tables, user: UserId, id: MessageId, request: Request, response: Response)
    requires JournalOk(t.journal) && AcceptedOk(t)
    requires Journaled(t, JournalRow(user, id, request, response)) && !response.AppendAccepted?
    ensures forall event :: InLog(t, event) && event.sender == user ==> event.id != id
  {
    forall event | InLog(t, event) && event.sender == user ensures event.id != id {
      LogJournaled(t, event);
    }
  }

  lemma ReceiveSynced(t: Tables, user: UserId, db: Database, event: Event, db': Database)
    requires Synced(t, user, db) && InLog(t, event) && ReceiveEvent(db, event) == Some(db')
    ensures Synced(t, user, db')
  {}

  // ----- the answer to an outbox entry -----

  /** An answered append is received, or withdrawn. */
  lemma AppendAnswered(db: Database, user: UserId, id: MessageId, operation: Append, response: Response, db': Database)
    requires PackagesTrue(db.intents) && !IsTransient(response)
    requires Complete(db, user, id, AppendRoomOperation(operation), response) == Some(db')
    ensures response.AppendAccepted? ==> ReceiveEvent(db, response.event) == Some(db')
    ensures !response.AppendAccepted? ==> Withdrawn(db, db', id, operation)
  {
    if response.HeadConflict? {
      ConflictWithdraws(db, id, operation, db');
    } else if response.Rejected? {
      RefusalWithdraws(db, id, operation, db');
    }
  }

  lemma AppendAnswerSynced(
    t: Tables, user: UserId, db: Database, id: MessageId, operation: Append, response: Response, db': Database)
    requires JournalOk(t.journal) && LogOk(t) && AcceptedOk(t) && AttemptsOk(db) && Synced(t, user, db)
    requires id in db.outbox && db.outbox[id].request == AppendRoomOperation(operation)
    requires Journaled(t, JournalRow(user, id, AppendRoomOperation(operation), response))
    requires response.AppendAccepted? ==> ReceiveEvent(db, response.event) == Some(db')
    requires !response.AppendAccepted? ==> Withdrawn(db, db', id, operation)
    ensures Synced(t, user, db')
  {
    if response.AppendAccepted? {
      JournaledInLog(t, JournalRow(user, id, AppendRoomOperation(operation), response));
      ReceiveSynced(t, user, db, response.event, db');
    } else {
      NotInLog(t, user, id, AppendRoomOperation(operation), response);
      WithdrawnSynced(t, user, db, id, operation, db');
    }
  }

  lemma RoomCreatedTrue(t: Tables, user: UserId, id: MessageId, request: Request, room: RoomId)
    requires ResultsTrue(t) && Journaled(t, JournalRow(user, id, request, RoomCreated(room)))
    ensures room in t.rooms && t.rooms[room].creator == user
  {
    LookupFinds(t.journal, user, id);
    assert ResultTrue(t, JournalRow(user, id, request, RoomCreated(room)));
  }

  /** A request that is no append leaves the outbox, and no commit starts or stops waiting. */
  ghost predicate Retired(db: Database, db': Database, id: MessageId) {
    && db' == RemoveOutbox(db.(intents := db'.intents), id) && PackagesTrue(db'.intents)
    && forall room :: Outstanding(db'.intents, db.outbox, room) == Outstanding(db.intents, db.outbox, room)
  }

  lemma OtherAnswered(db: Database, user: UserId, id: MessageId, request: Request, response: Response, db': Database)
    requires PackagesTrue(db.intents) && id in db.outbox && db.outbox[id].request == request
    requires !request.AppendRoomOperation? && !(request.CreateRoom? && response.RoomCreated?) && !IsTransient(response)
    requires Complete(db, user, id, request, response) == Some(db')
    ensures Retired(db, db', id)
  {
    if request.ReserveKeyPackage? && response.KeyPackage? {
      AttachIdle(db, id, request.recipient, response.package);
    } else if response.Rejected? {
      DropIdle(db, id);
    }
  }

  /** What the answer to an outbox entry does. */
  ghost predicate AnswerEffect(
    db: Database, user: UserId, id: MessageId, request: Request, response: Response, db': Database)
  {
    if IsTransient(response) then db' == db
    else if request.AppendRoomOperation? then
      if response.AppendAccepted? then ReceiveEvent(db, response.event) == Some(db')
      else Withdrawn(db, db', id, request.operation)
    else if request.CreateRoom? && response.RoomCreated? then db' == CompleteCreation(db, user, id, response.room)
    else Retired(db, db', id)
  }

  lemma CompleteEffect(db: Database, user: UserId, id: MessageId, request: Request, response: Response, db': Database)
    requires PackagesTrue(db.intents) && id in db.outbox && db.outbox[id].request == request
    requires Complete(db, user, id, request, response) == Some(db')
    ensures AnswerEffect(db, user, id, request, response, db')
  {
    if !IsTransient(response) {
      if request.AppendRoomOperation? {
        AppendAnswered(db, user, id, request.operation, response, db');
      } else if !(request.CreateRoom? && response.RoomCreated?) {
        OtherAnswered(db, user, id, request, response, db');
      }
    }
  }

  lemma AnswerSynced(
    t: Tables, user: UserId, starts: Starts, db: Database, id: MessageId, request: Request, response: Response,
    db': Database)
    requires JournalOk(t.journal) && LogOk(t) && AcceptedOk(t) && ResultsTrue(t)
    requires ClientOk(db, starts) && Synced(t, user, db)
    requires id in db.outbox && db.outbox[id].request == request && IsDurable(request)
    requires AnswerTrue(t, Message(user, id, request), response)
    requires AnswerEffect(db, user, id, request, response, db')
    ensures Synced(t, user, db')
  {
    if !IsTransient(response) {
      if request.AppendRoomOperation? {
        AppendAnswerSynced(t, user, db, id, request.operation, response, db');
      } else if request.CreateRoom? && response.RoomCreated? {
        RoomCreatedTrue(t, user, id, request, response.room);
        CreationSynced(t, user, starts, db, id, response.room);
      } else {
        IdleRemoved(t, user, db, db'.intents, id);
      }
    }
  }
}
