/** Applying events, building attempts and entering rooms keep a client in step with the log. */
module SyncApply {
  import opened Records
  import opened RelaySpec
  import opened ClientSpec
  import opened ClientInvariants
  import opened Honest
  import opened LogFacts
  import opened World
  import opened Sync
  import opened SyncSteps

  // ----- the cursor moves over one event -----

  /** No append for the room is in the outbox. */
  predicate Idle(outbox: map<MessageId, OutboxRow>, room: RoomId) {
    forall id :: id in outbox && outbox[id].request.AppendRoomOperation? ==> outbox[id].request.operation.room != room
  }

  /** The cursor passes an event while no append of the room is left in the outbox. */
  lemma PassedAppends(t: Tables, user: UserId, db: Database, event: Event, outbox': map<MessageId, OutboxRow>)
    requires AppendsTrue(t, user, db.cursors, db.outbox) && OwnWaiting(t, user, db.cursors, db.outbox)
    requires InLog(t, event) && event.operation.room in db.cursors
    requires db.cursors[event.operation.room] == event.operation.parent
    requires Idle(outbox', event.operation.room)
    requires forall id :: id in outbox' && outbox'[id].request.AppendRoomOperation? ==>
               id in db.outbox && db.outbox[id].request == outbox'[id].request
    requires forall id :: id in db.outbox && db.outbox[id].request.AppendRoomOperation?
                          && db.outbox[id].request != AppendRoomOperation(event.operation) ==>
               id in outbox' && outbox'[id].request == db.outbox[id].request
    ensures var cursors' := db.cursors[event.operation.room := event.operation.parent + 1];
            AppendsTrue(t, user, cursors', outbox') && OwnWaiting(t, user, cursors', outbox')
  {
    var cursors' := db.cursors[event.operation.room := event.operation.parent + 1];
    forall id | id in outbox' && outbox'[id].request.AppendRoomOperation?
      ensures AppendTrue(t, user, cursors', id, outbox'[id].request.operation)
    {
      assert AppendTrue(t, user, db.cursors, id, db.outbox[id].request.operation);
    }
    forall own | InLog(t, own) && own.sender == user && !Passed(cursors', own)
      ensures Waiting(outbox', own)
    {
      assert Waiting(db.outbox, own);
    }
  }

  lemma PassedGroups(t: Tables, user: UserId, db: Database, event: Event, groups': map<RoomId, GroupState>)
    requires GroupsTrue(t, user, db.cursors, db.groups)
    requires InLog(t, event) && event.operation.room in db.groups && event.operation.room in db.cursors
    requires db.cursors[event.operation.room] == event.operation.parent
    requires event.operation.room in groups'
    requires groups' == db.groups[event.operation.room := groups'[event.operation.room]]
    requires groups'[event.operation.room].group == After1(db.groups[event.operation.room].group, event)
    ensures GroupsTrue(t, user, db.cursors[event.operation.room := event.operation.parent + 1], groups')
  {
    GroupAtNext(t, event.operation.room, event.operation.parent);
  }

  lemma FinishIs(db: Database, user: UserId, event: Event, state: RowState, db': Database)
    requires FinishEvent(db, user, event, state) == Some(db')
    ensures SameAppends(db.outbox, db'.outbox)
    ensures db' == Advance(db, event, state).(outbox := db'.outbox)
  {}

  /** A settled event: the row is marked, the cursor is past it, nothing else moves. */
  lemma MarkedTrue(t: Tables, inbox: map<MessageId, InboxRow>, id: MessageId)
    requires InboxTrue(t, inbox)
    ensures InboxTrue(t, MarkRow(inbox, id, Applied))
  {}

  lemma FinishSynced(t: Tables, user: UserId, before: Database, db: Database, event: Event, db': Database)
    requires Synced(t, user, before)
    requires GroupsTrue(t, user, db.cursors[event.operation.room := event.operation.parent + 1], db.groups)
    requires AppendsTrue(t, user, db.cursors[event.operation.room := event.operation.parent + 1], db.outbox)
    requires OwnWaiting(t, user, db.cursors[event.operation.room := event.operation.parent + 1], db.outbox)
    requires PendingTrue(db.intents, db.outbox, db.groups) && PackagesTrue(db.intents)
    requires db.inbox == before.inbox && db.welcomes == before.welcomes && db.welcomeCursor == before.welcomeCursor
    requires FinishEvent(db, user, event, Applied) == Some(db')
    ensures Synced(t, user, db')
  {
    AdvanceSynced(t, user, before, db, event);
    FinishIs(db, user, event, Applied, db');
    OutboxFramed(t, user, Advance(db, event, Applied), db'.outbox);
  }

  /** The row is marked and the cursor is past the event. */
  lemma AdvanceSynced(t: Tables, user: UserId, before: Database, db: Database, event: Event)
    requires Synced(t, user, before)
    requires GroupsTrue(t, user, db.cursors[event.operation.room := event.operation.parent + 1], db.groups)
    requires AppendsTrue(t, user, db.cursors[event.operation.room := event.operation.parent + 1], db.outbox)
    requires OwnWaiting(t, user, db.cursors[event.operation.room := event.operation.parent + 1], db.outbox)
    requires PendingTrue(db.intents, db.outbox, db.groups) && PackagesTrue(db.intents)
    requires db.inbox == before.inbox && db.welcomes == before.welcomes && db.welcomeCursor == before.welcomeCursor
    ensures Synced(t, user, Advance(db, event, Applied))
  {
    MarkedTrue(t, db.inbox, event.id);
  }

  // ----- the user's own event -----

  lemma OwnAttempt(db: Database, event: Event)
    requires AttemptsOk(db) && Waiting(db.outbox, event)
    ensures event.operation.room in db.intents && db.intents[event.operation.room].attempt == Some(event.id)
    ensures Idle(db.outbox - {event.id}, event.operation.room)
  {
    AttemptIs(db, event.id);
    forall id | id in db.outbox && db.outbox[id].request.AppendRoomOperation?
                && db.outbox[id].request.operation.room == event.operation.room
      ensures id == event.id
    {
      AttemptIs(db, id);
    }
  }

  /** A commit in the outbox waits with exactly the group its event leads to. */
  lemma OwnGroup(t: Tables, user: UserId, db: Database, event: Event)
    requires AttemptsOk(db) && Waiting(db.outbox, event) && event.operation.room in db.groups
    requires GroupsTrue(t, user, db.cursors, db.groups) && AppendsTrue(t, user, db.cursors, db.outbox)
    requires PendingTrue(db.intents, db.outbox, db.groups)
    ensures var state := db.groups[event.operation.room];
            && (event.operation.contentType == Commit ==> state.pending == Some(After1(state.group, event)))
            && (event.operation.contentType != Commit ==>
                  state.pending == None && After1(state.group, event) == state.group)
  {
    OwnAttempt(db, event);
    assert AppendTrue(t, user, db.cursors, event.id, event.operation);
  }

  lemma ClaimedPending(db: Database, event: Event, groups': map<RoomId, GroupState>)
    requires AttemptsOk(db) && Waiting(db.outbox, event) && event.operation.room in db.groups
    requires PendingTrue(db.intents, db.outbox, db.groups)
    requires event.operation.room in groups' && groups'[event.operation.room].pending == None
    requires groups' == db.groups[event.operation.room := groups'[event.operation.room]]
    ensures PendingTrue(DropIntents(db.intents, event.id), db.outbox - {event.id}, groups')
  {
    OwnAttempt(db, event);
    forall room | room in groups'
      ensures groups'[room].pending == Outstanding(DropIntents(db.intents, event.id), db.outbox - {event.id}, room)
    {
      assert room in db.intents && db.intents[room].attempt.Some? ==>
               AttemptOf(db, room, db.intents[room].attempt.value);
    }
  }

  lemma ApplyOwnIs(db: Database, user: UserId, event: Event, db': Database)
    requires ApplyOwn(db, user, event) == Some(db') && event.operation.room in db.groups
    ensures Waiting(db.outbox, event)
    ensures var state := db.groups[event.operation.room];
            var state' := if event.operation.contentType != Commit then state
                          else GroupState(state.pending.value, None, state.ratchet);
            (event.operation.contentType == Commit ==> state.pending.Some?)
            && FinishEvent(Claim(WithGroup(db, event.operation.room, state'), event), user, event, Applied) == Some(db')
  {
    if event.operation.contentType != Commit {
      assert WithGroup(db, event.operation.room, db.groups[event.operation.room]) == db;
    }
  }

  lemma ClaimedAppends(t: Tables, user: UserId, db: Database, event: Event)
    requires AttemptsOk(db) && Waiting(db.outbox, event) && InLog(t, event)
    requires AppendsTrue(t, user, db.cursors, db.outbox) && OwnWaiting(t, user, db.cursors, db.outbox)
    requires event.operation.room in db.cursors && db.cursors[event.operation.room] == event.operation.parent
    ensures var cursors' := db.cursors[event.operation.room := event.operation.parent + 1];
            && AppendsTrue(t, user, cursors', db.outbox - {event.id})
            && OwnWaiting(t, user, cursors', db.outbox - {event.id})
  {
    OwnAttempt(db, event);
    PassedAppends(t, user, db, event, db.outbox - {event.id});
  }

  lemma ApplyOwnSynced(t: Tables, user: UserId, db: Database, event: Event, db': Database)
    requires AttemptsOk(db) && Synced(t, user, db) && InLog(t, event)
    requires event.operation.room in db.groups
    requires event.operation.room in db.cursors && db.cursors[event.operation.room] == event.operation.parent
    requires ApplyOwn(db, user, event) == Some(db')
    ensures Synced(t, user, db')
  {
    ApplyOwnIs(db, user, event, db');
    OwnGroup(t, user, db, event);
    var state := db.groups[event.operation.room];
    ClaimedSynced(t, user, db, event,
                  if event.operation.contentType != Commit then state
                  else GroupState(state.pending.value, None, state.ratchet), db');
  }

  lemma ClaimedSynced(t: Tables, user: UserId, db: Database, event: Event, state': GroupState, db': Database)
    requires AttemptsOk(db) && Synced(t, user, db) && InLog(t, event) && Waiting(db.outbox, event)
    requires event.operation.room in db.groups
    requires event.operation.room in db.cursors && db.cursors[event.operation.room] == event.operation.parent
    requires state'.group == After1(db.groups[event.operation.room].group, event) && state'.pending == None
    requires FinishEvent(Claim(WithGroup(db, event.operation.room, state'), event), user, event, Applied) == Some(db')
    ensures Synced(t, user, db')
  {
    var db1 := Claim(WithGroup(db, event.operation.room, state'), event);
    PassedGroups(t, user, db, event, db1.groups);
    ClaimedAppends(t, user, db, event);
    ClaimedPending(db, event, db1.groups);
    ReleasedPackages(db.intents, event.id);
    FinishSynced(t, user, db, db1, event, db');
  }

  // ----- somebody else's event -----

  /** While no attempt waits for its event, the next event is never behind an own append. */
  lemma OthersIdle(t: Tables, issued: map<MessageId, Message>, user: UserId, starts: Starts, db: Database, event: Event)
    requires Trusted(t, issued, user, db.outbox) && InboxOk(db, starts)
    requires AppendsTrue(t, user, db.cursors, db.outbox) && InboxTrue(t, db.inbox) && Quiet(db, event.operation.room)
    requires InLog(t, event) && Cursor(db, event.operation.room) == event.operation.parent && event.sender != user
    ensures Idle(db.outbox, event.operation.room)
  {
    forall id | id in db.outbox && db.outbox[id].request.AppendRoomOperation?
      ensures db.outbox[id].request.operation.room != event.operation.room
    {
      assert AppendTrue(t, user, db.cursors, id, db.outbox[id].request.operation);
      if id in db.inbox {
        OwnEvent(t, issued, user, db.outbox, db.inbox[id].event);
      }
    }
  }

  /** An honest event of the current group opens; it can only wait for a contact. */
  lemma HonestOpens(t: Tables, user: UserId, db: Database, event: Event)
    requires HonestLogs(t) && GroupsTrue(t, user, db.cursors, db.groups) && InLog(t, event)
    requires HasGroup(db, event.operation.room) && event.operation.room in db.cursors
    requires db.cursors[event.operation.room] == event.operation.parent && event.sender != user
    ensures var result := ProcessBound(db, user, event);
            && (result.FaultBlocked? || result.Opened?)
            && (result.FaultBlocked? <==>
                  event.operation.contentType == Commit && event.operation.body.content.CommitMessage?
                  && event.operation.body.content.added !in db.contacts)
    ensures ProcessBound(db, user, event).Opened? ==>
              OpensTo(db, event, ProcessBound(db, user, event).db, ProcessBound(db, user, event).plaintext)
  {
    assert HonestEvent(t, event.operation.room, event.operation.parent);
  }

  /** Only the group changes, to the one after the event. */
  ghost predicate OpensTo(db: Database, event: Event, db1: Database, plaintext: Option<seq<byte>>) {
    var room := event.operation.room;
    && room in db.groups && room in db1.groups
    && db1 == WithGroup(db, room, db1.groups[room])
    && db1.groups[room].group == After1(db.groups[room].group, event)
    && db1.groups[room].pending == (if event.operation.contentType == Commit then None else db.groups[room].pending)
    && (event.operation.contentType == Application ==>
          event.operation.body.content.ApplicationMessage?
          && plaintext == Some(event.operation.body.content.plaintext))
    && (event.operation.contentType != Application ==> plaintext == None)
  }

  lemma IdlePending(db: Database, room: RoomId)
    requires AttemptsOk(db) && PendingTrue(db.intents, db.outbox, db.groups) && Idle(db.outbox, room)
    requires room in db.groups
    ensures db.groups[room].pending == None
  {
    if room in db.intents && db.intents[room].attempt.Some? {
      assert AttemptOf(db, room, db.intents[room].attempt.value);
    }
  }

  lemma OpenedSynced(
    t: Tables, user: UserId, starts: Starts, db: Database, event: Event, db1: Database, plaintext: Option<seq<byte>>,
    db': Database)
    requires AttemptsOk(db) && Synced(t, user, db) && InLog(t, event)
    requires Idle(db.outbox, event.operation.room)
    requires event.operation.room in db.cursors && db.cursors[event.operation.room] == event.operation.parent
    requires OpensTo(db, event, db1, plaintext)
    requires FinishEvent(Remember(db1, event, plaintext), user, event, Applied) == Some(db')
    ensures Synced(t, user, db')
  {
    var room := event.operation.room;
    var db2 := Remember(db1, event, plaintext);
    assert db2 == db1.(history := db2.history);
    OpenedPasses(t, user, db, event, db2);
    FinishSynced(t, user, db, db2, event, db');
  }

  lemma OpenedPasses(t: Tables, user: UserId, db: Database, event: Event, db2: Database)
    requires AttemptsOk(db) && Synced(t, user, db) && InLog(t, event)
    requires Idle(db.outbox, event.operation.room)
    requires event.operation.room in db.cursors && db.cursors[event.operation.room] == event.operation.parent
    requires event.operation.room in db.groups && event.operation.room in db2.groups
    requires db2.groups == db.groups[event.operation.room := db2.groups[event.operation.room]]
    requires db2.groups[event.operation.room].group == After1(db.groups[event.operation.room].group, event)
    requires db2.groups[event.operation.room].pending == None
             || db2.groups[event.operation.room].pending == db.groups[event.operation.room].pending
    requires db2.outbox == db.outbox && db2.intents == db.intents && db2.cursors == db.cursors
    ensures var cursors' := db2.cursors[event.operation.room := event.operation.parent + 1];
            && GroupsTrue(t, user, cursors', db2.groups) && AppendsTrue(t, user, cursors', db2.outbox)
            && OwnWaiting(t, user, cursors', db2.outbox) && PendingTrue(db2.intents, db2.outbox, db2.groups)
  {
    IdlePending(db, event.operation.room);
    PassedGroups(t, user, db, event, db2.groups);
    PassedAppends(t, user, db, event, db2.outbox);
  }

  lemma ApplyOtherSynced(
    t: Tables, issued: map<MessageId, Message>, user: UserId, starts: Starts, db: Database, event: Event, db': Database)
    requires Trusted(t, issued, user, db.outbox) && ClientOk(db, starts) && Synced(t, user, db)
    requires Quiet(db, event.operation.room) && InLog(t, event)
    requires event.operation.room in db.groups && event.sender != user
    requires Cursor(db, event.operation.room) == event.operation.parent && ApplyOther(db, user, event) == Some(db')
    ensures Synced(t, user, db')
  {
    HonestOpens(t, user, db, event);
    match ProcessBound(db, user, event) {
      case FaultBlocked => StuckSynced(t, user, db, event.id);
      case Opened(db1, plaintext) =>
        OthersIdle(t, issued, user, starts, db, event);
        OpenedSynced(t, user, starts, db, event, db1, plaintext, db');
    }
  }

  lemma StuckSynced(t: Tables, user: UserId, db: Database, id: MessageId)
    requires Synced(t, user, db)
    ensures Synced(t, user, db.(inbox := MarkRow(db.inbox, id, Stuck)))
  {}
}
