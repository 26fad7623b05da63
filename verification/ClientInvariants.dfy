/** What every client keeps on every run, whatever the relay answers. */
module ClientInvariants {
  import opened Records
  import opened ClientSpec

  /** For each room, the sequence its processing started after: 0 for a created room, the
      Welcome's sequence for a joined one. */
  type Starts = map<RoomId, nat>

  function NewStarts(starts: Starts, db: Database): Starts {
    map room | room in db.cursors :: if room in starts then starts[room] else db.cursors[room]
  }

  predicate Settled(state: RowState) { state == Applied || state == Refused }

  ghost predicate InboxOk(db: Database, starts: Starts) {
    && (forall id :: id in db.inbox ==> db.inbox[id].event.id == id)
    && (forall id :: id in db.inbox ==> RowPlaced(db, starts, db.inbox[id]))
  }

  /** A row belongs to a room in use, follows a row or the start of the room, and is settled
      exactly when the cursor has passed it. */
  ghost predicate RowPlaced(db: Database, starts: Starts, row: InboxRow) {
    var room, parent := row.event.operation.room, row.event.operation.parent;
    && room in db.cursors && room in starts
    && starts[room] <= parent
    && (parent == starts[room] || HasRowAt(db, room, parent - 1))
    && (Settled(row.state) <==> parent < db.cursors[room])
  }

  /** Groups, cursors and starts go together; everything up to a cursor was received. */
  ghost predicate CursorsOk(db: Database, starts: Starts) {
    && db.groups.Keys == db.cursors.Keys == starts.Keys
    && (forall room :: room in db.groups ==> db.groups[room].group.roster <= db.contacts)
    && (forall room :: room in db.groups && db.groups[room].pending.Some? ==>
          db.groups[room].pending.value.roster <= db.contacts)
    && (forall room :: room in db.cursors ==> starts[room] <= db.cursors[room])
    && (forall room, k :: room in db.cursors && starts[room] <= k < db.cursors[room] ==> HasRowAt(db, room, k))
  }

  predicate IsAttempt(request: Request) { request.AppendRoomOperation? || request.ReserveKeyPackage? }

  /** The outbox row is the attempt of the intent of that room. */
  ghost predicate AttemptOf(db: Database, room: RoomId, id: MessageId) {
    && room in db.intents
    && db.intents[room].attempt == Some(id)
    && id in db.outbox
    && match db.outbox[id].request
       case AppendRoomOperation(operation) => operation.room == room
       case ReserveKeyPackage(recipient) =>
         db.intents[room].target == Some(recipient) && db.intents[room].package == None
       case _ => false
  }

  ghost predicate Owned(db: Database, id: MessageId) { exists room :: AttemptOf(db, room, id) }

  /** Every attempt in the outbox belongs to an intent and the other way round. */
  ghost predicate AttemptsOk(db: Database) {
    && (forall room :: room in db.intents ==> room in db.groups)
    && (forall room :: room in db.intents && db.intents[room].attempt.Some? ==>
          AttemptOf(db, room, db.intents[room].attempt.value))
    && (forall id :: id in db.outbox && IsAttempt(db.outbox[id].request) ==> Owned(db, id))
    && (forall id :: id in db.outbox && id.Receipt? ==> db.outbox[id].request.Acknowledge?)
  }

  /** An append whose event has not come back was built on the current cursor. */
  ghost predicate ParentsOk(db: Database) {
    forall id :: id in db.outbox && db.outbox[id].request.AppendRoomOperation? && id !in db.inbox ==>
      db.outbox[id].request.operation.parent == Cursor(db, db.outbox[id].request.operation.room)
  }

  ghost predicate ClientOk(db: Database, starts: Starts) {
    InboxOk(db, starts) && CursorsOk(db, starts) && AttemptsOk(db) && ParentsOk(db)
  }

  lemma ClientStart(user: UserId)
    ensures ClientOk(Fresh(user), map[])
  {}

  // ----- frames -----

  /** Tables the invariant does not read. */
  lemma Irrelevant(db: Database, db': Database, starts: Starts)
    requires ClientOk(db, starts)
    requires db'.intents == db.intents && db'.outbox == db.outbox && db'.inbox == db.inbox
    requires db'.cursors == db.cursors && db'.groups.Keys == db.groups.Keys
    requires db.contacts <= db'.contacts
    requires forall room :: room in db.groups ==>
               && db'.groups[room].group.roster <= db'.contacts
               && (db'.groups[room].pending.Some? ==> db'.groups[room].pending.value.roster <= db'.contacts)
    ensures ClientOk(db', starts)
  {
    RowsFramed(db, db', starts);
  }

  lemma RowsFramed(db: Database, db': Database, starts: Starts)
    requires InboxOk(db, starts) && CursorsOk(db, starts)
    requires db'.inbox == db.inbox && db'.cursors == db.cursors
    ensures InboxOk(db', starts)
    ensures forall room, k :: HasRowAt(db, room, k) ==> HasRowAt(db', room, k)
  {
    forall room, k | HasRowAt(db, room, k) ensures HasRowAt(db', room, k) {
      var id :| id in db.inbox && At(db.inbox[id], room, k);
      assert id in db'.inbox && At(db'.inbox[id], room, k);
    }
    forall id | id in db'.inbox ensures RowPlaced(db', starts, db'.inbox[id]) {
      assert RowPlaced(db, starts, db.inbox[id]);
    }
  }

  /** A request that is no attempt enters the outbox. */
  lemma SaveKept(db: Database, starts: Starts, id: MessageId, request: Request)
    requires ClientOk(db, starts) && !IsAttempt(request)
    requires id.Random? ==> id !in db.outbox
    requires id.Receipt? ==> request.Acknowledge?
    ensures SaveOutbox(db, id, request).Some? ==> ClientOk(SaveOutbox(db, id, request).value, starts)
  {
    if SaveOutbox(db, id, request).Some? && id !in db.outbox {
      var db' := SaveOutbox(db, id, request).value;
      RowsFramed(db, db', starts);
      forall other | other in db'.outbox && IsAttempt(db'.outbox[other].request)
        ensures Owned(db', other)
      {
        var room :| AttemptOf(db, room, other);
        assert AttemptOf(db', room, other);
      }
    }
  }

  /** The attempt leaves the outbox and its intent at once. */
  ghost predicate Released(intents: map<RoomId, Intent>, intents': map<RoomId, Intent>, id: MessageId) {
    && (forall room :: room in intents' ==> room in intents)
    && (forall room :: room in intents && intents[room].attempt != Some(id) ==>
          room in intents' && intents'[room] == intents[room])
    && (forall room :: room in intents' && intents[room].attempt == Some(id) ==> intents'[room].attempt == None)
  }

  lemma ReleaseKept(db: Database, db': Database, starts: Starts, id: MessageId)
    requires ClientOk(db, starts)
    requires db'.outbox == db.outbox - {id} && Released(db.intents, db'.intents, id)
    requires db'.inbox == db.inbox && db'.cursors == db.cursors && db'.groups.Keys == db.groups.Keys
    requires CursorsOk(db', starts)
    ensures ClientOk(db', starts)
  {
    RowsFramed(db, db', starts);
    ReleaseAttempts(db, db', id);
  }

  lemma ReleaseAttempts(db: Database, db': Database, id: MessageId)
    requires AttemptsOk(db) && db'.groups.Keys == db.groups.Keys
    requires db'.outbox == db.outbox - {id} && Released(db.intents, db'.intents, id)
    ensures AttemptsOk(db')
  {
    forall other | other in db'.outbox && IsAttempt(db'.outbox[other].request)
      ensures Owned(db', other)
    {
      var room :| AttemptOf(db, room, other);
      assert AttemptOf(db', room, other);
    }
    forall room | room in db'.intents && db'.intents[room].attempt.Some?
      ensures AttemptOf(db', room, db'.intents[room].attempt.value)
    {
      assert AttemptOf(db, room, db.intents[room].attempt.value);
    }
  }

  lemma CursorsFramed(db: Database, db': Database, starts: Starts)
    requires InboxOk(db, starts) && CursorsOk(db, starts)
    requires db'.inbox == db.inbox && db'.cursors == db.cursors && db'.groups.Keys == db.groups.Keys
    requires db.contacts <= db'.contacts
    requires forall room :: room in db.groups ==>
               && db'.groups[room].group.roster <= db'.contacts
               && (db'.groups[room].pending.Some? ==> db'.groups[room].pending.value.roster <= db'.contacts)
    ensures CursorsOk(db', starts)
  {
    RowsFramed(db, db', starts);
  }

  // ----- answers -----

  lemma NotAttempted(db: Database, id: MessageId)
    requires AttemptsOk(db) && id in db.outbox && !IsAttempt(db.outbox[id].request)
    ensures forall room :: room in db.intents ==> db.intents[room].attempt != Some(id)
  {
    forall room | room in db.intents ensures db.intents[room].attempt != Some(id) {
      assert db.intents[room].attempt.Some? ==> AttemptOf(db, room, db.intents[room].attempt.value);
    }
  }

  lemma RemoveKept(db: Database, starts: Starts, id: MessageId)
    requires ClientOk(db, starts) && id in db.outbox && !IsAttempt(db.outbox[id].request)
    ensures ClientOk(RemoveOutbox(db, id), starts)
  {
    NotAttempted(db, id);
    var db' := RemoveOutbox(db, id);
    CursorsFramed(db, db', starts);
    ReleaseKept(db, db', starts, id);
  }

  lemma CreationKept(db: Database, user: UserId, starts: Starts, id: MessageId, room: RoomId)
    requires ClientOk(db, starts) && user in db.contacts
    requires id in db.outbox && !IsAttempt(db.outbox[id].request)
    ensures var db' := CompleteCreation(db, user, id, room); ClientOk(db', NewStarts(starts, db'))
  {
    var removed := RemoveOutbox(db, id);
    RemoveKept(db, starts, id);
    var db' := CompleteCreation(db, user, id, room);
    var starts' := NewStarts(starts, db');
    if room in db.groups {
      assert db' == removed && starts' == starts;
    } else {
      OpenKept(removed, db', starts, room, 0);
      StartsGrow(db, starts, room, 0);
    }
  }

  /** A room comes into use: no row, intent or attempt of it exists yet. */
  lemma OpenKept(db: Database, db': Database, starts: Starts, room: RoomId, start: nat)
    requires ClientOk(db, starts) && room !in db.groups
    requires db'.outbox == db.outbox && db'.intents == db.intents && db'.inbox == db.inbox
             && db'.contacts == db.contacts
    requires db'.cursors == db.cursors[room := start]
    requires room in db'.groups && db'.groups == db.groups[room := db'.groups[room]]
    requires db'.groups[room].group.roster <= db'.contacts && db'.groups[room].pending.None?
    ensures ClientOk(db', starts[room := start])
  {
    forall r, k | HasRowAt(db, r, k) ensures HasRowAt(db', r, k) {
      var id :| id in db.inbox && At(db.inbox[id], r, k);
      assert id in db'.inbox && At(db'.inbox[id], r, k);
    }
    forall id | id in db'.inbox ensures RowPlaced(db', starts[room := start], db'.inbox[id]) {
      assert RowPlaced(db, starts, db.inbox[id]);
    }
    OpenAttempts(db, db', room, start);
  }

  lemma OpenAttempts(db: Database, db': Database, room: RoomId, start: nat)
    requires AttemptsOk(db) && ParentsOk(db) && room !in db.groups
    requires db'.outbox == db.outbox && db'.intents == db.intents && db'.inbox == db.inbox
    requires db'.cursors == db.cursors[room := start] && db'.groups.Keys == db.groups.Keys + {room}
    ensures AttemptsOk(db') && ParentsOk(db')
  {
    forall id | id in db'.outbox && IsAttempt(db'.outbox[id].request) ensures Owned(db', id) {
      var r :| AttemptOf(db, r, id);
      assert AttemptOf(db', r, id);
    }
    forall id | id in db'.outbox && db'.outbox[id].request.AppendRoomOperation? && id !in db'.inbox
      ensures db'.outbox[id].request.operation.parent == Cursor(db', db'.outbox[id].request.operation.room)
    {
      var r :| AttemptOf(db, r, id);
    }
    forall r | r in db'.intents && db'.intents[r].attempt.Some?
      ensures AttemptOf(db', r, db'.intents[r].attempt.value)
    {
      assert AttemptOf(db, r, db.intents[r].attempt.value);
    }
  }

  lemma AcceptedAnswerKept(db: Database, user: UserId, starts: Starts, id: MessageId)
    requires ClientOk(db, starts) && id in db.outbox && db.outbox[id].request.AppendRoomOperation?
    ensures var received := ReceiveEvent(db, Event(id, user, db.outbox[id].request.operation));
            received.Some? ==> ClientOk(received.value, starts)
  {
    var event := Event(id, user, db.outbox[id].request.operation);
    var room :| AttemptOf(db, room, id);
    if ReceiveEvent(db, event).Some? && id !in db.inbox {
      InsertKept(db, starts, event);
    }
  }

  /** A row at the cursor, or after the last one, enters the inbox. */
  lemma InsertKept(db: Database, starts: Starts, event: Event)
    requires ClientOk(db, starts) && event.operation.room in db.groups
    requires event.id !in db.inbox && !HasRowAt(db, event.operation.room, event.operation.parent)
    requires event.operation.parent >= Cursor(db, event.operation.room)
    requires event.operation.parent == Cursor(db, event.operation.room)
             || HasRowAt(db, event.operation.room, event.operation.parent - 1)
    ensures ClientOk(db.(inbox := db.inbox[event.id := InboxRow(event, Pending)]), starts)
  {
    var db' := db.(inbox := db.inbox[event.id := InboxRow(event, Pending)]);
    InsertedRowsStay(db, db', event);
    InsertedPlaced(db, db', starts, event);
    AttemptsFramed(db, db');
  }

  lemma InsertedRowsStay(db: Database, db': Database, event: Event)
    requires event.id !in db.inbox && db'.inbox == db.inbox[event.id := InboxRow(event, Pending)]
    ensures forall r, k :: HasRowAt(db, r, k) ==> HasRowAt(db', r, k)
  {
    forall r, k | HasRowAt(db, r, k) ensures HasRowAt(db', r, k) {
      var id :| id in db.inbox && At(db.inbox[id], r, k);
      assert id in db'.inbox && At(db'.inbox[id], r, k);
    }
  }

  lemma InsertedPlaced(db: Database, db': Database, starts: Starts, event: Event)
    requires InboxOk(db, starts) && CursorsOk(db, starts)
    requires event.operation.room in db.groups
    requires event.id !in db.inbox && !HasRowAt(db, event.operation.room, event.operation.parent)
    requires event.operation.parent >= Cursor(db, event.operation.room)
    requires event.operation.parent == Cursor(db, event.operation.room)
             || HasRowAt(db, event.operation.room, event.operation.parent - 1)
    requires db'.inbox == db.inbox[event.id := InboxRow(event, Pending)] && db'.cursors == db.cursors
    ensures InboxOk(db', starts)
  {
    var room, parent := event.operation.room, event.operation.parent;
    InsertedRowsStay(db, db', event);
    forall id | id in db'.inbox ensures RowPlaced(db', starts, db'.inbox[id]) {
      if id != event.id {
        assert RowPlaced(db, starts, db.inbox[id]);
      } else {
        assert parent > starts[room] && parent == Cursor(db, room) ==> HasRowAt(db, room, parent - 1);
      }
    }
  }

  lemma AttemptsFramed(db: Database, db': Database)
    requires AttemptsOk(db)
    requires db'.intents == db.intents && db'.outbox == db.outbox && db.groups.Keys <= db'.groups.Keys
    ensures AttemptsOk(db')
  {
    forall id | id in db'.outbox && IsAttempt(db'.outbox[id].request) ensures Owned(db', id) {
      var r :| AttemptOf(db, r, id);
      assert AttemptOf(db', r, id);
    }
    forall r | r in db'.intents && db'.intents[r].attempt.Some?
      ensures AttemptOf(db', r, db'.intents[r].attempt.value)
    {
      assert AttemptOf(db, r, db.intents[r].attempt.value);
    }
  }

  lemma Releases(intents: map<RoomId, Intent>, id: MessageId)
    ensures Released(intents, Detach(intents, id), id)
    ensures Released(intents, DropIntents(intents, id), id)
  {}

  lemma DiscardKept(db: Database, starts: Starts, room: RoomId)
    requires ClientOk(db, starts) && DiscardPending(db, room).Some?
    ensures ClientOk(DiscardPending(db, room).value, starts)
  {
    Irrelevant(db, DiscardPending(db, room).value, starts);
  }

  lemma ReleasedKept(db: Database, starts: Starts, id: MessageId, intents: map<RoomId, Intent>,
                     history: map<MessageId, HistoryRow>)
    requires ClientOk(db, starts) && Released(db.intents, intents, id)
    ensures ClientOk(RemoveOutbox(db, id).(intents := intents, history := history), starts)
  {
    var db' := RemoveOutbox(db, id).(intents := intents, history := history);
    CursorsFramed(db, db', starts);
    ReleaseKept(db, db', starts, id);
  }

  lemma ConflictKept(db: Database, starts: Starts, id: MessageId, operation: Append)
    requires ClientOk(db, starts)
    ensures CompleteConflict(db, id, operation).Some? ==> ClientOk(CompleteConflict(db, id, operation).value, starts)
  {
    var cleared := if operation.contentType == Commit then DiscardPending(db, operation.room) else Some(db);
    if cleared.Some? {
      if operation.contentType == Commit { DiscardKept(db, starts, operation.room); }
      Releases(cleared.value.intents, id);
      ReleasedKept(cleared.value, starts, id, Detach(cleared.value.intents, id), cleared.value.history - {id});
    }
  }

  lemma RefusalKept(db: Database, starts: Starts, id: MessageId, request: Request)
    requires ClientOk(db, starts)
    ensures CompleteRefusal(db, id, request).Some? ==> ClientOk(CompleteRefusal(db, id, request).value, starts)
  {
    var commit := request.AppendRoomOperation? && request.operation.contentType == Commit;
    var cleared := if commit then DiscardPending(db, request.operation.room) else Some(db);
    if cleared.Some? {
      if commit { DiscardKept(db, starts, request.operation.room); }
      Releases(cleared.value.intents, id);
      ReleasedKept(cleared.value, starts, id, DropIntents(cleared.value.intents, id), cleared.value.history);
    }
  }

  lemma ReservationKept(db: Database, starts: Starts, id: MessageId, recipient: UserId, package: Blob)
    requires ClientOk(db, starts) && id in db.outbox && db.outbox[id].request == ReserveKeyPackage(recipient)
    ensures var db' := CompleteReservation(db, id, recipient, package); db'.Some? ==> ClientOk(db'.value, starts)
  {
    if CompleteReservation(db, id, recipient, package).Some? {
      forall room | room in db.intents && db.intents[room].attempt == Some(id)
        ensures Reserves(db.intents[room], id, recipient)
      {
        assert AttemptOf(db, room, id);
      }
      ReleasedKept(db, starts, id, AttachPackage(db.intents, id, recipient, package), db.history);
    }
  }

  lemma StartsSame(db: Database, starts: Starts)
    requires ClientOk(db, starts)
    ensures NewStarts(starts, db) == starts
  {}

  lemma AnswerKept(db: Database, user: UserId, starts: Starts, id: MessageId, response: Response)
    requires ClientOk(db, starts) && user in db.contacts && id in db.outbox
    ensures var db' := Complete(db, user, id, db.outbox[id].request, response);
            db'.Some? ==> ClientOk(db'.value, NewStarts(starts, db'.value))
  {
    var request := db.outbox[id].request;
    var db' := Complete(db, user, id, request, response);
    if db'.Some? {
      if request.CreateRoom? && response.RoomCreated? {
        CreationKept(db, user, starts, id, response.room);
      } else {
        AnswerKeptElse(db, user, starts, id, response, db'.value);
        StartsSame(db'.value, starts);
      }
    }
  }

  lemma AnswerKeptElse(
    db: Database, user: UserId, starts: Starts, id: MessageId, response: Response, db': Database)
    requires ClientOk(db, starts) && id in db.outbox
    requires !(db.outbox[id].request.CreateRoom? && response.RoomCreated?)
    requires Complete(db, user, id, db.outbox[id].request, response) == Some(db')
    ensures ClientOk(db', starts)
  {
    var request := db.outbox[id].request;
    if response.Rejected? {
      if !IsTransient(response) { RefusalKept(db, starts, id, request); }
    } else if IsAttempt(request) {
      AttemptAnswerKept(db, user, starts, id, response, db');
    } else {
      RemoveKept(db, starts, id);
    }
  }

  lemma AttemptAnswerKept(
    db: Database, user: UserId, starts: Starts, id: MessageId, response: Response, db': Database)
    requires ClientOk(db, starts) && id in db.outbox && IsAttempt(db.outbox[id].request) && !response.Rejected?
    requires Complete(db, user, id, db.outbox[id].request, response) == Some(db')
    ensures ClientOk(db', starts)
  {
    if response.KeyPackage? {
      ReservationKept(db, starts, id, db.outbox[id].request.recipient, response.package);
    } else if response.AppendAccepted? {
      AcceptedAnswerKept(db, user, starts, id);
    } else {
      ConflictKept(db, starts, id, db.outbox[id].request.operation);
    }
  }

  // ----- processing events -----

  /** No append of the room is waiting for its event. */
  ghost predicate Quiet(db: Database, room: RoomId) {
    forall id ::
      (id in db.outbox && db.outbox[id].request.AppendRoomOperation?
       && db.outbox[id].request.operation.room == room) ==> id in db.inbox
  }

  lemma ResolvedIsQuiet(db: Database, room: RoomId)
    requires AttemptsOk(db) && !Unresolved(db, room)
    ensures Quiet(db, room)
  {
    forall id | id in db.outbox && db.outbox[id].request.AppendRoomOperation?
                && db.outbox[id].request.operation.room == room
      ensures id in db.inbox
    {
      assert Owned(db, id);
      var r :| AttemptOf(db, r, id);
    }
  }

  /** The row of an event that is next in its room. */
  ghost predicate NextUp(db: Database, event: Event) {
    && event.id in db.inbox && db.inbox[event.id].event == event
    && event.operation.room in db.cursors && db.cursors[event.operation.room] == event.operation.parent
  }

  lemma AdvancedRow(db: Database, starts: Starts, event: Event, state: RowState, id: MessageId)
    requires SequencesUnique(db) && NextUp(db, event) && Settled(state)
    requires id in db.inbox && RowPlaced(db, starts, db.inbox[id])
    ensures RowPlaced(Advance(db, event, state), starts, Advance(db, event, state).inbox[id])
  {
    AdvancedRowsStay(db, Advance(db, event, state), event.id, state);
    assert SamePlace(db.inbox[id].event, event) ==> id == event.id;
  }

  lemma AdvancedInbox(db: Database, starts: Starts, event: Event, state: RowState)
    requires InboxOk(db, starts) && SequencesUnique(db) && NextUp(db, event) && Settled(state)
    ensures InboxOk(Advance(db, event, state), starts)
  {
    var db' := Advance(db, event, state);
    forall id | id in db'.inbox ensures RowPlaced(db', starts, db'.inbox[id]) {
      AdvancedRow(db, starts, event, state, id);
    }
  }

  lemma AdvancedCursors(db: Database, starts: Starts, event: Event, state: RowState)
    requires CursorsOk(db, starts) && NextUp(db, event)
    ensures CursorsOk(Advance(db, event, state), starts)
  {
    var db' := Advance(db, event, state);
    AdvancedRowsStay(db, db', event.id, state);
    assert At(db.inbox[event.id], event.operation.room, event.operation.parent);
    assert HasRowAt(db, event.operation.room, event.operation.parent);
    assert db'.cursors.Keys == db.cursors.Keys;
  }

  lemma AdvancedRowsStay(db: Database, db': Database, id: MessageId, state: RowState)
    requires db'.inbox == MarkRow(db.inbox, id, state)
    ensures forall r, k :: HasRowAt(db, r, k) ==> HasRowAt(db', r, k)
  {
    forall r, k | HasRowAt(db, r, k) ensures HasRowAt(db', r, k) {
      var other :| other in db.inbox && At(db.inbox[other], r, k);
      assert other in db'.inbox && At(db'.inbox[other], r, k);
    }
  }

  lemma AdvancedKept(db: Database, starts: Starts, event: Event, state: RowState)
    requires ClientOk(db, starts) && SequencesUnique(db) && Quiet(db, event.operation.room)
    requires NextUp(db, event) && Settled(state)
    ensures ClientOk(Advance(db, event, state), starts)
  {
    AdvancedInbox(db, starts, event, state);
    AdvancedCursors(db, starts, event, state);
    AttemptsFramed(db, Advance(db, event, state));
  }

  lemma FinishKept(db: Database, user: UserId, starts: Starts, event: Event, state: RowState)
    requires ClientOk(db, starts) && SequencesUnique(db) && Quiet(db, event.operation.room)
    requires NextUp(db, event) && Settled(state)
    ensures FinishEvent(db, user, event, state).Some? ==> ClientOk(FinishEvent(db, user, event, state).value, starts)
  {
    AdvancedKept(db, starts, event, state);
    SaveKept(Advance(db, event, state), starts, AcknowledgementId(user, [event.id], []), Acknowledge([event.id], []));
  }

  /** Two rows never have the same place in a room. */
  ghost predicate SequencesUnique(db: Database) {
    forall a, b :: a in db.inbox && b in db.inbox && SamePlace(db.inbox[a].event, db.inbox[b].event) ==> a == b
  }

  predicate SamePlace(a: Event, b: Event) {
    a.operation.room == b.operation.room && a.operation.parent == b.operation.parent
  }

  /** The groups of a step: rosters stay within the contacts. */
  lemma RegroupKept(db: Database, db': Database, starts: Starts, room: RoomId)
    requires ClientOk(db, starts) && room in db.groups && room in db'.groups
    requires db' == db.(groups := db.groups[room := db'.groups[room]], history := db'.history)
    requires db'.groups[room].group.roster <= db.contacts
    requires db'.groups[room].pending.Some? ==> db'.groups[room].pending.value.roster <= db.contacts
    ensures ClientOk(db', starts)
  {
    Irrelevant(db, db', starts);
  }

  lemma ApplyOwnKept(db: Database, user: UserId, starts: Starts, event: Event)
    requires ClientOk(db, starts) && SequencesUnique(db) && Quiet(db, event.operation.room)
    requires NextUp(db, event)
    ensures ApplyOwn(db, user, event).Some? ==> ClientOk(ApplyOwn(db, user, event).value, starts)
  {
    if ApplyOwn(db, user, event).Some? {
      var room := event.operation.room;
      var db0 := if event.operation.contentType == Commit then ApplyAcceptedCommit(db, room).value else db;
      if event.operation.contentType == Commit { RegroupKept(db, db0, starts, room); }
      ClaimKept(db0, starts, event);
      FinishKept(Claim(db0, event), user, starts, event, Applied);
    }
  }

  lemma ClaimQuiet(db: Database, event: Event)
    requires SequencesUnique(db) && Quiet(db, event.operation.room)
    ensures SequencesUnique(Claim(db, event)) && Quiet(Claim(db, event), event.operation.room)
    ensures Claim(db, event).inbox == db.inbox && Claim(db, event).cursors == db.cursors
  {}

  lemma ClaimKept(db: Database, starts: Starts, event: Event)
    requires ClientOk(db, starts) && SequencesUnique(db) && Quiet(db, event.operation.room)
    ensures ClientOk(Claim(db, event), starts)
    ensures SequencesUnique(Claim(db, event)) && Quiet(Claim(db, event), event.operation.room)
    ensures Claim(db, event).inbox == db.inbox && Claim(db, event).cursors == db.cursors
  {
    ClaimQuiet(db, event);
    Releases(db.intents, event.id);
    ReleasedKept(db, starts, event.id, DropIntents(db.intents, event.id),
                 SetSequence(db.history, event.id, event.operation.parent + 1));
  }

  lemma ProcessBoundKept(db: Database, user: UserId, starts: Starts, event: Event)
    requires ClientOk(db, starts) && ProcessBound(db, user, event).Opened?
    ensures var db1 := ProcessBound(db, user, event).db;
            ClientOk(db1, starts) && db1.inbox == db.inbox && db1.outbox == db.outbox && db1.cursors == db.cursors
  {
    var db1 := ProcessBound(db, user, event).db;
    assert db1 == db.(groups := db.groups[event.operation.room := db1.groups[event.operation.room]]);
    RegroupKept(db, db1, starts, event.operation.room);
  }

  lemma RememberKept(db: Database, starts: Starts, event: Event, plaintext: Option<seq<byte>>)
    requires ClientOk(db, starts)
    ensures var db' := Remember(db, event, plaintext);
            ClientOk(db', starts) && db'.inbox == db.inbox && db'.outbox == db.outbox && db'.cursors == db.cursors
  {
    Irrelevant(db, Remember(db, event, plaintext), starts);
  }

  lemma StuckKept(db: Database, starts: Starts, id: MessageId)
    requires ClientOk(db, starts) && id in db.inbox && !Settled(db.inbox[id].state)
    ensures ClientOk(db.(inbox := MarkRow(db.inbox, id, Stuck)), starts)
  {
    var db' := db.(inbox := MarkRow(db.inbox, id, Stuck));
    AdvancedRowsStay(db, db', id, Stuck);
    forall other | other in db'.inbox ensures RowPlaced(db', starts, db'.inbox[other]) {
      assert RowPlaced(db, starts, db.inbox[other]);
    }
    AttemptsFramed(db, db');
  }

  lemma ApplyOtherKept(db: Database, user: UserId, starts: Starts, event: Event)
    requires ClientOk(db, starts) && SequencesUnique(db) && Quiet(db, event.operation.room)
    requires NextUp(db, event)
    ensures ApplyOther(db, user, event).Some? ==> ClientOk(ApplyOther(db, user, event).value, starts)
  {
    match ProcessBound(db, user, event) {
      case Failure =>
      case FaultBlocked => WaitingKept(db, starts, event);
      case FaultRejected => FinishKept(db, user, starts, event, Refused);
      case Opened(db1, plaintext) =>
        OpenedKept(db, user, starts, event, db1, plaintext);
    }
  }

  lemma WaitingKept(db: Database, starts: Starts, event: Event)
    requires ClientOk(db, starts) && NextUp(db, event)
    ensures ClientOk(db.(inbox := MarkRow(db.inbox, event.id, Stuck)), starts)
  {
    assert RowPlaced(db, starts, db.inbox[event.id]);
    StuckKept(db, starts, event.id);
  }

  lemma OpenedKept(
    db: Database, user: UserId, starts: Starts, event: Event, db1: Database, plaintext: Option<seq<byte>>)
    requires ClientOk(db, starts) && SequencesUnique(db) && Quiet(db, event.operation.room)
    requires NextUp(db, event)
    requires ProcessBound(db, user, event) == Opened(db1, plaintext)
    ensures var db' := FinishEvent(Remember(db1, event, plaintext), user, event, Applied);
            db'.Some? ==> ClientOk(db'.value, starts)
  {
    ProcessBoundKept(db, user, starts, event);
    RememberKept(db1, starts, event, plaintext);
    FinishKept(Remember(db1, event, plaintext), user, starts, event, Applied);
  }

  // ----- building -----

  lemma AttachKept(db: Database, db': Database, starts: Starts, room: RoomId, id: MessageId, request: Request)
    requires ClientOk(db, starts) && Unseen(db, id) && room in db.intents && room in db.groups
    requires db.intents[room].attempt.None?
    requires id in db'.outbox && db'.outbox[id].request == request && db'.outbox == db.outbox[id := db'.outbox[id]]
    requires db'.intents == db.intents[room := db.intents[room].(attempt := Some(id))]
    requires db'.inbox == db.inbox && db'.cursors == db.cursors && db'.groups.Keys == db.groups.Keys
    requires CursorsOk(db', starts)
    requires match request
             case AppendRoomOperation(operation) => operation.room == room && operation.parent == Cursor(db, room)
             case ReserveKeyPackage(recipient) =>
               db.intents[room].target == Some(recipient) && db.intents[room].package == None
             case _ => false
    ensures ClientOk(db', starts)
  {
    RowsFramed(db, db', starts);
    AttachAttempts(db, db', room, id);
  }

  lemma AttachAttempts(db: Database, db': Database, room: RoomId, id: MessageId)
    requires AttemptsOk(db) && Unseen(db, id) && room in db.intents && db.intents[room].attempt.None?
    requires id in db'.outbox && db'.outbox == db.outbox[id := db'.outbox[id]]
    requires db'.intents == db.intents[room := db.intents[room].(attempt := Some(id))]
    requires db'.groups.Keys == db.groups.Keys
    requires AttemptOf(db', room, id)
    ensures AttemptsOk(db')
  {
    forall other | other in db'.outbox && IsAttempt(db'.outbox[other].request) ensures Owned(db', other) {
      if other != id {
        assert Owned(db, other);
        var r :| AttemptOf(db, r, other);
        assert AttemptOf(db', r, other);
      }
    }
    forall r | r in db'.intents && db'.intents[r].attempt.Some?
      ensures AttemptOf(db', r, db'.intents[r].attempt.value)
    {
      if r != room { assert AttemptOf(db, r, db.intents[r].attempt.value); }
    }
  }

  /** What building an attempt changes. */
  ghost predicate BuildsAttempt(db: Database, db': Database, room: RoomId, id: MessageId) {
    && room in db.intents && room in db.groups && room in db'.groups
    && id in db'.outbox && db'.outbox == db.outbox[id := db'.outbox[id]]
    && db'.intents == db.intents[room := db.intents[room].(attempt := Some(id))]
    && db'.groups == db.groups[room := db'.groups[room]]
    && db'.groups[room].group == db.groups[room].group
    && (db'.groups[room].pending.Some? ==> db'.groups[room].pending.value.roster <= db.contacts)
    && db'.inbox == db.inbox && db'.cursors == db.cursors && db'.contacts == db.contacts
    && match db'.outbox[id].request
       case AppendRoomOperation(operation) => operation.room == room && operation.parent == Cursor(db, room)
       case ReserveKeyPackage(recipient) =>
         db.intents[room].target == Some(recipient) && db.intents[room].package == None
       case _ => false
  }

  /** What building changes before the intent is marked. */
  ghost predicate SavesAttempt(db: Database, db': Database, room: RoomId, id: MessageId) {
    && room in db.groups && room in db'.groups
    && id in db'.outbox && db'.outbox == db.outbox[id := db'.outbox[id]]
    && db'.groups == db.groups[room := db'.groups[room]]
    && db'.groups[room].group == db.groups[room].group
    && (db'.groups[room].pending.Some? ==>
          db'.groups[room].pending == db.groups[room].pending || db'.groups[room].pending.value.roster <= db.contacts)
    && db'.inbox == db.inbox && db'.cursors == db.cursors && db'.contacts == db.contacts && db'.intents == db.intents
  }

  lemma SendShape(db: Database, user: UserId, room: RoomId, intent: Intent, id: MessageId, bytes: Ciphertext)
    requires id !in db.outbox && BuildSend(db, user, room, intent, id, bytes).Some?
    ensures var db' := BuildSend(db, user, room, intent, id, bytes).value;
            && SavesAttempt(db, db', room, id)
            && db'.outbox[id].request.AppendRoomOperation?
            && db'.outbox[id].request.operation.room == room
            && db'.outbox[id].request.operation.parent == Cursor(db, room)
  {}

  lemma AddShape(db: Database, user: UserId, room: RoomId, intent: Intent, id: MessageId, bytes: Ciphertext)
    requires id !in db.outbox && BuildAdd(db, user, room, intent, id, bytes).Some?
    ensures var db' := BuildAdd(db, user, room, intent, id, bytes).value;
            && SavesAttempt(db, db', room, id)
            && db'.outbox[id].request.AppendRoomOperation?
            && db'.outbox[id].request.operation.room == room
            && db'.outbox[id].request.operation.parent == Cursor(db, room)
  {}

  lemma BuildShape(db: Database, user: UserId, room: RoomId, id: MessageId, bytes: Ciphertext)
    requires id !in db.outbox && room in db.intents && HasGroup(db, room)
    requires db.groups[room].pending.Some? ==> db.groups[room].pending.value.roster <= db.contacts
    ensures BuildAttempt(db, user, room, id, bytes).Some? ==>
              BuildsAttempt(db, BuildAttempt(db, user, room, id, bytes).value, room, id)
  {
    var intent := db.intents[room];
    if BuildAttempt(db, user, room, id, bytes).Some? {
      if intent.package.Some? {
        AddShape(db, user, room, intent, id, bytes);
      } else if intent.target.None? {
        SendShape(db, user, room, intent, id, bytes);
      }
    }
  }

  lemma BuildKept(db: Database, db': Database, starts: Starts, room: RoomId, id: MessageId)
    requires ClientOk(db, starts) && Unseen(db, id) && room in db.intents && db.intents[room].attempt.None?
    requires BuildsAttempt(db, db', room, id)
    ensures ClientOk(db', starts)
  {
    CursorsFramed(db, db', starts);
    AttachKept(db, db', starts, room, id, db'.outbox[id].request);
  }

  // ----- Welcomes -----

  lemma MarkKept(db: Database, starts: Starts, cursor: nat, state: RowState)
    requires ClientOk(db, starts) && cursor in db.welcomes
    ensures ClientOk(MarkWelcome(db, cursor, state), starts)
  {
    Irrelevant(db, MarkWelcome(db, cursor, state), starts);
  }

  lemma JoinKept(db: Database, user: UserId, starts: Starts, cursor: nat, welcome: WelcomeDelivery, keyAvailable: bool)
    requires ClientOk(db, starts) && cursor in db.welcomes
    ensures var db' := JoinRoom(db, user, cursor, welcome, keyAvailable);
            db'.Some? ==> ClientOk(db'.value, NewStarts(starts, db'.value))
  {
    if JoinRoom(db, user, cursor, welcome, keyAvailable).Some? {
      JoinedKept(db, user, starts, cursor, welcome.room, welcome.attachment.body.content.group, welcome.sequence,
                 JoinRoom(db, user, cursor, welcome, keyAvailable).value);
    }
  }

  lemma EnteredKept(db: Database, starts: Starts, room: RoomId, group: Group, sequence: nat)
    requires ClientOk(db, starts) && room !in db.groups && group.roster <= db.contacts
    ensures ClientOk(EnterRoom(db, room, group, sequence), starts[room := sequence])
    ensures EnterRoom(db, room, group, sequence).cursors == db.cursors[room := sequence]
  {
    OpenKept(db, EnterRoom(db, room, group, sequence), starts, room, sequence);
  }

  /** The Welcome is settled and its receipt queued. */
  lemma SettledKept(db: Database, user: UserId, starts: Starts, cursor: nat, db': Database)
    requires ClientOk(db, starts) && cursor in db.welcomes
    requires SaveOutbox(MarkWelcome(db, cursor, Applied), AcknowledgementId(user, [], [cursor]),
                        Acknowledge([], [cursor])) == Some(db')
    ensures ClientOk(db', starts) && db'.cursors == db.cursors
  {
    MarkKept(db, starts, cursor, Applied);
    SaveKept(MarkWelcome(db, cursor, Applied), starts, AcknowledgementId(user, [], [cursor]),
             Acknowledge([], [cursor]));
  }

  lemma JoinedKept(
    db: Database, user: UserId, starts: Starts, cursor: nat, room: RoomId, group: Group, sequence: nat, db': Database)
    requires ClientOk(db, starts) && cursor in db.welcomes && room !in db.groups && group.roster <= db.contacts
    requires SaveOutbox(MarkWelcome(EnterRoom(db, room, group, sequence), cursor, Applied),
                        AcknowledgementId(user, [], [cursor]), Acknowledge([], [cursor])) == Some(db')
    ensures ClientOk(db', NewStarts(starts, db'))
  {
    EnteredKept(db, starts, room, group, sequence);
    SettledKept(EnterRoom(db, room, group, sequence), user, starts[room := sequence], cursor, db');
    StartsGrow(db, starts, room, sequence);
  }

  lemma StartsGrow(db: Database, starts: Starts, room: RoomId, start: nat)
    requires db.cursors.Keys == starts.Keys && room !in starts
    ensures forall db': Database :: db'.cursors == db.cursors[room := start] ==>
              NewStarts(starts, db') == starts[room := start]
  {}
}
