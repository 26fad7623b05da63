/**
  An add whose contact is in the group already. No commit can add the contact again, so building
  it fails, and nothing ever drops it (crates/grotto-client/src/delivery.rs).
 */
module LateAdds {
  import opened Records
  import opened ClientSpec
  import opened ClientInvariants
  import opened ClientTheorems
  import opened SyncSteps

  /** The room's intent is an add whose package is at hand and which has no attempt. */
  predicate AddWaits(db: Database, room: RoomId) {
    room in db.intents && db.intents[room].package.Some? && db.intents[room].attempt.None?
    && db.intents[room].target.Some?
  }

  predicate TooLate(db: Database, room: RoomId) {
    && AddWaits(db, room) && room in db.groups
    && db.intents[room].package.value.content == KeyPackageMessage(db.intents[room].target.value)
    && db.intents[room].target.value in db.groups[room].group.roster
  }

  /** Building it fails. */
  lemma TooLateFails(db: Database, user: UserId, room: RoomId, id: MessageId, bytes: Ciphertext)
    requires TooLate(db, room)
    ensures BuildAttempt(db, user, room, id, bytes) == None
  {}

  /** The intent is the same and no member has left. */
  ghost predicate Stays(db: Database, room: RoomId, db': Database) {
    && room in db.intents && room in db'.intents && db'.intents[room] == db.intents[room]
    && room in db.groups && room in db'.groups && db.groups[room].group.roster <= db'.groups[room].group.roster
  }

  lemma AnswerStays(db: Database, user: UserId, id: MessageId, response: Response, db': Database, room: RoomId)
    requires Next(db, user, Answer(id, response)) == Some(db') && TooLate(db, room) && HasGroup(db, room)
    ensures Stays(db, room, db')
  {
    var request := db.outbox[id].request;
    if request.CreateRoom? && response.RoomCreated? {
      CreationStays(db, user, id, response.room, room);
    } else if request.ReserveKeyPackage? && response.KeyPackage? {
      ReservationStays(db, id, request.recipient, response.package, db', room);
    } else if request.AppendRoomOperation? && response.HeadConflict? {
      ConflictStays(db, id, request.operation, db', room);
    } else if response.Rejected? && !IsTransient(response) {
      RefusalStays(db, id, request, db', room);
    }
  }

  lemma CreationStays(db: Database, user: UserId, id: MessageId, created: RoomId, room: RoomId)
    requires TooLate(db, room) && HasGroup(db, room)
    ensures Stays(db, room, CompleteCreation(db, user, id, created))
  {}

  lemma ReservationStays(db: Database, id: MessageId, recipient: UserId, package: Blob, db': Database, room: RoomId)
    requires CompleteReservation(db, id, recipient, package) == Some(db') && TooLate(db, room)
    ensures Stays(db, room, db')
  {}

  lemma ConflictStays(db: Database, id: MessageId, operation: Append, db': Database, room: RoomId)
    requires CompleteConflict(db, id, operation) == Some(db') && TooLate(db, room)
    ensures Stays(db, room, db')
  {}

  lemma RefusalStays(db: Database, id: MessageId, request: Request, db': Database, room: RoomId)
    requires CompleteRefusal(db, id, request) == Some(db') && TooLate(db, room)
    ensures Stays(db, room, db')
  {}

  lemma BuildStays(
    db: Database, user: UserId, other: RoomId, id: MessageId, bytes: Ciphertext, db': Database, room: RoomId)
    requires Next(db, user, Build(other, id, bytes)) == Some(db') && TooLate(db, room)
    requires db.groups[other].pending.Some? ==> db.groups[other].pending.value.roster <= db.contacts
    ensures Stays(db, room, db')
  {
    TooLateFails(db, user, room, id, bytes);
    if other != room {
      BuildShape(db, user, other, id, bytes);
    }
  }

  lemma OwnStays(db: Database, user: UserId, event: Event, db': Database, room: RoomId)
    requires ApplyOwn(db, user, event) == Some(db') && TooLate(db, room)
    requires event.operation.room != room
    ensures Stays(db, room, db')
  {
    var db0 := if event.operation.contentType == Commit then ApplyAcceptedCommit(db, event.operation.room).value
               else db;
    ClaimStays(db, db0, event, room);
    FinishStays(Claim(db0, event), user, event, Applied, db', room);
  }

  lemma ClaimStays(db: Database, db0: Database, event: Event, room: RoomId)
    requires TooLate(db, room) && db0.intents == db.intents && room in db0.groups
    requires db0.groups[room] == db.groups[room]
    ensures Stays(db, room, Claim(db0, event))
  {}

  lemma OtherStays(db: Database, user: UserId, event: Event, db': Database, room: RoomId)
    requires ApplyOther(db, user, event) == Some(db') && TooLate(db, room)
    ensures Stays(db, room, db')
  {
    var processed := ProcessBound(db, user, event);
    if processed.Opened? {
      var db2 := Remember(processed.db, event, processed.plaintext);
      OpenedStays(db, user, event, processed.db, processed.plaintext, room);
      FinishStays(db2, user, event, Applied, db', room);
    } else if processed.FaultRejected? {
      FinishStays(db, user, event, Refused, db', room);
    }
  }

  lemma OpenedStays(
    db: Database, user: UserId, event: Event, db1: Database, plaintext: Option<seq<byte>>, room: RoomId)
    requires ProcessBound(db, user, event) == Opened(db1, plaintext) && TooLate(db, room)
    ensures Stays(db, room, Remember(db1, event, plaintext))
  {}

  lemma FinishStays(db: Database, user: UserId, event: Event, state: RowState, db': Database, room: RoomId)
    requires FinishEvent(db, user, event, state) == Some(db') && room in db.intents && room in db.groups
    ensures Stays(db, room, db')
  {
    assert db'.intents == db.intents && db'.groups == db.groups;
  }

  lemma ProcessStays(db: Database, user: UserId, cursor: nat, keyAvailable: bool, db': Database, room: RoomId)
    requires cursor in db.welcomes && TooLate(db, room) && HasGroup(db, room)
    requires db' == MarkWelcome(db, cursor, Stuck)
             || JoinRoom(db, user, cursor, db.welcomes[cursor].record, keyAvailable) == Some(db')
    ensures Stays(db, room, db')
  {}

  lemma StepStays(db: Database, user: UserId, starts: Starts, action: Action, db': Database, room: RoomId)
    requires Disciplined(db, user, starts) && Next(db, user, action) == Some(db') && TooLate(db, room)
    ensures TooLate(db', room)
  {
    match action {
      case Build(other, id, bytes) => BuildStays(db, user, other, id, bytes, db', room);
      case Answer(id, response) => AnswerStays(db, user, id, response, db', room);
      case Apply(event) => ApplyStays(db, user, event, db', room);
      case Process(cursor, keyAvailable) =>
        ProcessCases(db, user, cursor, keyAvailable);
        ProcessStays(db, user, cursor, keyAvailable, db', room);
      case _ => PlainStays(db, user, action, db', room);
    }
  }

  lemma PlainStays(db: Database, user: UserId, action: Action, db': Database, room: RoomId)
    requires action.Import? || action.Issue? || action.Intend? || action.Receive? || action.Store?
    requires Next(db, user, action) == Some(db') && TooLate(db, room)
    ensures Stays(db, room, db')
  {}

  lemma ApplyStays(db: Database, user: UserId, event: Event, db': Database, room: RoomId)
    requires AttemptsOk(db) && Next(db, user, Apply(event)) == Some(db') && TooLate(db, room)
    ensures Stays(db, room, db')
  {
    if event.sender == user {
      AttemptIs(db, event.id);
      OwnStays(db, user, event, db', room);
    } else {
      OtherStays(db, user, event, db', room);
    }
  }

  /** Whatever the relay does and in every run: an add whose contact is a member already is
      never built, never dropped, and keeps its room's place for another intent. */
  lemma {:induction false} TooLateForGood(client: Client, user: UserId, actions: seq<Action>, room: RoomId)
    requires Disciplined(client.db, user, client.starts) && TooLate(client.db, room)
    ensures TooLate(RunClient(client, user, actions).db, room)
    decreases |actions|
  {
    if actions != [] {
      var next := Step(client, user, actions[0]);
      if Next(client.db, user, actions[0]).Some? {
        StepKept(client.db, user, client.starts, actions[0], next.db);
        StepStays(client.db, user, client.starts, actions[0], next.db, room);
      }
      TooLateForGood(next, user, actions[1..], room);
    }
  }
}
