/**
  What a client relies on before it acts, against any relay: it trusts exactly whom its user has
  imported, it has received nothing behind an attempt that waits, and it joins exactly by Welcomes
  it may trust.
 */
module Guards {
  import opened Records
  import opened RoomNames
  import opened ClientSpec
  import opened ClientInvariants
  import opened ClientTheorems
  import opened Provenance
  import opened Lineage
  import opened Receipts

  // ----- what a step leaves of the rest -----

  /** No intent gets an attempt, nothing in the outbox changes its place, and records stay. */
  ghost predicate Settling(db: Database, db': Database) {
    && (forall room :: room in db'.intents && db'.intents[room].attempt.Some? ==>
          room in db.intents && db.intents[room].attempt == db'.intents[room].attempt)
    && (forall id :: id in db'.outbox && id !in db.outbox ==>
          forall room :: room in db'.intents ==> db'.intents[room].attempt != Some(id))
    && (forall id :: id in db.inbox ==> id in db'.inbox)
  }

  lemma StillUnresolved(db: Database, db': Database, room: RoomId)
    requires Settling(db, db') && Unresolved(db', room)
    ensures Unresolved(db, room)
  {}

  /** Nothing of the room was received that the cursor has not passed. */
  ghost predicate Clear(db: Database) { forall room :: Unresolved(db, room) ==> !Backlog(db, room) }

  /** A step that receives nothing and moves no cursor of a room with an attempt. */
  lemma ClearKept(db: Database, db': Database)
    requires Clear(db) && Settling(db, db')
    requires forall id :: id in db'.inbox ==> id in db.inbox && db'.inbox[id].event == db.inbox[id].event
    requires forall room :: Unresolved(db', room) ==> Cursor(db', room) == Cursor(db, room)
    ensures Clear(db')
  {
    forall room | Unresolved(db', room) ensures !Backlog(db', room) {
      StillUnresolved(db, db', room);
      assert !Backlog(db, room);
    }
  }

  /** A record of a room that waits for nothing. */
  lemma InsertClear(db: Database, event: Event, db': Database)
    requires Clear(db) && !Unresolved(db', event.operation.room)
    requires db' == db || (event.id !in db.inbox && db' == db.(inbox := db.inbox[event.id := InboxRow(event, Pending)]))
    ensures Clear(db')
  {
    forall room | Unresolved(db', room) ensures !Backlog(db', room) {
      assert Unresolved(db, room) && !Backlog(db, room);
    }
  }

  lemma AcceptClear(db: Database, user: UserId, id: MessageId, operation: Append, db': Database)
    requires Clear(db) && AttemptsOk(db) && AttemptsDistinct(db)
    requires id in db.outbox && db.outbox[id].request == AppendRoomOperation(operation)
    requires ReceiveEvent(db, Event(id, user, operation)) == Some(db')
    ensures Clear(db')
  {
    ReceiveIs(db, Event(id, user, operation), db');
    assert Owned(db, id);
    var room :| AttemptOf(db, room, id);
    ReceivedHere(db, Event(id, user, operation), db');
    InsertClear(db, Event(id, user, operation), db');
  }

  lemma ReceivedHere(db: Database, event: Event, db': Database)
    requires ReceiveEvent(db, event) == Some(db')
    ensures event.id in db'.inbox
  {}

  lemma DropsClear(db: Database, id: MessageId, db': Database)
    requires Clear(db) && Drops(db, id, db') && Loosens(db, db')
    ensures Clear(db')
  {
    ClearKept(db, db');
  }

  lemma ReservationClear(db: Database, id: MessageId, recipient: UserId, package: Blob, db': Database)
    requires Clear(db) && CompleteReservation(db, id, recipient, package) == Some(db')
    ensures Clear(db')
  {
    ClearKept(db, db');
  }

  lemma CreationClear(db: Database, user: UserId, starts: Starts, id: MessageId, room: RoomId, db': Database)
    requires Clear(db) && CursorsOk(db, starts) && db' == CompleteCreation(db, user, id, room)
    ensures Clear(db')
  {
    CreationCases(db, user, starts, id, room);
    ClearKept(db, db');
  }

  lemma AnswerClear(db: Database, user: UserId, starts: Starts, id: MessageId, response: Response, db': Database)
    requires Clear(db) && Disciplined(db, user, starts) && Next(db, user, Answer(id, response)) == Some(db')
    ensures Clear(db')
  {
    var request := db.outbox[id].request;
    if response.AppendAccepted? {
      AcceptClear(db, user, id, request.operation, db');
    } else if response.HeadConflict? {
      ConflictIsDrop(db, id, request.operation, db');
      ConflictCalm(db, id, request.operation, db');
      DropsClear(db, id, db');
    } else if response.RoomCreated? {
      AnswerCreates(db, user, id, response, db');
      CreationClear(db, user, starts, id, response.room, db');
    } else if response.KeyPackage? {
      ReservationClear(db, id, request.recipient, response.package, db');
    } else if response.Rejected? && !IsTransient(response) {
      RefusalIsDrop(db, id, request, db');
      RefusalCalm(db, id, request, db');
      DropsClear(db, id, db');
    } else if !IsTransient(response) {
      OtherRetires(db, user, id, response, db');
      OtherAnswerCalm(db, user, id, response, db');
      DropsClear(db, id, db');
    }
  }

  lemma BuildClear(db: Database, room: RoomId, id: MessageId, db': Database)
    requires Clear(db) && Unseen(db, id) && !Backlog(db, room) && BuildsAttempt(db, db', room, id)
    ensures Clear(db')
  {
    forall r | Unresolved(db', r) ensures !Backlog(db', r) {
      if r != room { assert Unresolved(db, r) && !Backlog(db, r); }
      assert Backlog(db', r) ==> Backlog(db, r);
    }
  }

  /** Settling an event of a room that waits for nothing. */
  lemma SettleClear(db: Database, event: Event, state: RowState, db': Database)
    requires Clear(db) && AttemptsOk(db) && Advances(db, event, state, db') && Loosens(db, db')
    requires event.id in db.inbox && db.inbox[event.id].event == event && !Unresolved(db, event.operation.room)
    requires forall id :: id in db'.outbox && id !in db.outbox ==> id.Receipt?
    ensures Clear(db')
  {
    forall id, room | id in db'.outbox && id !in db.outbox && room in db'.intents
      ensures db'.intents[room].attempt != Some(id)
    {
      assert db'.intents[room].attempt == Some(id) ==> AttemptOf(db, room, id);
    }
    assert Settling(db, db');
    forall room | Unresolved(db', room) ensures Cursor(db', room) == Cursor(db, room) {
      StillUnresolved(db, db', room);
    }
    ClearKept(db, db');
  }

  lemma OtherClear(db: Database, user: UserId, event: Event, db': Database)
    requires Clear(db) && AttemptsOk(db) && ApplyOther(db, user, event) == Some(db')
    requires event.id in db.inbox && db.inbox[event.id].event == event && !Unresolved(db, event.operation.room)
    requires event.operation.room in db.groups && event.operation.room in db.cursors
    ensures Clear(db')
  {
    match ProcessBound(db, user, event) {
      case Failure =>
      case FaultBlocked => ClearKept(db, db');
      case FaultRejected =>
        FinishAdvances(db, db, user, event, Refused, db');
        SettleClear(db, event, Refused, db');
      case Opened(db1, plaintext) =>
        OpenedGenuine(db, user, event, db1, plaintext);
        OpenedChanges(db, user, event, db1, plaintext);
        RememberFrame(db1, event, plaintext);
        FinishAdvances(db, Remember(db1, event, plaintext), user, event, Applied, db');
        SettleClear(db, event, Applied, db');
    }
  }

  lemma ApplyClear(db: Database, user: UserId, starts: Starts, lines: Lines, event: Event, db': Database)
    requires Clear(db) && Disciplined(db, user, starts) && Proven(db, user) && Descends(db, user, starts, lines)
    requires Next(db, user, Apply(event)) == Some(db')
    ensures Clear(db')
  {
    if event.sender == user {
      OwnAdvances(db, user, event, db');
      OwnSettles(db, user, event, db');
      OwnReceipts(db, user, event, db');
      SettleClear(db, event, Applied, db');
    } else {
      OtherClear(db, user, event, db');
    }
  }

  lemma OwnReceipts(db: Database, user: UserId, event: Event, db': Database)
    requires ApplyOwn(db, user, event) == Some(db') && event.id in db.inbox
    ensures forall id :: id in db'.outbox && id !in db.outbox ==> id.Receipt?
  {
    var applied := if event.operation.contentType == Commit then ApplyAcceptedCommit(db, event.operation.room).value
                   else db;
    AppliedFrame(db, event.operation.room, event.operation.contentType == Commit, applied);
    ClaimIs(db, applied, event);
    FinishIs(Claim(applied, event), user, event, Applied, db');
  }

  lemma ProcessClear(db: Database, user: UserId, starts: Starts, cursor: nat, keyAvailable: bool, db': Database)
    requires Clear(db) && Disciplined(db, user, starts) && Next(db, user, Process(cursor, keyAvailable)) == Some(db')
    ensures Clear(db')
  {
    Keys(db, starts);
    ProcessJoins(db, user, cursor, keyAvailable, db');
    if Joins(db, user, cursor, db') {
      JoinClear(db, user, cursor, db');
    } else {
      ClearKept(db, db');
    }
  }

  lemma JoinClear(db: Database, user: UserId, cursor: nat, db': Database)
    requires Clear(db) && AttemptsOk(db) && Joins(db, user, cursor, db')
    ensures Clear(db')
  {
    forall id, room | id in db'.outbox && id !in db.outbox && room in db'.intents
      ensures db'.intents[room].attempt != Some(id)
    {
      assert db'.intents[room].attempt == Some(id) ==> AttemptOf(db, room, id);
    }
    ClearKept(db, db');
  }

  lemma AskClear(db: Database, user: UserId, starts: Starts, action: Action, db': Database)
    requires Clear(db) && Disciplined(db, user, starts) && Next(db, user, action) == Some(db')
    requires action.Import? || action.Issue? || action.Intend? || action.Store? || action.Receive?
    ensures Clear(db')
  {
    if action.Receive? {
      ReceiveIs(db, action.event, db');
      InsertClear(db, action.event, db');
    } else if action.Issue? {
      IssueClear(db, user, action.id, action.request, db');
    } else if action.Intend? {
      IntendClear(db, user, action.room, action.intent, db');
    } else {
      RestClear(db, user, action, db');
    }
  }

  lemma IntendClear(db: Database, user: UserId, room: RoomId, intent: Intent, db': Database)
    requires Clear(db) && Next(db, user, Intend(room, intent)) == Some(db')
    ensures Clear(db')
  {
    ClearKept(db, db');
  }

  lemma RestClear(db: Database, user: UserId, action: Action, db': Database)
    requires Clear(db) && (action.Import? || action.Store?) && Next(db, user, action) == Some(db')
    ensures Clear(db')
  {
    RestFrame(db, user, action, db');
    SameClear(db, db');
  }

  lemma RestFrame(db: Database, user: UserId, action: Action, db': Database)
    requires (action.Import? || action.Store?) && Next(db, user, action) == Some(db')
    ensures db'.intents == db.intents && db'.outbox == db.outbox && db'.inbox == db.inbox && db'.cursors == db.cursors
  {}

  lemma SameClear(db: Database, db': Database)
    requires Clear(db)
    requires db'.intents == db.intents && db'.outbox == db.outbox && db'.inbox == db.inbox && db'.cursors == db.cursors
    ensures Clear(db')
  {
    ClearKept(db, db');
  }

  lemma IssueClear(db: Database, user: UserId, id: MessageId, request: Request, db': Database)
    requires Clear(db) && Next(db, user, Issue(id, request)) == Some(db')
    ensures Clear(db')
  {
    SavePuts(db, id, request, db');
    ClearKept(db, db');
  }

  lemma StepClear(db: Database, user: UserId, starts: Starts, lines: Lines, action: Action, db': Database)
    requires Clear(db) && Disciplined(db, user, starts) && Proven(db, user) && Descends(db, user, starts, lines)
    requires Next(db, user, action) == Some(db')
    ensures Clear(db')
  {
    if action.Answer? {
      AnswerClear(db, user, starts, action.id, action.response, db');
    } else if action.Build? {
      BuildShape(db, user, action.room, action.id, action.bytes);
      BuildClear(db, action.room, action.id, db');
    } else if action.Apply? {
      ApplyClear(db, user, starts, lines, action.event, db');
    } else if action.Process? {
      ProcessClear(db, user, starts, action.cursor, action.keyAvailable, db');
    } else {
      AskClear(db, user, starts, action, db');
    }
  }

  /** On every run, while an attempt of a room waits for its answer, everything received of the room
      has been processed: nothing was built on a state that was already known to be old, and nothing
      was received behind the attempt's back. */
  lemma {:induction false} NothingBehindAttempts(user: UserId, actions: seq<Action>)
    ensures Clear(After(user, actions).db)
    decreases |actions|
  {
    if actions != [] {
      var before, action := actions[..|actions| - 1], actions[|actions| - 1];
      NothingBehindAttempts(user, before);
      assert actions == before + [action];
      LastStep(user, before, action);
      ReachedDescends(user, before);
      ReachedProven(user, before);
      var trace := RunTrace(Beginning(user), user, before);
      if Next(trace.client.db, user, action).Some? {
        StepClear(trace.client.db, user, trace.client.starts, trace.lines, action,
                  Next(trace.client.db, user, action).value);
      }
    }
  }

  // ----- contacts -----

  ghost predicate ImportedIn(actions: seq<Action>, contact: UserId) {
    exists i :: 0 <= i < |actions| && actions[i] == Import(contact)
  }

  lemma {:induction false} ImportedMore(actions: seq<Action>, action: Action, contact: UserId)
    ensures ImportedIn(actions + [action], contact) <==> ImportedIn(actions, contact) || action == Import(contact)
  {
    var more := actions + [action];
    if ImportedIn(actions, contact) {
      var i :| 0 <= i < |actions| && actions[i] == Import(contact);
      assert more[i] == Import(contact);
    }
    if action == Import(contact) { assert more[|actions|] == Import(contact); }
  }

  lemma StepContacts(db: Database, user: UserId, starts: Starts, action: Action, db': Database)
    requires Disciplined(db, user, starts) && Next(db, user, action) == Some(db')
    ensures db'.contacts == db.contacts + (if action.Import? then {action.contact} else {})
  {
    if action.Answer? {
      AnswerContacts(db, user, action.id, action.response, db');
    } else if action.Build? {
      BuildShape(db, user, action.room, action.id, action.bytes);
    } else if action.Apply? {
      ApplyContacts(db, user, action.event, db');
    } else if action.Process? {
      Keys(db, starts);
      ProcessJoins(db, user, action.cursor, action.keyAvailable, db');
    } else if action.Receive? {
      ReceiveIs(db, action.event, db');
    }
  }

  lemma AnswerContacts(db: Database, user: UserId, id: MessageId, response: Response, db': Database)
    requires Next(db, user, Answer(id, response)) == Some(db')
    ensures db'.contacts == db.contacts
  {
    if response.AppendAccepted? {
      ReceiveIs(db, response.event, db');
    } else if IsAttempt(db.outbox[id].request) {
      AttemptAnswerFrame(db, user, id, response, db');
    } else {
      OtherAnswerFrame(db, user, id, response, db');
    }
  }

  lemma ApplyContacts(db: Database, user: UserId, event: Event, db': Database)
    requires Next(db, user, Apply(event)) == Some(db')
    ensures db'.contacts == db.contacts
  {
    if event.sender == user {
      var applied := if event.operation.contentType == Commit then ApplyAcceptedCommit(db, event.operation.room).value
                     else db;
      AppliedFrame(db, event.operation.room, event.operation.contentType == Commit, applied);
      FinishIs(Claim(applied, event), user, event, Applied, db');
    } else {
      OtherContacts(db, user, event, db');
    }
  }

  lemma OtherContacts(db: Database, user: UserId, event: Event, db': Database)
    requires ApplyOther(db, user, event) == Some(db') && event.id in db.inbox
    ensures db'.contacts == db.contacts
  {
    match ProcessBound(db, user, event) {
      case Failure =>
      case FaultBlocked =>
      case FaultRejected => FinishIs(db, user, event, Refused, db');
      case Opened(db1, plaintext) =>
        OpenedGenuine(db, user, event, db1, plaintext);
        RememberFrame(db1, event, plaintext);
        FinishIs(Remember(db1, event, plaintext), user, event, Applied, db');
    }
  }

  /** On every run a client trusts its user and exactly those its user has imported, for good. */
  lemma {:induction false} ContactsAreImported(user: UserId, actions: seq<Action>, contact: UserId)
    ensures contact in After(user, actions).db.contacts <==> contact == user || ImportedIn(actions, contact)
    decreases |actions|
  {
    if actions != [] {
      var before, action := actions[..|actions| - 1], actions[|actions| - 1];
      ContactsAreImported(user, before, contact);
      ImportedMore(before, action, contact);
      assert actions == before + [action];
      LastStep(user, before, action);
      ReachedProven(user, before);
      var client := After(user, before);
      if Next(client.db, user, action).Some? {
        StepContacts(client.db, user, client.starts, action, Next(client.db, user, action).value);
      }
    }
  }

  // ----- the verdict on a Welcome -----

  /** The Welcome may be trusted and used: its key is at hand, a verified member of its group signed it
      for this user and place, everybody in its group is verified, and the room is new and named. */
  predicate Joinable(db: Database, user: UserId, welcome: WelcomeDelivery, keyAvailable: bool) {
    && keyAvailable && 1 <= welcome.sequence <= I64_MAX && NormalizeRoomName(welcome.roomName).Some?
    && welcome.room !in db.groups && welcome.attachment.body.content.WelcomeMessage?
    && welcome.attachment.body.content.room == welcome.room
    && welcome.attachment.body.content.group.roster <= db.contacts
    && welcome.inviter in welcome.attachment.body.content.group.roster
    && welcome.attachment.signature
       == Signature(welcome.inviter, Transcript(user, welcome.room, welcome.event, welcome.sequence,
                                                welcome.attachment.body))
  }

  /** On every run a Welcome that is tried is joined if and only if it may be, and is marked as blocked,
      to be tried again, otherwise. */
  lemma WelcomeVerdict(user: UserId, actions: seq<Action>, cursor: nat, keyAvailable: bool)
    ensures var db := After(user, actions).db;
            var next := Next(db, user, Process(cursor, keyAvailable));
            next.Some? ==>
              && cursor in db.welcomes && db.welcomes[cursor].state != Applied && cursor in next.value.welcomes
              && next.value.welcomes[cursor].state
                 == (if Joinable(db, user, db.welcomes[cursor].record, keyAvailable) then Applied else Stuck)
  {
    RunPays(user, actions);
    ReachedProven(user, actions);
    var client := After(user, actions);
    if Next(client.db, user, Process(cursor, keyAvailable)).Some? {
      TriedVerdict(client.db, user, client.starts, cursor, keyAvailable);
    }
  }

  lemma TriedVerdict(db: Database, user: UserId, starts: Starts, cursor: nat, keyAvailable: bool)
    requires CursorsOk(db, starts) && Canonical(db.outbox)
    requires Next(db, user, Process(cursor, keyAvailable)).Some?
    ensures var db' := Next(db, user, Process(cursor, keyAvailable)).value;
            && cursor in db.welcomes && db.welcomes[cursor].state != Applied && cursor in db'.welcomes
            && db'.welcomes[cursor].state
               == (if Joinable(db, user, db.welcomes[cursor].record, keyAvailable) then Applied else Stuck)
  {
    var welcome := db.welcomes[cursor].record;
    JoinableIs(db, user, starts, cursor, welcome, keyAvailable);
    if Joinable(db, user, welcome, keyAvailable) {
      JoinPuts(db, user, cursor, keyAvailable, JoinRoom(db, user, cursor, welcome, keyAvailable).value);
    }
  }

  lemma JoinableIs(db: Database, user: UserId, starts: Starts, cursor: nat, welcome: WelcomeDelivery,
                   keyAvailable: bool)
    requires CursorsOk(db, starts) && Canonical(db.outbox) && cursor in db.welcomes
    ensures Joinable(db, user, welcome, keyAvailable) <==>
              WelcomeVerified(db, user, welcome) && JoinRoom(db, user, cursor, welcome, keyAvailable).Some?
  {}
}
