/**
  What a refusal leaves behind. Unlike a conflict, a refusal for good drops an own message but
  keeps its history row (crates/grotto-client/src/delivery.rs). Against an arbitrary relay this
  is the only way in which a row can outlive its message.
 */
module Refusals {
  import opened Records
  import opened Sizes
  import opened RoomNames
  import opened ClientSpec
  import opened ClientInvariants
  import opened ClientTheorems
  import opened Histories

  // ----- one answer -----

  /** An own message that waits for its answer. */
  predicate Asking(db: Database, user: UserId, id: MessageId) {
    Underway(db.outbox, id) && id in db.history && db.history[id].author == user
  }

  predicate RefusesForGood(response: Response) { response.Rejected? && !IsTransient(response) }

  /** An answer ends a message and keeps its row if and only if it is a refusal for good. */
  lemma RowOutlives(db: Database, user: UserId, id: MessageId, response: Response, db': Database)
    requires Asking(db, user, id) && Next(db, user, Answer(id, response)) == Some(db')
    ensures id !in db'.outbox && id in db'.history <==> RefusesForGood(response)
  {}

  // ----- whole runs -----

  /** An own message whose event was applied. */
  ghost predicate OwnApplied(db: Database, user: UserId, id: MessageId) {
    Shown(db.inbox, id) && db.inbox[id].event.sender == user
  }

  ghost predicate Own(db: Database, user: UserId, id: MessageId) { id in db.history && db.history[id].author == user }

  /** A row of an own message that is neither underway nor applied. */
  ghost predicate LeftBehind(db: Database, user: UserId, id: MessageId) {
    Own(db, user, id) && !Underway(db.outbox, id) && !OwnApplied(db, user, id)
  }

  /** This step refuses the message for good. */
  ghost predicate Refuses(db: Database, user: UserId, action: Action, id: MessageId) {
    action.Answer? && action.id == id && Underway(db.outbox, id) && RefusesForGood(action.response)
    && Next(db, user, action).Some?
  }

  /** Some step of the run does. */
  ghost predicate RefusedIn(client: Client, user: UserId, actions: seq<Action>, id: MessageId)
    decreases |actions|
  {
    actions != []
    && (Refuses(client.db, user, actions[0], id) || RefusedIn(Step(client, user, actions[0]), user, actions[1..], id))
  }

  predicate Appending(outbox: map<MessageId, OutboxRow>, id: MessageId) {
    id in outbox && outbox[id].request.AppendRoomOperation?
  }

  /** The own rows are those of messages underway, applied or refused. */
  ghost predicate RowOkay(db: Database, user: UserId, id: MessageId, refused: bool) {
    && (Own(db, user, id) <==> Underway(db.outbox, id) || OwnApplied(db, user, id) || refused)
    && (Appending(db.outbox, id) ==> !OwnApplied(db, user, id))
    && (refused ==> id.Random? && id !in db.outbox && !OwnApplied(db, user, id))
  }

  /** A step that changes none of this for the identifier. */
  ghost predicate Leaves(db: Database, user: UserId, id: MessageId, db': Database) {
    && (Own(db', user, id) <==> Own(db, user, id))
    && (Underway(db'.outbox, id) <==> Underway(db.outbox, id))
    && (Appending(db'.outbox, id) <==> Appending(db.outbox, id))
    && (OwnApplied(db', user, id) <==> OwnApplied(db, user, id))
    && (id.Random? && id in db'.outbox && id !in db.outbox ==> !Own(db, user, id))
  }

  lemma LeavesOkay(db: Database, user: UserId, id: MessageId, db': Database, refused: bool)
    requires RowOkay(db, user, id, refused) && Leaves(db, user, id, db')
    ensures RowOkay(db', user, id, refused)
  {}

  lemma FrameLeaves(db: Database, user: UserId, db': Database, id: MessageId)
    requires db'.history == db.history && SameShown(db.inbox, db'.inbox)
    requires id in db'.outbox <==> id in db.outbox
    requires id in db.outbox ==> db'.outbox[id].request == db.outbox[id].request
    ensures Leaves(db, user, id, db')
  {}

  lemma ReceiveLeaves(db: Database, user: UserId, event: Event, db': Database, id: MessageId)
    requires ReceiveEvent(db, event) == Some(db')
    ensures Leaves(db, user, id, db')
  {
    ReceivedShown(db, event, db');
    FrameLeaves(db, user, db', id);
  }

  lemma SaveLeaves(db: Database, user: UserId, saved: MessageId, request: Request, db': Database, id: MessageId)
    requires SaveOutbox(db, saved, request) == Some(db') && !request.AppendRoomOperation?
    requires saved.Receipt? || Unseen(db, saved)
    ensures Leaves(db, user, id, db')
  {
    assert db'.history == db.history && db'.inbox == db.inbox;
    if id != saved {
      FrameLeaves(db, user, db', id);
    } else if saved in db.outbox {
      assert db' == db;
    }
  }

  /** What an answer changes: at most the row of its own message, and nothing that is shown. */
  ghost predicate AnswersOwn(db: Database, answered: MessageId, db': Database) {
    && (db'.history == db.history || db'.history == db.history - {answered})
    && (db'.outbox == db.outbox || db'.outbox == db.outbox - {answered})
    && SameShown(db.inbox, db'.inbox)
  }

  lemma ConflictParts(db: Database, id: MessageId, operation: Append, db': Database)
    requires CompleteConflict(db, id, operation) == Some(db')
    ensures AnswersOwn(db, id, db') && db'.history == db.history - {id} && db'.outbox == db.outbox - {id}
  {}

  lemma RefusalParts(db: Database, id: MessageId, request: Request, db': Database)
    requires CompleteRefusal(db, id, request) == Some(db')
    ensures AnswersOwn(db, id, db') && db'.history == db.history && db'.outbox == db.outbox - {id}
  {}

  lemma CreationParts(db: Database, user: UserId, id: MessageId, room: RoomId)
    ensures AnswersOwn(db, id, CompleteCreation(db, user, id, room))
    ensures CompleteCreation(db, user, id, room).history == db.history
  {}

  lemma ReservationParts(db: Database, id: MessageId, recipient: UserId, package: Blob, db': Database)
    requires CompleteReservation(db, id, recipient, package) == Some(db')
    ensures AnswersOwn(db, id, db') && db'.history == db.history
  {}

  lemma AnswerParts(db: Database, user: UserId, id: MessageId, response: Response, db': Database)
    requires Next(db, user, Answer(id, response)) == Some(db')
    ensures AnswersOwn(db, id, db')
    ensures !Appending(db.outbox, id) ==> db'.history == db.history
  {
    var request := db.outbox[id].request;
    if request.CreateRoom? && response.RoomCreated? {
      CreationParts(db, user, id, response.room);
    } else if request.ReserveKeyPackage? && response.KeyPackage? {
      ReservationParts(db, id, request.recipient, response.package, db');
    } else if request.AppendRoomOperation? && response.AppendAccepted? {
      ReceivedShown(db, response.event, db');
    } else if request.AppendRoomOperation? && response.HeadConflict? {
      ConflictParts(db, id, request.operation, db');
    } else if RefusesForGood(response) {
      RefusalParts(db, id, request, db');
    }
  }

  lemma OtherAnswers(db: Database, user: UserId, answered: MessageId, response: Response, db': Database, id: MessageId)
    requires Next(db, user, Answer(answered, response)) == Some(db') && id != answered
    ensures Leaves(db, user, id, db')
  {
    AnswerParts(db, user, answered, response, db');
  }

  lemma BuildKeeps(db: Database, user: UserId, room: RoomId, built: MessageId, bytes: Ciphertext, db': Database,
                   id: MessageId, refused: bool)
    requires Next(db, user, Build(room, built, bytes)) == Some(db') && RowOkay(db, user, id, refused)
    ensures RowOkay(db', user, id, refused)
  {
    var intent := db.intents[room];
    if intent.package.Some? {
      AddKeeps(db, user, room, intent, built, bytes, id, refused);
    } else if intent.target.None? {
      SendKeeps(db, user, room, intent, built, bytes, id, refused);
    }
  }

  lemma SendKeeps(db: Database, user: UserId, room: RoomId, intent: Intent, built: MessageId, bytes: Ciphertext,
                  id: MessageId, refused: bool)
    requires RowOkay(db, user, id, refused) && Unseen(db, built)
    requires BuildSend(db, user, room, intent, built, bytes).Some?
    ensures RowOkay(BuildSend(db, user, room, intent, built, bytes).value, user, id, refused)
  {}

  lemma AddKeeps(db: Database, user: UserId, room: RoomId, intent: Intent, built: MessageId, bytes: Ciphertext,
                 id: MessageId, refused: bool)
    requires RowOkay(db, user, id, refused) && Unseen(db, built)
    requires BuildAdd(db, user, room, intent, built, bytes).Some?
    ensures RowOkay(BuildAdd(db, user, room, intent, built, bytes).value, user, id, refused)
  {}

  lemma AnswerKeeps(db: Database, user: UserId, answered: MessageId, response: Response, db': Database, id: MessageId,
                    refused: bool)
    requires Next(db, user, Answer(answered, response)) == Some(db') && AttemptsOk(db) && RowOkay(db, user, id, refused)
    ensures RowOkay(db', user, id, refused || Refuses(db, user, Answer(answered, response), id))
  {
    if id == answered {
      if Appending(db.outbox, id) {
        AttemptAnswered(db, user, id, response, db');
      } else {
        AnswerParts(db, user, id, response, db');
      }
    } else {
      OtherAnswers(db, user, answered, response, db', id);
      LeavesOkay(db, user, id, db', refused);
    }
  }

  /** The answers to an append: accepted, withdrawn, refused, or asked again. */
  lemma AttemptAnswered(db: Database, user: UserId, id: MessageId, response: Response, db': Database)
    requires Next(db, user, Answer(id, response)) == Some(db') && AttemptsOk(db) && Appending(db.outbox, id)
    ensures id.Random? && AnswersOwn(db, id, db')
    ensures || (db'.history == db.history && db'.outbox == db.outbox && !RefusesForGood(response))
            || (db'.history == db.history - {id} && db'.outbox == db.outbox - {id} && !RefusesForGood(response))
            || (db'.history == db.history && db'.outbox == db.outbox - {id} && RefusesForGood(response))
  {
    var request := db.outbox[id].request;
    AnswerParts(db, user, id, response, db');
    if response.AppendAccepted? {
      ReceivedShown(db, response.event, db');
    } else if response.HeadConflict? {
      ConflictParts(db, id, request.operation, db');
    } else if RefusesForGood(response) {
      RefusalParts(db, id, request, db');
    }
  }

  lemma FinishParts(db: Database, user: UserId, event: Event, state: RowState, db': Database)
    requires FinishEvent(db, user, event, state) == Some(db')
    ensures db'.history == db.history && db'.inbox == MarkRow(db.inbox, event.id, state)
    ensures forall id: MessageId :: id.Random? ==> (id in db'.outbox <==> id in db.outbox)
    ensures forall id :: id in db.outbox ==> id in db'.outbox && db'.outbox[id] == db.outbox[id]
    ensures forall id :: id in db'.outbox && id !in db.outbox ==> db'.outbox[id].request.Acknowledge?
  {
    SavedParts(Advance(db, event, state), AcknowledgementId(user, [event.id], []), Acknowledge([event.id], []), db');
  }

  lemma SavedParts(db: Database, saved: MessageId, request: Request, db': Database)
    requires SaveOutbox(db, saved, request) == Some(db') && saved.Receipt? && request.Acknowledge?
    ensures db' == db.(outbox := db'.outbox)
    ensures forall id: MessageId :: id.Random? ==> (id in db'.outbox <==> id in db.outbox)
    ensures forall id :: id in db.outbox ==> id in db'.outbox && db'.outbox[id] == db.outbox[id]
    ensures forall id :: id in db'.outbox && id !in db.outbox ==> db'.outbox[id].request.Acknowledge?
  {}

  lemma OwnParts(db: Database, user: UserId, event: Event, db': Database)
    requires ApplyOwn(db, user, event) == Some(db') && AttemptsOk(db)
    ensures event.id in db.outbox && db.outbox[event.id].request == AppendRoomOperation(event.operation)
    ensures event.id.Random? && event.id !in db'.outbox
    ensures db'.history == SetSequence(db.history, event.id, event.operation.parent + 1)
    ensures db'.inbox == MarkRow(db.inbox, event.id, Applied)
    ensures forall id :: id != event.id ==> (Appending(db'.outbox, id) <==> Appending(db.outbox, id))
    ensures forall id :: id != event.id ==> (Underway(db'.outbox, id) <==> Underway(db.outbox, id))
    ensures forall id: MessageId :: id.Random? && id in db'.outbox ==> id in db.outbox
  {
    var applied :=
      if event.operation.contentType == Commit then ApplyAcceptedCommit(db, event.operation.room).value else db;
    ClaimParts(db, applied, event);
    FinishParts(Claim(applied, event), user, event, Applied, db');
    OthersUnderway(db.outbox, db'.outbox, event.id);
  }

  lemma OthersUnderway(outbox: map<MessageId, OutboxRow>, outbox': map<MessageId, OutboxRow>, gone: MessageId)
    requires forall id :: id in outbox - {gone} ==> id in outbox' && outbox'[id] == outbox[id]
    requires forall id :: id in outbox' && id !in outbox - {gone} ==> outbox'[id].request.Acknowledge?
    ensures forall id :: id != gone ==> (Appending(outbox', id) <==> Appending(outbox, id))
    ensures forall id :: id != gone ==> (Underway(outbox', id) <==> Underway(outbox, id))
  {}

  lemma ClaimParts(db: Database, applied: Database, event: Event)
    requires applied == db || ApplyAcceptedCommit(db, event.operation.room) == Some(applied)
    ensures var claimed := Claim(applied, event);
            && claimed.history == SetSequence(db.history, event.id, event.operation.parent + 1)
            && claimed.inbox == db.inbox && claimed.outbox == db.outbox - {event.id}
  {}

  lemma OwnKeeps(db: Database, user: UserId, event: Event, db': Database, id: MessageId, refused: bool)
    requires ApplyOwn(db, user, event) == Some(db') && event.sender == user && RowOkay(db, user, id, refused)
    requires event.id in db.inbox && db.inbox[event.id].event == event && AttemptsOk(db)
    ensures RowOkay(db', user, id, refused)
  {
    OwnParts(db, user, event, db');
    if id != event.id {
      OwnElsewhere(db, user, event, db', id);
      LeavesOkay(db, user, id, db', refused);
    }
  }

  lemma OwnElsewhere(db: Database, user: UserId, event: Event, db': Database, id: MessageId)
    requires db'.history == SetSequence(db.history, event.id, event.operation.parent + 1) && id != event.id
    requires db'.inbox == MarkRow(db.inbox, event.id, Applied)
    requires Appending(db'.outbox, id) <==> Appending(db.outbox, id)
    requires Underway(db'.outbox, id) <==> Underway(db.outbox, id)
    requires id.Random? && id in db'.outbox ==> id in db.outbox
    ensures Leaves(db, user, id, db')
  {}

  lemma FinishLeaves(db: Database, user: UserId, event: Event, state: RowState, db': Database, id: MessageId)
    requires FinishEvent(db, user, event, state) == Some(db')
    requires event.id in db.inbox && db.inbox[event.id].event == event && event.sender != user
    ensures Leaves(db, user, id, db')
  {
    FinishParts(db, user, event, state, db');
  }

  lemma OpenedLeaves(
    db: Database, user: UserId, event: Event, db1: Database, plaintext: Option<seq<byte>>, id: MessageId)
    requires ProcessBound(db, user, event) == Opened(db1, plaintext) && event.sender != user
    ensures var db2 := Remember(db1, event, plaintext);
            Leaves(db, user, id, db2) && db2.inbox == db.inbox && db2.outbox == db.outbox
  {
    assert db1.history == db.history && db1.inbox == db.inbox && db1.outbox == db.outbox;
  }

  lemma StuckLeaves(db: Database, user: UserId, event: Event, id: MessageId)
    requires event.id in db.inbox && db.inbox[event.id].event == event && event.sender != user
    ensures Leaves(db, user, id, db.(inbox := MarkRow(db.inbox, event.id, Stuck)))
  {}

  lemma LeavesTwice(db: Database, user: UserId, id: MessageId, db1: Database, db2: Database)
    requires Leaves(db, user, id, db1) && Leaves(db1, user, id, db2) && db1.outbox == db.outbox
    ensures Leaves(db, user, id, db2)
  {}

  lemma OtherKeeps(db: Database, user: UserId, event: Event, db': Database, id: MessageId, refused: bool)
    requires ApplyOther(db, user, event) == Some(db') && event.sender != user && RowOkay(db, user, id, refused)
    requires event.id in db.inbox && db.inbox[event.id].event == event
    ensures RowOkay(db', user, id, refused)
  {
    var processed := ProcessBound(db, user, event);
    if processed.Opened? {
      var db2 := Remember(processed.db, event, processed.plaintext);
      OpenedLeaves(db, user, event, processed.db, processed.plaintext, id);
      FinishLeaves(db2, user, event, Applied, db', id);
      LeavesTwice(db, user, id, db2, db');
    } else if processed.FaultRejected? {
      FinishLeaves(db, user, event, Refused, db', id);
    } else {
      StuckLeaves(db, user, event, id);
    }
    LeavesOkay(db, user, id, db', refused);
  }

  lemma StepKeeps(
    db: Database, user: UserId, starts: Starts, action: Action, db': Database, id: MessageId, refused: bool)
    requires Disciplined(db, user, starts) && Next(db, user, action) == Some(db') && RowOkay(db, user, id, refused)
    ensures RowOkay(db', user, id, refused || Refuses(db, user, action, id))
  {
    match action {
      case Build(room, built, bytes) => BuildKeeps(db, user, room, built, bytes, db', id, refused);
      case Answer(answered, response) => AnswerKeeps(db, user, answered, response, db', id, refused);
      case Receive(event) => ReceiveLeaves(db, user, event, db', id);
      case Apply(event) =>
        if event.sender == user {
          OwnKeeps(db, user, event, db', id, refused);
        } else {
          OtherKeeps(db, user, event, db', id, refused);
        }
      case Issue(issued, request) => SaveLeaves(db, user, issued, request, db', id);
      case Process(cursor, keyAvailable) =>
        ProcessCases(db, user, cursor, keyAvailable);
        ProcessLeaves(db, user, cursor, keyAvailable, db', id);
      case _ => QuietLeaves(db, user, action, db', id);
    }
  }

  lemma QuietLeaves(db: Database, user: UserId, action: Action, db': Database, id: MessageId)
    requires action.Import? || action.Intend? || action.Store?
    requires Next(db, user, action) == Some(db')
    ensures Leaves(db, user, id, db')
  {
    assert db'.history == db.history && db'.inbox == db.inbox && db'.outbox == db.outbox;
    FrameLeaves(db, user, db', id);
  }

  lemma ProcessLeaves(db: Database, user: UserId, cursor: nat, keyAvailable: bool, db': Database, id: MessageId)
    requires cursor in db.welcomes
    requires db' == MarkWelcome(db, cursor, Stuck)
             || JoinRoom(db, user, cursor, db.welcomes[cursor].record, keyAvailable) == Some(db')
    ensures Leaves(db, user, id, db')
  {
    if db' == MarkWelcome(db, cursor, Stuck) {
      FrameLeaves(db, user, db', id);
    } else {
      JoinParts(db, user, cursor, db.welcomes[cursor].record, keyAvailable, db');
    }
  }

  lemma JoinParts(
    db: Database, user: UserId, cursor: nat, welcome: WelcomeDelivery, keyAvailable: bool, db': Database)
    requires cursor in db.welcomes && JoinRoom(db, user, cursor, welcome, keyAvailable) == Some(db')
    ensures db'.history == db.history && db'.inbox == db.inbox
    ensures forall id: MessageId :: id.Random? ==> (id in db'.outbox <==> id in db.outbox)
    ensures forall id :: id in db.outbox ==> id in db'.outbox && db'.outbox[id] == db.outbox[id]
    ensures forall id :: id in db'.outbox && id !in db.outbox ==> db'.outbox[id].request.Acknowledge?
  {}

  lemma {:induction false} RunKeeps(client: Client, user: UserId, actions: seq<Action>, id: MessageId, refused: bool)
    requires Disciplined(client.db, user, client.starts) && RowOkay(client.db, user, id, refused)
    ensures RowOkay(RunClient(client, user, actions).db, user, id, refused || RefusedIn(client, user, actions, id))
    decreases |actions|
  {
    if actions != [] {
      var next := Step(client, user, actions[0]);
      var now := refused || Refuses(client.db, user, actions[0], id);
      if Next(client.db, user, actions[0]).Some? {
        StepKept(client.db, user, client.starts, actions[0], next.db);
        StepKeeps(client.db, user, client.starts, actions[0], next.db, id, refused);
      }
      RunKeeps(next, user, actions[1..], id, now);
    }
  }

  /** Against any relay whatsoever, on every run: a row of an own message that is neither
      underway nor applied is there if and only if that message was refused for good while it
      was in the outbox. */
  lemma LeftBehindExactly(user: UserId, actions: seq<Action>, id: MessageId)
    ensures var client := Client(Fresh(user), map[]);
            LeftBehind(RunClient(client, user, actions).db, user, id) <==> RefusedIn(client, user, actions, id)
  {
    var client := Client(Fresh(user), map[]);
    ClientStart(user);
    RunKeeps(client, user, actions, id, false);
  }

  // ----- a message that stays -----

  const TEXT: seq<byte> := [104, 105]
  const CREATE := CreateRoom("r")
  const INTENT := Intent(Random(9), None, Some(TEXT), None, None)
  const CIPHERTEXT := Ciphertext([1, 2, 3], [])
  const BODY := Blob(CIPHERTEXT.body, ApplicationMessage(0, 1, Binding(7, Random(1), 0), TEXT))
  const APPEND := AppendRoomOperation(Append(7, 0, 0, Application, BODY, None))

  /** A user creates a room and sends a message; the relay answers that it is invalid. */
  const ACTIONS: seq<Action> :=
    [Issue(Random(0), CREATE), Answer(Random(0), RoomCreated(7)), Intend(7, INTENT),
     Build(7, Random(1), CIPHERTEXT), Answer(Random(1), Rejected(Invalid))]

  const FRESH := Fresh(1)
  const ISSUED := FRESH.(outbox := map[Random(0) := OutboxRow(1, CREATE)])
  const CREATED := FRESH.(groups := map[7 := GroupState(Group(0, {1}), None, 0)], cursors := map[7 := 0])
  const INTENDED := CREATED.(intents := map[7 := INTENT])
  const BUILT := INTENDED.(
    intents := map[7 := INTENT.(attempt := Some(Random(1)))],
    groups := map[7 := GroupState(Group(0, {1}), None, 1)],
    history := map[Random(1) := HistoryRow(7, 1, 1, TEXT)],
    outbox := map[Random(1) := OutboxRow(1, APPEND)])
  const REFUSED := BUILT.(intents := map[], outbox := map[])

  lemma Sized()
    ensures NormalizeRoomName("r") == Some("r") && RequestSize(CREATE) == 3 && RequestSize(APPEND) == 25
  {
    assert TrimStart("r") == "r" && TrimEnd("r") == "r" && Utf8Size("r") == 1;
  }

  lemma FirstSteps()
    ensures Next(FRESH, 1, Issue(Random(0), CREATE)) == Some(ISSUED)
    ensures Next(ISSUED, 1, Answer(Random(0), RoomCreated(7))) == Some(CREATED)
    ensures Next(CREATED, 1, Intend(7, INTENT)) == Some(INTENDED)
  {
    Sized();
  }

  lemma SendStep()
    ensures BuildSend(INTENDED, 1, 7, INTENT, Random(1), CIPHERTEXT) == Some(BUILT.(intents := INTENDED.intents))
  {
    assert NextRowid(INTENDED.outbox) == 1;
    assert HasGroup(INTENDED, 7) && Cursor(INTENDED, 7) == 0;
    assert INTENDED.groups[7 := GroupState(Group(0, {1}), None, 1)] == BUILT.groups;
    var db1 := WithGroup(INTENDED, 7, GroupState(Group(0, {1}), None, 1));
    assert EncryptBound(INTENDED, 1, 7, TEXT, Binding(7, Random(1), 0))
           == ClientSpec.Built(db1, 0, BODY.content, Malformed);
    assert RecordPlaintext(db1.history, Random(1), HistoryRow(7, 1, 1, TEXT)) == BUILT.history;
    assert db1.outbox[Random(1) := OutboxRow(1, APPEND)] == BUILT.outbox;
  }

  lemma BuildStep()
    ensures Next(INTENDED, 1, Build(7, Random(1), CIPHERTEXT)) == Some(BUILT)
  {
    Sized();
    SendStep();
    assert !Backlog(INTENDED, 7) && Unseen(INTENDED, Random(1)) && HasGroup(INTENDED, 7);
    assert INTENDED.intents[7 := INTENT.(attempt := Some(Random(1)))] == BUILT.intents;
    assert BuildAttempt(INTENDED, 1, 7, Random(1), CIPHERTEXT) == Some(BUILT);
  }

  lemma RefusalStep()
    ensures Next(BUILT, 1, Answer(Random(1), Rejected(Invalid))) == Some(REFUSED)
  {
    assert DropIntents(BUILT.intents, Random(1)) == map[];
    assert BUILT.outbox - {Random(1)} == map[];
  }

  lemma OneStep(client: Client, action: Action, rest: seq<Action>, db': Database)
    requires Next(client.db, 1, action) == Some(db')
    ensures RunClient(client, 1, [action] + rest) == RunClient(Client(db', NewStarts(client.starts, db')), 1, rest)
  {
    assert ([action] + rest)[1..] == rest;
  }

  lemma RunsTo(client: Client)
    requires client.db == FRESH
    ensures RunClient(client, 1, ACTIONS).db == REFUSED
  {
    FirstSteps();
    var c1 := Client(ISSUED, NewStarts(client.starts, ISSUED));
    var c2 := Client(CREATED, NewStarts(c1.starts, CREATED));
    var c3 := Client(INTENDED, NewStarts(c2.starts, INTENDED));
    OneStep(c2, ACTIONS[2], [ACTIONS[3], ACTIONS[4]], INTENDED);
    OneStep(c1, ACTIONS[1], [ACTIONS[2], ACTIONS[3], ACTIONS[4]], CREATED);
    OneStep(client, ACTIONS[0], [ACTIONS[1], ACTIONS[2], ACTIONS[3], ACTIONS[4]], ISSUED);
    assert ACTIONS == [ACTIONS[0]] + [ACTIONS[1], ACTIONS[2], ACTIONS[3], ACTIONS[4]];
    LastSteps(c3);
  }

  lemma LastSteps(client: Client)
    requires client.db == INTENDED
    ensures RunClient(client, 1, [ACTIONS[3], ACTIONS[4]]).db == REFUSED
  {
    BuildStep();
    RefusalStep();
    var c4 := Client(BUILT, NewStarts(client.starts, BUILT));
    OneStep(c4, ACTIONS[4], [], REFUSED);
    OneStep(client, ACTIONS[3], [ACTIONS[4]], BUILT);
  }

  /** A message of two letters whose relay calls it invalid: nothing is underway and nothing was
      ever received, yet the message is in the history. */
  lemma MessageLeftBehind()
    ensures var db := RunClient(Client(Fresh(1), map[]), 1, ACTIONS).db;
            && db.outbox == map[] && db.intents == map[] && db.inbox == map[]
            && db.history == map[Random(1) := HistoryRow(7, 1, 1, TEXT)] && LeftBehind(db, 1, Random(1))
  {
    RunsTo(Client(Fresh(1), map[]));
  }
}
