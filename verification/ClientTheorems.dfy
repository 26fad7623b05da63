/** Every run of a client, whatever the relay answers and wherever it crashes. A crash keeps
    the database, so it is a run that simply goes on from there. */
module ClientTheorems {
  import opened Records
  import opened ClientSpec
  import opened ClientInvariants

  /** No two intents wait for the same attempt. */
  ghost predicate AttemptsDistinct(db: Database) {
    forall a, b ::
      (a in db.intents && b in db.intents && db.intents[a].attempt.Some?
       && db.intents[a].attempt == db.intents[b].attempt) ==> a == b
  }

  /** Cursors move by at most one, inbox records and contacts are never replaced. */
  ghost predicate Steady(db: Database, db': Database) {
    && (forall room :: room in db.cursors ==>
          room in db'.cursors && db.cursors[room] <= db'.cursors[room] <= db.cursors[room] + 1)
    && (forall id :: id in db.inbox ==> id in db'.inbox && db'.inbox[id].event == db.inbox[id].event)
    && db.contacts <= db'.contacts
  }

  ghost predicate Distinct(db: Database) { SequencesUnique(db) && AttemptsDistinct(db) }

  // ----- cursors and records only move forward -----

  /** A step that touches neither the inbox nor a cursor, and frees attempts at most. */
  lemma FrameSteady(db: Database, db': Database)
    requires Distinct(db) && db'.inbox == db.inbox && db.contacts <= db'.contacts
    requires forall room :: room in db.cursors ==> room in db'.cursors && db'.cursors[room] == db.cursors[room]
    requires forall room :: room in db'.intents && db'.intents[room].attempt.Some? ==>
               room in db.intents && db'.intents[room].attempt == db.intents[room].attempt
    ensures Steady(db, db') && Distinct(db')
  {}

  lemma ReceiveSteady(db: Database, event: Event, db': Database)
    requires Distinct(db) && ReceiveEvent(db, event) == Some(db')
    ensures Steady(db, db') && Distinct(db')
  {
    if event.id !in db.inbox {
      forall id | id in db.inbox ensures !SamePlace(db.inbox[id].event, event) {
        assert !At(db.inbox[id], event.operation.room, event.operation.parent);
      }
    }
  }

  /** A step only frees attempts. */
  ghost predicate OnlyFrees(db: Database, db': Database) {
    && db'.inbox == db.inbox && db'.contacts == db.contacts && db'.cursors == db.cursors
    && forall room :: room in db'.intents && db'.intents[room].attempt.Some? ==>
         room in db.intents && db'.intents[room].attempt == db.intents[room].attempt
  }

  lemma ConflictFrees(db: Database, id: MessageId, operation: Append, db': Database)
    requires CompleteConflict(db, id, operation) == Some(db')
    ensures OnlyFrees(db, db')
  {}

  lemma RefusalFrees(db: Database, id: MessageId, request: Request, db': Database)
    requires CompleteRefusal(db, id, request) == Some(db')
    ensures OnlyFrees(db, db')
  {}

  lemma ReservationFrees(db: Database, id: MessageId, recipient: UserId, package: Blob, db': Database)
    requires CompleteReservation(db, id, recipient, package) == Some(db')
    ensures OnlyFrees(db, db')
  {}

  /** An answer other than an acceptance only frees its own attempt. */
  lemma AttemptAnswerFrame(db: Database, user: UserId, id: MessageId, response: Response, db': Database)
    requires id in db.outbox && IsAttempt(db.outbox[id].request) && !response.AppendAccepted?
    requires Complete(db, user, id, db.outbox[id].request, response) == Some(db')
    ensures OnlyFrees(db, db')
  {
    var request := db.outbox[id].request;
    if response.HeadConflict? {
      ConflictFrees(db, id, request.operation, db');
    } else if response.KeyPackage? {
      ReservationFrees(db, id, request.recipient, response.package, db');
    } else if !IsTransient(response) {
      RefusalFrees(db, id, request, db');
    }
  }

  lemma CreationFrame(db: Database, user: UserId, id: MessageId, room: RoomId)
    ensures var db' := CompleteCreation(db, user, id, room);
            && db'.inbox == db.inbox && db'.contacts == db.contacts && db'.intents == db.intents
            && forall r :: r in db.cursors ==> r in db'.cursors && db'.cursors[r] == db.cursors[r]
  {}

  lemma RefusalDrops(db: Database, id: MessageId, request: Request, db': Database)
    requires CompleteRefusal(db, id, request) == Some(db')
    ensures db'.inbox == db.inbox && db'.contacts == db.contacts && db'.cursors == db.cursors
    ensures db'.intents == DropIntents(db.intents, id)
  {}

  lemma OtherAnswerFrame(db: Database, user: UserId, id: MessageId, response: Response, db': Database)
    requires id in db.outbox && !IsAttempt(db.outbox[id].request)
    requires Complete(db, user, id, db.outbox[id].request, response) == Some(db')
    ensures db'.inbox == db.inbox && db'.contacts == db.contacts
    ensures forall room :: room in db.cursors ==> room in db'.cursors && db'.cursors[room] == db.cursors[room]
    ensures forall room :: room in db'.intents ==> room in db.intents && db'.intents[room] == db.intents[room]
  {
    if db.outbox[id].request.CreateRoom? && response.RoomCreated? {
      CreationFrame(db, user, id, response.room);
    } else if response.Rejected? && !IsTransient(response) {
      RefusalDrops(db, id, db.outbox[id].request, db');
    }
  }

  lemma AnswerSteady(db: Database, user: UserId, id: MessageId, response: Response, db': Database)
    requires Distinct(db) && id in db.outbox && Complete(db, user, id, db.outbox[id].request, response) == Some(db')
    ensures Steady(db, db') && Distinct(db')
  {
    if response.AppendAccepted? {
      ReceiveSteady(db, response.event, db');
    } else if IsAttempt(db.outbox[id].request) {
      AttemptAnswerFrame(db, user, id, response, db');
      FrameSteady(db, db');
    } else {
      OtherAnswerFrame(db, user, id, response, db');
      FrameSteady(db, db');
    }
  }

  lemma FinishSteady(db: Database, user: UserId, event: Event, state: RowState, db': Database)
    requires Distinct(db) && FinishEvent(db, user, event, state) == Some(db')
    requires Cursor(db, event.operation.room) == event.operation.parent
    ensures Steady(db, db') && Distinct(db')
  {}

  lemma ApplyOwnSteady(db: Database, user: UserId, event: Event, db': Database)
    requires Distinct(db) && ApplyOwn(db, user, event) == Some(db')
    requires Cursor(db, event.operation.room) == event.operation.parent
    ensures Steady(db, db') && Distinct(db')
  {
    var db0 := if event.operation.contentType == Commit then ApplyAcceptedCommit(db, event.operation.room).value
               else db;
    FrameSteady(db, Claim(db0, event));
    FinishSteady(Claim(db0, event), user, event, Applied, db');
  }

  lemma ApplyOtherSteady(db: Database, user: UserId, event: Event, db': Database)
    requires Distinct(db) && ApplyOther(db, user, event) == Some(db')
    requires Cursor(db, event.operation.room) == event.operation.parent
    ensures Steady(db, db') && Distinct(db')
  {
    match ProcessBound(db, user, event) {
      case Failure =>
      case FaultBlocked =>
      case FaultRejected => FinishSteady(db, user, event, Refused, db');
      case Opened(db1, plaintext) =>
        OpenedFrame(db, user, event, db1, plaintext);
        FinishSteady(Remember(db1, event, plaintext), user, event, Applied, db');
    }
  }

  lemma OpenedFrame(db: Database, user: UserId, event: Event, db1: Database, plaintext: Option<seq<byte>>)
    requires ProcessBound(db, user, event) == Opened(db1, plaintext)
    ensures var db2 := Remember(db1, event, plaintext);
            db2.inbox == db.inbox && db2.cursors == db.cursors && db2.contacts == db.contacts
            && db2.intents == db.intents
  {}

  lemma BuildSteady(db: Database, db': Database, room: RoomId, id: MessageId)
    requires Distinct(db) && Unseen(db, id) && BuildsAttempt(db, db', room, id)
    ensures Steady(db, db') && Distinct(db')
  {}

  lemma MarkSteady(db: Database, cursor: nat, state: RowState)
    requires Distinct(db) && cursor in db.welcomes
    ensures Steady(db, MarkWelcome(db, cursor, state)) && Distinct(MarkWelcome(db, cursor, state))
  {
    FrameSteady(db, MarkWelcome(db, cursor, state));
  }

  /** A Welcome is marked, or its room is joined. */
  lemma ProcessCases(db: Database, user: UserId, cursor: nat, keyAvailable: bool)
    requires cursor in db.welcomes
    ensures var db' := ProcessWelcome(db, user, cursor, keyAvailable);
            db' == MarkWelcome(db, cursor, Stuck)
            || JoinRoom(db, user, cursor, db.welcomes[cursor].record, keyAvailable) == Some(db')
  {}

  lemma ProcessSteady(db: Database, user: UserId, cursor: nat, keyAvailable: bool, db': Database)
    requires Distinct(db) && cursor in db.welcomes
    requires db' == MarkWelcome(db, cursor, Stuck)
             || JoinRoom(db, user, cursor, db.welcomes[cursor].record, keyAvailable) == Some(db')
    ensures Steady(db, db') && Distinct(db')
  {
    if db' == MarkWelcome(db, cursor, Stuck) {
      MarkSteady(db, cursor, Stuck);
    } else {
      JoinFrame(db, user, cursor, db.welcomes[cursor].record, keyAvailable, db');
    }
  }

  lemma JoinFrame(
    db: Database, user: UserId, cursor: nat, welcome: WelcomeDelivery, keyAvailable: bool, db': Database)
    requires Distinct(db) && cursor in db.welcomes && JoinRoom(db, user, cursor, welcome, keyAvailable) == Some(db')
    ensures Steady(db, db') && Distinct(db')
  {
    assert db'.inbox == db.inbox && db'.intents == db.intents;
    FrameSteady(db, db');
  }

  lemma ProcessKept(db: Database, user: UserId, starts: Starts, cursor: nat, keyAvailable: bool, db': Database)
    requires ClientOk(db, starts) && cursor in db.welcomes
    requires db' == MarkWelcome(db, cursor, Stuck)
             || JoinRoom(db, user, cursor, db.welcomes[cursor].record, keyAvailable) == Some(db')
    ensures ClientOk(db', NewStarts(starts, db'))
  {
    if db' == MarkWelcome(db, cursor, Stuck) {
      MarkKept(db, starts, cursor, Stuck);
      StartsSame(db', starts);
    } else {
      JoinKept(db, user, starts, cursor, db.welcomes[cursor].record, keyAvailable);
    }
  }

  // ----- each action -----

  /** Everything a client keeps against an arbitrary relay. */
  ghost predicate Disciplined(db: Database, user: UserId, starts: Starts) {
    ClientOk(db, starts) && Distinct(db) && user in db.contacts
  }

  /** What one step gives. */
  ghost predicate StepOk(db: Database, db': Database, user: UserId, starts: Starts) {
    Disciplined(db', user, starts) && Steady(db, db')
  }

  lemma AnswerStep(db: Database, user: UserId, starts: Starts, id: MessageId, response: Response, db': Database)
    requires Disciplined(db, user, starts) && Next(db, user, Answer(id, response)) == Some(db')
    ensures StepOk(db, db', user, NewStarts(starts, db'))
  {
    AnswerKept(db, user, starts, id, response);
    AnswerSteady(db, user, id, response, db');
  }

  lemma ProcessStep(db: Database, user: UserId, starts: Starts, cursor: nat, keyAvailable: bool, db': Database)
    requires Disciplined(db, user, starts) && Next(db, user, Process(cursor, keyAvailable)) == Some(db')
    ensures StepOk(db, db', user, NewStarts(starts, db'))
  {
    ProcessCases(db, user, cursor, keyAvailable);
    ProcessKept(db, user, starts, cursor, keyAvailable, db');
    ProcessSteady(db, user, cursor, keyAvailable, db');
  }

  lemma BuildStep(
    db: Database, user: UserId, starts: Starts, room: RoomId, id: MessageId, bytes: Ciphertext, db': Database)
    requires Disciplined(db, user, starts) && Next(db, user, Build(room, id, bytes)) == Some(db')
    ensures StepOk(db, db', user, starts)
  {
    BuildShape(db, user, room, id, bytes);
    BuildKept(db, db', starts, room, id);
    BuildSteady(db, db', room, id);
  }

  lemma ReceiveStep(db: Database, user: UserId, starts: Starts, event: Event, db': Database)
    requires Disciplined(db, user, starts) && Next(db, user, Receive(event)) == Some(db')
    ensures StepOk(db, db', user, starts)
  {
    ReceiveSteady(db, event, db');
    if event.id !in db.inbox { InsertKept(db, starts, event); }
  }

  lemma ApplyStep(db: Database, user: UserId, starts: Starts, event: Event, db': Database)
    requires Disciplined(db, user, starts) && Next(db, user, Apply(event)) == Some(db')
    ensures StepOk(db, db', user, starts)
  {
    ApplyKept(db, user, starts, event, db');
    if event.sender == user {
      ApplyOwnSteady(db, user, event, db');
    } else {
      ApplyOtherSteady(db, user, event, db');
    }
  }

  lemma IssueStep(db: Database, user: UserId, starts: Starts, id: MessageId, request: Request, db': Database)
    requires Disciplined(db, user, starts) && Next(db, user, Issue(id, request)) == Some(db')
    ensures StepOk(db, db', user, starts)
  {
    SaveKept(db, starts, id, request);
    FrameSteady(db, db');
  }

  lemma IntendStep(db: Database, user: UserId, starts: Starts, room: RoomId, intent: Intent, db': Database)
    requires Disciplined(db, user, starts) && Next(db, user, Intend(room, intent)) == Some(db')
    ensures StepOk(db, db', user, starts)
  {
    IntendKept(db, starts, room, intent);
    FrameSteady(db, db');
  }

  lemma ImportStep(db: Database, user: UserId, starts: Starts, contact: UserId)
    requires Disciplined(db, user, starts)
    ensures StepOk(db, db.(contacts := db.contacts + {contact}), user, starts)
  {
    var db' := db.(contacts := db.contacts + {contact});
    Irrelevant(db, db', starts);
    FrameSteady(db, db');
  }

  lemma StoreStep(db: Database, user: UserId, starts: Starts, page: seq<WelcomeDelivery>, db': Database)
    requires Disciplined(db, user, starts) && StorePage(db, user, page) == Some(db')
    ensures StepOk(db, db', user, starts)
  {
    assert db' == db.(welcomes := db'.welcomes, welcomeCursor := db'.welcomeCursor);
    Irrelevant(db, db', starts);
    FrameSteady(db, db');
  }

  lemma StepKept(db: Database, user: UserId, starts: Starts, action: Action, db': Database)
    requires Disciplined(db, user, starts) && Next(db, user, action) == Some(db')
    ensures StepOk(db, db', user, NewStarts(starts, db'))
  {
    if action.Answer? {
      AnswerStep(db, user, starts, action.id, action.response, db');
    } else if action.Process? {
      ProcessStep(db, user, starts, action.cursor, action.keyAvailable, db');
    } else {
      match action {
        case Build(room, id, bytes) => BuildStep(db, user, starts, room, id, bytes, db');
        case Receive(event) => ReceiveStep(db, user, starts, event, db');
        case Apply(event) => ApplyStep(db, user, starts, event, db');
        case Issue(id, request) => IssueStep(db, user, starts, id, request, db');
        case Intend(room, intent) => IntendStep(db, user, starts, room, intent, db');
        case Import(contact) => ImportStep(db, user, starts, contact);
        case Store(page) => StoreStep(db, user, starts, page, db');
      }
      StartsSame(db', starts);
    }
  }

  lemma ApplyKept(db: Database, user: UserId, starts: Starts, event: Event, db': Database)
    requires Disciplined(db, user, starts) && Next(db, user, Apply(event)) == Some(db')
    ensures ClientOk(db', starts)
  {
    ResolvedIsQuiet(db, event.operation.room);
    if event.sender == user {
      ApplyOwnKept(db, user, starts, event);
    } else {
      ApplyOtherKept(db, user, starts, event);
    }
  }

  lemma IntendKept(db: Database, starts: Starts, room: RoomId, intent: Intent)
    requires ClientOk(db, starts) && room in db.groups && room !in db.intents && intent.attempt.None?
    ensures ClientOk(db.(intents := db.intents[room := intent]), starts)
  {
    var db' := db.(intents := db.intents[room := intent]);
    RowsFramed(db, db', starts);
    forall id | id in db'.outbox && IsAttempt(db'.outbox[id].request) ensures Owned(db', id) {
      assert Owned(db, id);
      var r :| AttemptOf(db, r, id);
      assert AttemptOf(db', r, id);
    }
    forall r | r in db'.intents && db'.intents[r].attempt.Some?
      ensures AttemptOf(db', r, db'.intents[r].attempt.value)
    {
      assert AttemptOf(db, r, db.intents[r].attempt.value);
    }
  }

  datatype Client = Client(db: Database, starts: Starts)

  /** A step that is not enabled, or whose transaction fails, changes nothing. */
  function Step(client: Client, user: UserId, action: Action): Client {
    match Next(client.db, user, action)
    case None => client
    case Some(db') => Client(db', NewStarts(client.starts, db'))
  }

  function RunClient(client: Client, user: UserId, actions: seq<Action>): Client
    decreases |actions|
  {
    if actions == [] then client else RunClient(Step(client, user, actions[0]), user, actions[1..])
  }

  lemma {:induction false} RunKept(client: Client, user: UserId, actions: seq<Action>)
    requires Disciplined(client.db, user, client.starts)
    ensures Disciplined(RunClient(client, user, actions).db, user, RunClient(client, user, actions).starts)
    decreases |actions|
  {
    if actions != [] {
      var next := Step(client, user, actions[0]);
      if Next(client.db, user, actions[0]).Some? {
        StepKept(client.db, user, client.starts, actions[0], next.db);
      }
      RunKept(next, user, actions[1..]);
    }
  }

  lemma {:induction false} RunMore(client: Client, user: UserId, a: seq<Action>, b: seq<Action>)
    ensures RunClient(client, user, a + b) == RunClient(RunClient(client, user, a), user, b)
    decreases |a|
  {
    if a == [] {
      assert a + b == b;
    } else {
      assert (a + b)[1..] == a[1..] + b;
      RunMore(Step(client, user, a[0]), user, a[1..], b);
    }
  }

  /** Against an arbitrary relay: whatever answers and events a client is given, in whatever
      order, after every run and with every further step its rows stay in order, cursors move by
      at most one, and neither a record nor a contact is ever replaced. */
  lemma ArbitraryRelay(user: UserId, actions: seq<Action>, action: Action)
    ensures var client := RunClient(Client(Fresh(user), map[]), user, actions);
            var next := RunClient(Client(Fresh(user), map[]), user, actions + [action]);
            && Disciplined(client.db, user, client.starts)
            && Steady(client.db, next.db)
  {
    var start := Client(Fresh(user), map[]);
    var client := RunClient(start, user, actions);
    ClientStart(user);
    RunKept(start, user, actions);
    RunMore(start, user, actions, [action]);
    assert RunClient(client, user, [action]) == RunClient(Step(client, user, action), user, []);
    if Next(client.db, user, action).Some? {
      StepKept(client.db, user, client.starts, action, Next(client.db, user, action).value);
    }
  }
}
