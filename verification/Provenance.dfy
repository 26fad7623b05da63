/**
  Who wrote what, against any relay: an event takes effect only if its body names the sender of
  its envelope and is bound to its room, identifier and parent; what a client shows of somebody
  else is such a body; and what a client sends is what its user asked for.
 */
module Provenance {
  import opened Records
  import opened ClientSpec
  import opened ClientInvariants
  import opened ClientTheorems

  /** The body says the same as the envelope. */
  predicate Genuine(event: Event) {
    var operation, bound := event.operation, Binding(event.operation.room, event.id, event.operation.parent);
    match operation.body.content
    case ApplicationMessage(epoch, sender, binding, _) =>
      operation.contentType == Application && epoch == operation.epoch && sender == event.sender && binding == bound
    case CommitMessage(base, sender, binding, _) =>
      operation.contentType == Commit && base.epoch == operation.epoch && sender == event.sender && binding == bound
    case _ => false
  }

  ghost predicate InboxGenuine(inbox: map<MessageId, InboxRow>) {
    forall id :: id in inbox && inbox[id].state == Applied ==> Genuine(inbox[id].event)
  }

  /** The row shows an applied message: its room, place, sender and plaintext. */
  predicate Shows(inbox: map<MessageId, InboxRow>, id: MessageId, row: HistoryRow) {
    && id in inbox && inbox[id].state == Applied
    && var event := inbox[id].event;
       && event.sender == row.author && event.operation.room == row.room && event.operation.parent + 1 == row.sequence
       && event.operation.body.content.ApplicationMessage?
       && event.operation.body.content.plaintext == row.plaintext
  }

  ghost predicate HistoryGenuine(history: map<MessageId, HistoryRow>, inbox: map<MessageId, InboxRow>, user: UserId) {
    forall id :: id in history && history[id].author != user ==> Shows(inbox, id, history[id])
  }

  // ----- what a client sends -----

  /** The message the user wrote, from this user and bound to its place. */
  predicate IsMessage(user: UserId, room: RoomId, id: MessageId, operation: Append, plaintext: seq<byte>) {
    && operation.contentType == Application && operation.welcome.None?
    && operation.body.content
       == ApplicationMessage(operation.epoch, user, Binding(room, id, operation.parent), plaintext)
  }

  /** A commit that adds the contact, with a Welcome for the contact, signed by the user, to the group
      after the commit. */
  predicate IsAdd(user: UserId, room: RoomId, id: MessageId, operation: Append, contact: UserId) {
    && operation.contentType == Commit && operation.welcome.Some? && operation.body.content.CommitMessage?
    && var base, welcome := operation.body.content.base, operation.welcome.value;
       && base.epoch == operation.epoch
       && operation.body.content == CommitMessage(base, user, Binding(room, id, operation.parent), contact)
       && welcome.recipient == contact
       && welcome.body.content == WelcomeMessage(room, Group(base.epoch + 1, base.roster + {contact}))
       && welcome.signature
          == Signature(user, Transcript(contact, room, id, operation.parent + 1, welcome.body))
  }

  /** The request carries out the intent. */
  predicate CarriesOut(user: UserId, room: RoomId, intent: Intent, id: MessageId, request: Request) {
    match request
    case AppendRoomOperation(operation) =>
      && operation.room == room
      && (if intent.plaintext.Some? then IsMessage(user, room, id, operation, intent.plaintext.value)
          else intent.target.Some? && intent.package.Some? && IsAdd(user, room, id, operation, intent.target.value))
    case ReserveKeyPackage(recipient) => intent.target == Some(recipient) && intent.package.None?
    case _ => false
  }

  /** An intent is a message or an add of a verified contact; its package is the contact's, and its
      attempt carries it out. */
  ghost predicate IntentFaithful(db: Database, user: UserId, room: RoomId)
    requires room in db.intents
  {
    var intent := db.intents[room];
    && intent.target.Some? != intent.plaintext.Some?
    && (intent.target.Some? ==> intent.target.value in db.contacts)
    && (intent.package.Some? ==>
          intent.target.Some? && intent.package.value.content == KeyPackageMessage(intent.target.value))
    && (intent.attempt.Some? && intent.attempt.value in db.outbox ==>
          CarriesOut(user, room, intent, intent.attempt.value, db.outbox[intent.attempt.value].request))
  }

  ghost predicate Faithful(db: Database, user: UserId) {
    forall room :: room in db.intents ==> IntentFaithful(db, user, room)
  }

  ghost predicate Proven(db: Database, user: UserId) {
    Faithful(db, user) && InboxGenuine(db.inbox) && HistoryGenuine(db.history, db.inbox, user)
  }

  // ----- steps that neither build nor apply -----

  /** Rows of the outbox keep their requests, rows of the inbox stay as they are and new ones wait,
      and the history shows nothing new. */
  ghost predicate Calm(db: Database, db': Database) {
    && (forall id :: id in db.outbox && id in db'.outbox ==> db'.outbox[id].request == db.outbox[id].request)
    && (forall id :: id in db.inbox ==> id in db'.inbox && db'.inbox[id] == db.inbox[id])
    && (forall id :: id in db'.inbox && id !in db.inbox ==> db'.inbox[id].state == Pending)
    && (forall id :: id in db'.history ==> id in db.history && db'.history[id] == db.history[id])
    && db.contacts <= db'.contacts
  }

  lemma CalmRows(db: Database, db': Database, user: UserId)
    requires Proven(db, user) && Calm(db, db')
    ensures InboxGenuine(db'.inbox) && HistoryGenuine(db'.history, db'.inbox, user)
  {
    forall id | id in db'.history && db'.history[id].author != user ensures Shows(db'.inbox, id, db'.history[id]) {
      assert Shows(db.inbox, id, db.history[id]);
    }
  }

  /** Intents only lose attempts. */
  ghost predicate Loosens(db: Database, db': Database) {
    forall room :: room in db'.intents ==>
      room in db.intents
      && (db'.intents[room] == db.intents[room] || db'.intents[room] == db.intents[room].(attempt := None))
  }

  lemma CalmKept(db: Database, db': Database, user: UserId)
    requires Proven(db, user) && AttemptsOk(db) && Calm(db, db') && Loosens(db, db')
    ensures Proven(db', user)
  {
    CalmRows(db, db', user);
    forall room | room in db'.intents ensures IntentFaithful(db', user, room) {
      assert IntentFaithful(db, user, room);
      if db'.intents[room].attempt.Some? { assert AttemptOf(db, room, db.intents[room].attempt.value); }
    }
  }

  lemma IntendKeeps(db: Database, user: UserId, room: RoomId, intent: Intent, db': Database)
    requires Proven(db, user) && Next(db, user, Intend(room, intent)) == Some(db')
    ensures Proven(db', user)
  {
    CalmRows(db, db', user);
    forall r | r in db'.intents ensures IntentFaithful(db', user, r) {
      if r != room { assert IntentFaithful(db, user, r); }
    }
  }

  // ----- answers -----

  lemma ConflictCalm(db: Database, id: MessageId, operation: Append, db': Database)
    requires CompleteConflict(db, id, operation) == Some(db')
    ensures Calm(db, db') && Loosens(db, db')
  {}

  lemma RefusalCalm(db: Database, id: MessageId, request: Request, db': Database)
    requires CompleteRefusal(db, id, request) == Some(db')
    ensures Calm(db, db') && Loosens(db, db')
  {}

  lemma ReceiveIs(db: Database, event: Event, db': Database)
    requires ReceiveEvent(db, event) == Some(db')
    ensures db' == db || (event.id !in db.inbox && db' == db.(inbox := db.inbox[event.id := InboxRow(event, Pending)]))
  {}

  lemma ReceiveCalm(db: Database, event: Event, db': Database)
    requires ReceiveEvent(db, event) == Some(db')
    ensures Calm(db, db') && Loosens(db, db')
  {
    ReceiveIs(db, event, db');
    InsertCalm(db, event, db');
  }

  lemma InsertCalm(db: Database, event: Event, db': Database)
    requires db' == db || (event.id !in db.inbox && db' == db.(inbox := db.inbox[event.id := InboxRow(event, Pending)]))
    ensures Calm(db, db') && Loosens(db, db')
  {}

  /** A step that leaves inbox, history, contacts and intents alone and only adds to the outbox. */
  lemma OutboxCalm(db: Database, db': Database)
    requires db'.inbox == db.inbox && db'.history == db.history && db.contacts <= db'.contacts
    requires db'.intents == db.intents
    requires forall id :: id in db.outbox && id in db'.outbox ==> db'.outbox[id] == db.outbox[id]
    ensures Calm(db, db') && Loosens(db, db')
  {}

  lemma SaveIs(db: Database, id: MessageId, request: Request, db': Database)
    requires SaveOutbox(db, id, request) == Some(db')
    ensures db' == db.(outbox := db'.outbox)
    ensures forall k :: k in db.outbox ==> k in db'.outbox && db'.outbox[k] == db.outbox[k]
  {}

  lemma CreationCalm(db: Database, user: UserId, id: MessageId, room: RoomId)
    ensures var db' := CompleteCreation(db, user, id, room); Calm(db, db') && Loosens(db, db')
  {}

  /** The package of a reservation is the contact's own. */
  lemma ReservationKeeps(db: Database, user: UserId, id: MessageId, recipient: UserId, package: Blob, db': Database)
    requires Proven(db, user) && AttemptsOk(db) && CompleteReservation(db, id, recipient, package) == Some(db')
    ensures Proven(db', user)
  {
    CalmRows(db, db', user);
    forall room | room in db'.intents ensures IntentFaithful(db', user, room) {
      assert IntentFaithful(db, user, room);
      if db'.intents[room].attempt.Some? { assert AttemptOf(db, room, db.intents[room].attempt.value); }
    }
  }

  lemma AnswerKeeps(db: Database, user: UserId, id: MessageId, response: Response, db': Database)
    requires Proven(db, user) && AttemptsOk(db) && Next(db, user, Answer(id, response)) == Some(db')
    ensures Proven(db', user)
  {
    var request := db.outbox[id].request;
    if request.CreateRoom? && response.RoomCreated? {
      CreationCalm(db, user, id, response.room);
      CalmKept(db, db', user);
    } else if request.ReserveKeyPackage? && response.KeyPackage? {
      ReservationKeeps(db, user, id, request.recipient, response.package, db');
    } else {
      OtherAnswerCalm(db, user, id, response, db');
      CalmKept(db, db', user);
    }
  }

  lemma OtherAnswerCalm(db: Database, user: UserId, id: MessageId, response: Response, db': Database)
    requires id in db.outbox && !response.RoomCreated? && !response.KeyPackage?
    requires Complete(db, user, id, db.outbox[id].request, response) == Some(db')
    ensures Calm(db, db') && Loosens(db, db')
  {
    var request := db.outbox[id].request;
    if response.AppendAccepted? {
      ReceiveCalm(db, response.event, db');
    } else if response.HeadConflict? {
      ConflictCalm(db, id, request.operation, db');
    } else if response.Rejected? && !IsTransient(response) {
      RefusalCalm(db, id, request, db');
    }
  }

  // ----- building -----

  lemma SendCarries(db: Database, user: UserId, room: RoomId, intent: Intent, id: MessageId, bytes: Ciphertext,
                    db1: Database)
    requires id !in db.outbox && id !in db.history && intent.plaintext.Some?
    requires BuildSend(db, user, room, intent, id, bytes) == Some(db1)
    ensures id in db1.outbox && CarriesOut(user, room, intent, id, db1.outbox[id].request)
    ensures id in db1.history && db1.history == db.history[id := db1.history[id]] && db1.history[id].author == user
  {}

  lemma AddCarries(db: Database, user: UserId, room: RoomId, intent: Intent, id: MessageId, bytes: Ciphertext,
                   db1: Database)
    requires id !in db.outbox && intent.plaintext.None? && intent.target.Some? && intent.package.Some?
    requires intent.package.value.content == KeyPackageMessage(intent.target.value)
    requires BuildAdd(db, user, room, intent, id, bytes) == Some(db1)
    ensures id in db1.outbox && CarriesOut(user, room, intent, id, db1.outbox[id].request)
    ensures db1.history == db.history
  {}

  /** What is built carries out its intent, and only an own row enters the history. */
  lemma BuildCarries(db: Database, user: UserId, room: RoomId, id: MessageId, bytes: Ciphertext, db': Database)
    requires Unseen(db, id) && room in db.intents && IntentFaithful(db, user, room)
    requires BuildAttempt(db, user, room, id, bytes) == Some(db')
    ensures id in db'.outbox && CarriesOut(user, room, db.intents[room], id, db'.outbox[id].request)
    ensures forall k :: k in db'.history && db'.history[k].author != user ==>
              k in db.history && db'.history[k] == db.history[k]
  {
    var intent := db.intents[room];
    var db1 := BuildRequest(db, user, room, intent, id, bytes).value;
    if intent.package.Some? {
      AddCarries(db, user, room, intent, id, bytes, db1);
    } else if intent.plaintext.Some? {
      SendCarries(db, user, room, intent, id, bytes, db1);
    }
  }

  lemma BuildKeeps(db: Database, user: UserId, starts: Starts, room: RoomId, id: MessageId, bytes: Ciphertext,
                   db': Database)
    requires Proven(db, user) && Disciplined(db, user, starts)
    requires Next(db, user, Build(room, id, bytes)) == Some(db')
    ensures Proven(db', user)
  {
    assert IntentFaithful(db, user, room);
    BuildCarries(db, user, room, id, bytes, db');
    BuildShape(db, user, room, id, bytes);
    assert BuildsAttempt(db, db', room, id);
    forall r | r in db'.intents ensures IntentFaithful(db', user, r) {
      assert IntentFaithful(db, user, r);
      if r != room && db.intents[r].attempt.Some? { assert AttemptOf(db, r, db.intents[r].attempt.value); }
    }
    forall k | k in db'.history && db'.history[k].author != user ensures Shows(db'.inbox, k, db'.history[k]) {
      assert Shows(db.inbox, k, db.history[k]);
    }
  }

  // ----- applying -----

  /** An event that is due is in the inbox and not settled, so no row of somebody else shows it. */
  lemma DueIsNew(db: Database, user: UserId, starts: Starts, event: Event)
    requires HistoryGenuine(db.history, db.inbox, user) && ClientOk(db, starts)
    requires event.id in db.inbox && db.inbox[event.id].event == event
    requires Cursor(db, event.operation.room) == event.operation.parent
    ensures !Settled(db.inbox[event.id].state)
    ensures event.id in db.history ==> db.history[event.id].author == user
  {
    assert RowPlaced(db, starts, db.inbox[event.id]);
    assert event.id in db.history && db.history[event.id].author != user ==>
        Shows(db.inbox, event.id, db.history[event.id]);
  }

  /** An append in the outbox is from the user and bound to its place. */
  lemma OutboxGenuine(db: Database, user: UserId, id: MessageId)
    requires Faithful(db, user) && AttemptsOk(db) && id in db.outbox && db.outbox[id].request.AppendRoomOperation?
    ensures Genuine(Event(id, user, db.outbox[id].request.operation))
  {
    assert Owned(db, id);
    var room :| AttemptOf(db, room, id);
    assert IntentFaithful(db, user, room);
  }

  /** What settling an event does to the rows. */
  ghost predicate Settles(db: Database, event: Event, state: RowState, db': Database) {
    && (forall id :: id in db.outbox && id in db'.outbox ==> db'.outbox[id].request == db.outbox[id].request)
    && db'.inbox == db.inbox[event.id := InboxRow(event, state)]
    && db'.contacts == db.contacts
  }

  lemma FinishSettles(db: Database, user: UserId, event: Event, state: RowState, db': Database)
    requires FinishEvent(db, user, event, state) == Some(db')
    requires event.id in db.inbox && db.inbox[event.id].event == event
    ensures Settles(db, event, state, db') && db'.history == db.history && db'.intents == db.intents
    ensures db'.groups == db.groups
    ensures forall id :: id in db'.outbox ==> id in db.outbox || id.Receipt?
  {}

  lemma SettledKept(db: Database, user: UserId, starts: Starts, event: Event, state: RowState, db': Database)
    requires Proven(db, user) && ClientOk(db, starts) && Settles(db, event, state, db') && Loosens(db, db')
    requires event.id in db.inbox && db.inbox[event.id].event == event
    requires Cursor(db, event.operation.room) == event.operation.parent
    requires state == Applied ==> Genuine(event)
    requires forall id :: id in db'.history && db'.history[id].author != user ==>
               Shows(db'.inbox, id, db'.history[id]) || (id in db.history && db'.history[id] == db.history[id])
    ensures Proven(db', user)
  {
    DueIsNew(db, user, starts, event);
    forall id | id in db'.history && db'.history[id].author != user ensures Shows(db'.inbox, id, db'.history[id]) {
      if !Shows(db'.inbox, id, db'.history[id]) { assert Shows(db.inbox, id, db.history[id]); }
    }
    forall room | room in db'.intents ensures IntentFaithful(db', user, room) {
      assert IntentFaithful(db, user, room);
      if db'.intents[room].attempt.Some? { assert AttemptOf(db, room, db.intents[room].attempt.value); }
    }
  }

  /** An opened event is genuine, and its sender a member of the group it opens in. */
  lemma OpenedGenuine(db: Database, user: UserId, event: Event, db1: Database, plaintext: Option<seq<byte>>)
    requires ProcessBound(db, user, event) == Opened(db1, plaintext)
    ensures Genuine(event)
    ensures plaintext == (if event.operation.body.content.ApplicationMessage?
                          then Some(event.operation.body.content.plaintext) else None)
    ensures db1 == db.(groups := db1.groups)
  {}

  lemma OtherKeeps(db: Database, user: UserId, starts: Starts, event: Event, db': Database)
    requires Proven(db, user) && ClientOk(db, starts) && event.sender != user
    requires event.id in db.inbox && db.inbox[event.id].event == event
    requires Cursor(db, event.operation.room) == event.operation.parent && ApplyOther(db, user, event) == Some(db')
    ensures Proven(db', user)
  {
    match ProcessBound(db, user, event) {
      case Failure =>
      case FaultBlocked => SettledKept(db, user, starts, event, Stuck, db');
      case FaultRejected =>
        FinishSettles(db, user, event, Refused, db');
        SettledKept(db, user, starts, event, Refused, db');
      case Opened(db1, plaintext) => OpenedKeeps(db, user, starts, event, db1, plaintext, db');
    }
  }

  lemma OpenedKeeps(db: Database, user: UserId, starts: Starts, event: Event, db1: Database,
                    plaintext: Option<seq<byte>>, db': Database)
    requires Proven(db, user) && ClientOk(db, starts) && event.sender != user
    requires event.id in db.inbox && db.inbox[event.id].event == event
    requires Cursor(db, event.operation.room) == event.operation.parent
    requires ProcessBound(db, user, event) == Opened(db1, plaintext)
    requires FinishEvent(Remember(db1, event, plaintext), user, event, Applied) == Some(db')
    ensures Proven(db', user)
  {
    DueIsNew(db, user, starts, event);
    OpenedGenuine(db, user, event, db1, plaintext);
    FinishSettles(Remember(db1, event, plaintext), user, event, Applied, db');
    RememberShows(db, db1, event, plaintext, db');
    SettledKept(db, user, starts, event, Applied, db');
  }

  lemma RememberShows(db: Database, db1: Database, event: Event, plaintext: Option<seq<byte>>, db': Database)
    requires db1 == db.(groups := db1.groups) && db'.inbox == db.inbox[event.id := InboxRow(event, Applied)]
    requires db'.history == Remember(db1, event, plaintext).history
    requires plaintext.Some? ==> event.operation.body.content.ApplicationMessage?
                                 && event.operation.body.content.plaintext == plaintext.value
    requires event.id in db.history ==> db.history[event.id].author != event.sender
    ensures forall id :: id in db'.history && !(id in db.history && db'.history[id] == db.history[id]) ==>
              || Shows(db'.inbox, id, db'.history[id])
              || (id in db.history && db'.history[id].author == db.history[id].author)
  {}

  lemma OwnKeeps(db: Database, user: UserId, starts: Starts, event: Event, db': Database)
    requires Proven(db, user) && ClientOk(db, starts) && event.sender == user
    requires event.id in db.inbox && db.inbox[event.id].event == event
    requires Cursor(db, event.operation.room) == event.operation.parent && ApplyOwn(db, user, event) == Some(db')
    ensures Proven(db', user)
  {
    DueIsNew(db, user, starts, event);
    OutboxGenuine(db, user, event.id);
    OwnSettles(db, user, event, db');
    SettledKept(db, user, starts, event, Applied, db');
  }

  lemma OwnSettles(db: Database, user: UserId, event: Event, db': Database)
    requires event.id in db.inbox && db.inbox[event.id].event == event && ApplyOwn(db, user, event) == Some(db')
    requires AttemptsOk(db)
    ensures event.id in db.outbox && db.outbox[event.id].request == AppendRoomOperation(event.operation)
    ensures Settles(db, event, Applied, db') && Loosens(db, db')
    ensures db'.history == SetSequence(db.history, event.id, event.operation.parent + 1)
  {
    var applied := if event.operation.contentType == Commit then ApplyAcceptedCommit(db, event.operation.room).value
                   else db;
    ClaimIs(db, applied, event);
    FinishSettles(Claim(applied, event), user, event, Applied, db');
  }

  lemma ClaimIs(db: Database, applied: Database, event: Event)
    requires applied == db.(groups := applied.groups)
    ensures var db1 := Claim(applied, event);
            && db1.inbox == db.inbox && db1.contacts == db.contacts && db1.groups == applied.groups
            && db1.outbox == db.outbox - {event.id} && Loosens(db, db1)
            && db1.history == SetSequence(db.history, event.id, event.operation.parent + 1)
  {}

  // ----- every run -----

  lemma StepProven(db: Database, user: UserId, starts: Starts, action: Action, db': Database)
    requires Proven(db, user) && Disciplined(db, user, starts) && Next(db, user, action) == Some(db')
    ensures Proven(db', user)
  {
    if action.Answer? {
      AnswerKeeps(db, user, action.id, action.response, db');
    } else if action.Build? {
      BuildKeeps(db, user, starts, action.room, action.id, action.bytes, db');
    } else if action.Intend? {
      IntendKeeps(db, user, action.room, action.intent, db');
    } else if action.Apply? {
      if action.event.sender == user {
        OwnKeeps(db, user, starts, action.event, db');
      } else {
        OtherKeeps(db, user, starts, action.event, db');
      }
    } else {
      QuietCalm(db, user, action, db');
      CalmKept(db, db', user);
    }
  }

  lemma QuietCalm(db: Database, user: UserId, action: Action, db': Database)
    requires action.Import? || action.Issue? || action.Receive? || action.Store? || action.Process?
    requires Next(db, user, action) == Some(db')
    ensures Calm(db, db') && Loosens(db, db')
  {
    if action.Receive? {
      ReceiveCalm(db, action.event, db');
    } else if action.Process? {
      ProcessCalm(db, user, action.cursor, action.keyAvailable, db');
    } else if action.Issue? {
      SaveIs(db, action.id, action.request, db');
      OutboxCalm(db, db');
    } else {
      OutboxCalm(db, db');
    }
  }

  lemma ProcessCalm(db: Database, user: UserId, cursor: nat, keyAvailable: bool, db': Database)
    requires cursor in db.welcomes && db' == ProcessWelcome(db, user, cursor, keyAvailable)
    ensures Calm(db, db') && Loosens(db, db')
  {
    ProcessCases(db, user, cursor, keyAvailable);
    if db' != MarkWelcome(db, cursor, Stuck) { JoinIs(db, user, cursor, keyAvailable, db'); }
    OutboxCalm(db, db');
  }

  lemma JoinIs(db: Database, user: UserId, cursor: nat, keyAvailable: bool, db': Database)
    requires cursor in db.welcomes
    requires JoinRoom(db, user, cursor, db.welcomes[cursor].record, keyAvailable) == Some(db')
    ensures db'.inbox == db.inbox && db'.history == db.history && db'.contacts == db.contacts
    ensures db'.intents == db.intents
    ensures forall k :: k in db.outbox ==> k in db'.outbox && db'.outbox[k] == db.outbox[k]
  {}

  lemma {:induction false} RunProven(client: Client, user: UserId, actions: seq<Action>)
    requires Disciplined(client.db, user, client.starts) && Proven(client.db, user)
    ensures Disciplined(RunClient(client, user, actions).db, user, RunClient(client, user, actions).starts)
    ensures Proven(RunClient(client, user, actions).db, user)
    decreases |actions|
  {
    if actions != [] {
      var next := Step(client, user, actions[0]);
      if Next(client.db, user, actions[0]).Some? {
        StepKept(client.db, user, client.starts, actions[0], next.db);
        StepProven(client.db, user, client.starts, actions[0], next.db);
      }
      RunProven(next, user, actions[1..]);
    }
  }

  /** The client after a run, whatever it was given. */
  function After(user: UserId, actions: seq<Action>): Client { RunClient(Client(Fresh(user), map[]), user, actions) }

  lemma ReachedProven(user: UserId, actions: seq<Action>)
    ensures Disciplined(After(user, actions).db, user, After(user, actions).starts)
    ensures Proven(After(user, actions).db, user)
  {
    ClientStart(user);
    RunProven(Client(Fresh(user), map[]), user, actions);
  }

  /** Authorship: whatever the relay hands over, an event is applied only if its body names its
      sender and is bound to its room, identifier and parent; one that is not is skipped. */
  lemma Authorship(user: UserId, actions: seq<Action>, id: MessageId)
    ensures var db := After(user, actions).db;
            id in db.inbox ==>
              && (db.inbox[id].state == Applied ==> Genuine(db.inbox[id].event))
              && (!Genuine(db.inbox[id].event)
                  && db.inbox[id].event.operation.parent < Cursor(db, db.inbox[id].event.operation.room)
                  ==> db.inbox[id].state == Refused)
  {
    ReachedProven(user, actions);
    var client := After(user, actions);
    if id in client.db.inbox { assert RowPlaced(client.db, client.starts, client.db.inbox[id]); }
  }

  /** What a client shows under another name is what that user wrote, for that place. */
  lemma Attribution(user: UserId, actions: seq<Action>, id: MessageId)
    ensures var db := After(user, actions).db;
            id in db.history && db.history[id].author != user ==>
              && id in db.inbox && db.inbox[id].state == Applied && Genuine(db.inbox[id].event)
              && db.inbox[id].event.operation.body.content
                 == ApplicationMessage(db.inbox[id].event.operation.epoch, db.history[id].author,
                                       Binding(db.history[id].room, id, db.inbox[id].event.operation.parent),
                                       db.history[id].plaintext)
              && db.history[id].sequence == db.inbox[id].event.operation.parent + 1
  {
    ReachedProven(user, actions);
    var client := After(user, actions);
    if id in client.db.history && client.db.history[id].author != user {
      assert Shows(client.db.inbox, id, client.db.history[id]);
      assert client.db.inbox[id].event.id == id;
    }
  }

  /** A forged event changes no group, no history and no contact, whatever else it says. */
  lemma ForgeryIsInert(db: Database, user: UserId, event: Event, db': Database)
    requires event.sender != user && !Genuine(event) && Next(db, user, Apply(event)) == Some(db')
    ensures db'.groups == db.groups && db'.history == db.history && db'.contacts == db.contacts
    ensures db'.inbox[event.id].state == Refused || db'.inbox[event.id].state == Stuck
  {
    match ProcessBound(db, user, event) {
      case Failure =>
      case FaultBlocked =>
      case FaultRejected => FinishSettles(db, user, event, Refused, db');
      case Opened(db1, plaintext) => OpenedGenuine(db, user, event, db1, plaintext);
    }
  }

  /** Faithful attempts: whatever the relay answers, every append in the outbox is the message its
      intent holds, or the add of the verified contact its intent names, with a package of that
      contact and a Welcome signed for that contact; a reservation is for that contact. */
  lemma FaithfulAttempts(user: UserId, actions: seq<Action>, room: RoomId)
    ensures var db := After(user, actions).db;
            room in db.intents ==>
              var intent := db.intents[room];
              && (intent.target.Some? ==> intent.target.value in db.contacts)
              && (intent.package.Some? ==>
                    intent.target.Some? && intent.package.value.content == KeyPackageMessage(intent.target.value))
              && (intent.attempt.Some? ==>
                    intent.attempt.value in db.outbox
                    && CarriesOut(user, room, intent, intent.attempt.value, db.outbox[intent.attempt.value].request))
  {
    ReachedProven(user, actions);
    var db := After(user, actions).db;
    if room in db.intents {
      assert IntentFaithful(db, user, room);
      if db.intents[room].attempt.Some? { assert AttemptOf(db, room, db.intents[room].attempt.value); }
    }
  }

  // ----- the verdict on somebody else's event -----

  /** The event has to wait: it is of a later epoch, or a member's commit on the current group that
      adds a newcomer the user has not verified. */
  predicate HasToWait(db: Database, user: UserId, group: Group, event: Event) {
    match event.operation.body.content
    case ApplicationMessage(epoch, _, _, _) => epoch == event.operation.epoch && group.epoch < epoch
    case CommitMessage(base, sender, _, added) =>
      && base.epoch == event.operation.epoch
      && (|| group.epoch < base.epoch
          || (base == group && sender in group.roster && sender != user && added !in group.roster
              && added !in db.contacts))
    case _ => false
  }

  /** The event fits the group: it is genuine and a member's, of the current epoch or a commit on the
      current group that adds a verified newcomer. */
  predicate FitsGroup(db: Database, group: Group, event: Event) {
    && Genuine(event) && event.sender in group.roster
    && match event.operation.body.content
       case ApplicationMessage(epoch, _, _, _) => epoch == group.epoch
       case CommitMessage(base, _, _, added) => base == group && added !in group.roster && added in db.contacts
       case _ => false
  }

  /** Somebody else's event that is due is applied exactly if it fits the group, waits exactly if it
      has to, and is refused otherwise; the cursor moves unless it waits. */
  lemma ApplyVerdict(db: Database, user: UserId, event: Event)
    requires event.sender != user && event.id in db.inbox && db.inbox[event.id].event == event
    requires !Unresolved(db, event.operation.room) && HasGroup(db, event.operation.room)
    requires Cursor(db, event.operation.room) == event.operation.parent
    requires AcknowledgementId(user, [event.id], []) in db.outbox ==>
               db.outbox[AcknowledgementId(user, [event.id], [])].request == Acknowledge([event.id], [])
    ensures var room, group := event.operation.room, db.groups[event.operation.room].group;
            var next := Next(db, user, Apply(event));
            next.Some? && event.id in next.value.inbox
            && (if HasToWait(db, user, group, event) then
                  next.value.inbox[event.id].state == Stuck && Cursor(next.value, room) == event.operation.parent
                else
                  && next.value.inbox[event.id].state == (if FitsGroup(db, group, event) then Applied else Refused)
                  && Cursor(next.value, room) == event.operation.parent + 1)
  {
    OtherVerdict(db, user, event);
  }

  lemma OtherVerdict(db: Database, user: UserId, event: Event)
    requires event.sender != user && event.id in db.inbox && db.inbox[event.id].event == event
    requires HasGroup(db, event.operation.room) && Cursor(db, event.operation.room) == event.operation.parent
    requires AcknowledgementId(user, [event.id], []) in db.outbox ==>
               db.outbox[AcknowledgementId(user, [event.id], [])].request == Acknowledge([event.id], [])
    ensures var room, group := event.operation.room, db.groups[event.operation.room].group;
            var next := ApplyOther(db, user, event);
            next.Some? && event.id in next.value.inbox
            && (if HasToWait(db, user, group, event) then
                  next.value.inbox[event.id].state == Stuck && Cursor(next.value, room) == event.operation.parent
                else
                  && next.value.inbox[event.id].state == (if FitsGroup(db, group, event) then Applied else Refused)
                  && Cursor(next.value, room) == event.operation.parent + 1)
  {
    var db' := ApplyOther(db, user, event);
    BoundVerdict(db, user, event);
    match ProcessBound(db, user, event) {
      case Failure =>
      case FaultBlocked =>
      case FaultRejected => FinishSettles(db, user, event, Refused, db'.value);
      case Opened(db1, plaintext) =>
        OpenedGenuine(db, user, event, db1, plaintext);
        FinishSettles(Remember(db1, event, plaintext), user, event, Applied, db'.value);
    }
  }

  lemma BoundVerdict(db: Database, user: UserId, event: Event)
    requires event.sender != user && HasGroup(db, event.operation.room)
    ensures var group, bound := db.groups[event.operation.room].group, ProcessBound(db, user, event);
            && (bound.FaultBlocked? <==> HasToWait(db, user, group, event))
            && (bound.Opened? <==> FitsGroup(db, group, event)) && !bound.Failure?
  {}
}
