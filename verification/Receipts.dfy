/**
  What a client owes the relay, whatever the relay does: a receipt for every event it has settled and
  every Welcome it has joined by, which waits in the outbox until it is answered. And nothing it
  stores has a number that does not fit 63 bits.
 */
module Receipts {
  import opened Records
  import opened ClientSpec
  import opened ClientInvariants
  import opened ClientTheorems
  import opened Provenance
  import opened Lineage

  /** A row under a receipt identifier is the receipt of that record. */
  ghost predicate Canonical(outbox: map<MessageId, OutboxRow>) {
    forall id: MessageId :: id in outbox && id.Receipt? ==> outbox[id].request == Acknowledge(id.events, id.welcomes)
  }

  ghost predicate Numbered(db: Database) {
    && (forall id :: id in db.inbox ==> db.inbox[id].event.operation.parent < I64_MAX)
    && (forall room :: room in db.cursors ==> db.cursors[room] <= I64_MAX)
  }

  function EventReceipt(user: UserId, id: MessageId): MessageId { Receipt(user, [id], []) }

  function WelcomeReceipt(user: UserId, cursor: nat): MessageId { Receipt(user, [], [cursor]) }

  /** The record is done with, so that its receipt is due. */
  predicate Due(db: Database, user: UserId, receipt: MessageId) {
    || (receipt.Receipt? && |receipt.events| == 1 && receipt == EventReceipt(user, receipt.events[0])
        && receipt.events[0] in db.inbox && Settled(db.inbox[receipt.events[0]].state))
    || (receipt.Receipt? && |receipt.welcomes| == 1 && receipt == WelcomeReceipt(user, receipt.welcomes[0])
        && receipt.welcomes[0] in db.welcomes && db.welcomes[receipt.welcomes[0]].state == Applied)
  }

  /** The step answers that request, for good. */
  predicate Answers(action: Action, id: MessageId) {
    action.Answer? && action.id == id && !IsTransient(action.response)
  }

  // ----- one step -----

  ghost predicate Keeps(db: Database, user: UserId, action: Action, db': Database) {
    && Canonical(db'.outbox) && Numbered(db')
    && (forall id: MessageId :: id in db.outbox && id.Receipt? && id !in db'.outbox ==> Answers(action, id))
    && (forall id: MessageId :: Due(db', user, id) && !Due(db, user, id) ==> id in db'.outbox)
  }

  /** A step that settles and joins nothing, and puts no receipt into the outbox. */
  lemma PlainKeeps(db: Database, user: UserId, action: Action, db': Database)
    requires Canonical(db.outbox) && Numbered(db) && Numbered(db')
    requires forall id: MessageId :: id in db'.outbox && id.Receipt? ==>
               id in db.outbox && db'.outbox[id] == db.outbox[id]
    requires forall id: MessageId :: id in db.outbox && id !in db'.outbox ==> Answers(action, id)
    requires forall id :: id in db'.inbox && Settled(db'.inbox[id].state) ==>
               id in db.inbox && Settled(db.inbox[id].state)
    requires forall c :: c in db'.welcomes && db'.welcomes[c].state == Applied ==>
               c in db.welcomes && db.welcomes[c].state == Applied
    ensures Keeps(db, user, action, db')
  {}

  lemma ReceiveKeeps(db: Database, user: UserId, action: Action, event: Event, db': Database)
    requires Canonical(db.outbox) && Numbered(db) && ReceiveEvent(db, event) == Some(db')
    ensures Keeps(db, user, action, db')
  {
    ReceiveIs(db, event, db');
    ReceivedNumber(db, event);
    PlainKeeps(db, user, action, db');
  }

  lemma ReceivedNumber(db: Database, event: Event)
    requires ReceiveEvent(db, event).Some?
    ensures event.operation.parent < I64_MAX
  {}

  lemma DropsKeep(db: Database, user: UserId, id: MessageId, response: Response, db': Database)
    requires Canonical(db.outbox) && Numbered(db) && Drops(db, id, db') && !IsTransient(response)
    ensures Keeps(db, user, Answer(id, response), db')
  {
    PlainKeeps(db, user, Answer(id, response), db');
  }

  lemma CreationKeeps(db: Database, user: UserId, starts: Starts, id: MessageId, room: RoomId, response: Response,
                      db': Database)
    requires Canonical(db.outbox) && Numbered(db) && CursorsOk(db, starts) && !IsTransient(response)
    requires db' == CompleteCreation(db, user, id, room)
    ensures Keeps(db, user, Answer(id, response), db')
  {
    CreationCases(db, user, starts, id, room);
    PlainKeeps(db, user, Answer(id, response), db');
  }

  lemma AnswerKeeps(db: Database, user: UserId, starts: Starts, id: MessageId, response: Response, db': Database)
    requires Canonical(db.outbox) && Numbered(db) && CursorsOk(db, starts)
    requires Next(db, user, Answer(id, response)) == Some(db')
    ensures Keeps(db, user, Answer(id, response), db')
  {
    var request := db.outbox[id].request;
    if response.AppendAccepted? {
      ReceiveKeeps(db, user, Answer(id, response), response.event, db');
    } else if response.HeadConflict? {
      ConflictIsDrop(db, id, request.operation, db');
      DropsKeep(db, user, id, response, db');
    } else if response.RoomCreated? {
      CreationKeeps(db, user, starts, id, response.room, response, db');
    } else if IsTransient(response) {
      PlainKeeps(db, user, Answer(id, response), db');
    } else if response.Rejected? {
      RefusalIsDrop(db, id, request, db');
      DropsKeep(db, user, id, response, db');
    } else {
      OtherRetires(db, user, id, response, db');
      DropsKeep(db, user, id, response, db');
    }
  }

  lemma BuildKeeps(db: Database, user: UserId, starts: Starts, room: RoomId, id: MessageId, bytes: Ciphertext,
                   db': Database)
    requires Canonical(db.outbox) && Numbered(db) && Disciplined(db, user, starts) && PendingsTrue(db)
    requires Next(db, user, Build(room, id, bytes)) == Some(db')
    ensures Keeps(db, user, Build(room, id, bytes), db')
  {
    BuildShape(db, user, room, id, bytes);
    BuildMadeHere(db, user, room, id, bytes, db');
    PlainKeeps(db, user, Build(room, id, bytes), db');
  }

  lemma StoreKeeps(db: Database, user: UserId, page: seq<WelcomeDelivery>, db': Database)
    requires Canonical(db.outbox) && Numbered(db) && StorePage(db, user, page) == Some(db')
    ensures Keeps(db, user, Store(page), db')
  {
    if page != [] { InsertPageAdds(db.welcomes, page, db'.welcomes); }
    assert db' == db.(welcomes := db'.welcomes, welcomeCursor := db'.welcomeCursor);
    PlainKeeps(db, user, Store(page), db');
  }

  /** A join puts its receipt into the outbox. */
  lemma JoinKeeps(db: Database, user: UserId, cursor: nat, keyAvailable: bool, db': Database)
    requires Canonical(db.outbox) && Numbered(db) && cursor in db.welcomes
    requires WelcomeVerified(db, user, db.welcomes[cursor].record)
    requires JoinRoom(db, user, cursor, db.welcomes[cursor].record, keyAvailable) == Some(db')
    ensures Keeps(db, user, Process(cursor, keyAvailable), db')
  {
    JoinPuts(db, user, cursor, keyAvailable, db');
  }

  lemma JoinPuts(db: Database, user: UserId, cursor: nat, keyAvailable: bool, db': Database)
    requires cursor in db.welcomes && WelcomeVerified(db, user, db.welcomes[cursor].record)
    requires JoinRoom(db, user, cursor, db.welcomes[cursor].record, keyAvailable) == Some(db')
    ensures db'.inbox == db.inbox && WelcomeReceipt(user, cursor) in db'.outbox
    ensures db'.outbox[WelcomeReceipt(user, cursor)].request == Acknowledge([], [cursor])
    ensures db'.outbox == db.outbox[WelcomeReceipt(user, cursor) := db'.outbox[WelcomeReceipt(user, cursor)]]
    ensures db'.welcomes == db.welcomes[cursor := db.welcomes[cursor].(state := Applied)]
    ensures db'.cursors == db.cursors[db.welcomes[cursor].record.room := db.welcomes[cursor].record.sequence]
    ensures db.welcomes[cursor].record.sequence <= I64_MAX
  {}

  lemma ProcessKeeps(db: Database, user: UserId, cursor: nat, keyAvailable: bool, db': Database)
    requires Canonical(db.outbox) && Numbered(db) && Next(db, user, Process(cursor, keyAvailable)) == Some(db')
    ensures Keeps(db, user, Process(cursor, keyAvailable), db')
  {
    if db' == MarkWelcome(db, cursor, Stuck) {
      PlainKeeps(db, user, Process(cursor, keyAvailable), db');
    } else {
      JoinKeeps(db, user, cursor, keyAvailable, db');
    }
  }

  /** Settling an event puts its receipt into the outbox. */
  lemma FinishKeeps(db: Database, db1: Database, user: UserId, event: Event, state: RowState, db': Database)
    requires Canonical(db.outbox) && Numbered(db) && event.id in db.inbox && db.inbox[event.id].event == event
    requires db1.inbox == db.inbox && db1.cursors == db.cursors && db1.welcomes == db.welcomes
    requires forall id :: id in db1.outbox ==> id in db.outbox && db1.outbox[id] == db.outbox[id]
    requires forall id: MessageId :: id in db.outbox && id.Receipt? ==> id in db1.outbox
    requires FinishEvent(db1, user, event, state) == Some(db')
    ensures Keeps(db, user, Apply(event), db')
  {
    FinishPuts(db1, user, event, state, db');
  }

  lemma FinishPuts(db: Database, user: UserId, event: Event, state: RowState, db': Database)
    requires FinishEvent(db, user, event, state) == Some(db') && event.id in db.inbox
    ensures EventReceipt(user, event.id) in db'.outbox
    ensures db'.outbox[EventReceipt(user, event.id)].request == Acknowledge([event.id], [])
    ensures db'.outbox == db.outbox[EventReceipt(user, event.id) := db'.outbox[EventReceipt(user, event.id)]]
    ensures db'.inbox == db.inbox[event.id := db.inbox[event.id].(state := state)] && db'.welcomes == db.welcomes
    ensures db'.cursors == db.cursors[event.operation.room := event.operation.parent + 1]
  {
    SavePuts(Advance(db, event, state), EventReceipt(user, event.id), Acknowledge([event.id], []), db');
  }

  lemma SavePuts(db: Database, id: MessageId, request: Request, db': Database)
    requires SaveOutbox(db, id, request) == Some(db')
    ensures id in db'.outbox && db'.outbox[id].request == request
    ensures db' == db.(outbox := db.outbox[id := db'.outbox[id]])
  {
    if id in db.outbox {
      assert db' == db && db.outbox[id := db.outbox[id]] == db.outbox;
    } else {
      assert db' == db.(outbox := db.outbox[id := OutboxRow(NextRowid(db.outbox), request)]);
    }
  }

  lemma OtherKeeps(db: Database, user: UserId, event: Event, db': Database)
    requires Canonical(db.outbox) && Numbered(db) && event.id in db.inbox && db.inbox[event.id].event == event
    requires ApplyOther(db, user, event) == Some(db')
    ensures Keeps(db, user, Apply(event), db')
  {
    match ProcessBound(db, user, event) {
      case Failure =>
      case FaultBlocked => PlainKeeps(db, user, Apply(event), db');
      case FaultRejected => FinishKeeps(db, db, user, event, Refused, db');
      case Opened(db1, plaintext) =>
        OpenedGenuine(db, user, event, db1, plaintext);
        RememberFrame(db1, event, plaintext);
        FinishKeeps(db, Remember(db1, event, plaintext), user, event, Applied, db');
    }
  }

  lemma OwnKeeps(db: Database, user: UserId, event: Event, db': Database)
    requires Canonical(db.outbox) && Numbered(db) && event.id in db.inbox && db.inbox[event.id].event == event
    requires ApplyOwn(db, user, event) == Some(db')
    ensures Keeps(db, user, Apply(event), db')
  {
    var applied := if event.operation.contentType == Commit then ApplyAcceptedCommit(db, event.operation.room).value
                   else db;
    AppliedFrame(db, event.operation.room, event.operation.contentType == Commit, applied);
    ClaimIs(db, applied, event);
    FinishKeeps(db, Claim(applied, event), user, event, Applied, db');
  }

  lemma AppliedFrame(db: Database, room: RoomId, commit: bool, applied: Database)
    requires (if commit then ApplyAcceptedCommit(db, room) else Some(db)) == Some(applied)
    ensures applied == db.(groups := applied.groups)
  {}

  lemma StepKeeps(db: Database, user: UserId, starts: Starts, action: Action, db': Database)
    requires Canonical(db.outbox) && Numbered(db) && Disciplined(db, user, starts) && PendingsTrue(db)
    requires Next(db, user, action) == Some(db')
    ensures Keeps(db, user, action, db')
  {
    if action.Answer? {
      AnswerKeeps(db, user, starts, action.id, action.response, db');
    } else if action.Build? {
      BuildKeeps(db, user, starts, action.room, action.id, action.bytes, db');
    } else if action.Apply? {
      if action.event.sender == user {
        OwnKeeps(db, user, action.event, db');
      } else {
        OtherKeeps(db, user, action.event, db');
      }
    } else if action.Process? {
      ProcessKeeps(db, user, action.cursor, action.keyAvailable, db');
    } else if action.Store? {
      StoreKeeps(db, user, action.page, db');
    } else if action.Receive? {
      ReceiveKeeps(db, user, action, action.event, db');
    } else {
      AskKeeps(db, user, action, db');
    }
  }

  lemma AskKeeps(db: Database, user: UserId, action: Action, db': Database)
    requires Canonical(db.outbox) && Numbered(db) && Next(db, user, action) == Some(db')
    requires action.Import? || action.Issue? || action.Intend?
    ensures Keeps(db, user, action, db')
  {
    PlainKeeps(db, user, action, db');
  }

  // ----- the Welcome inbox -----

  /** Every stored Welcome is the user's own, under its cursor, and within the stored cursor. */
  ghost predicate Queued(db: Database, user: UserId) {
    forall c :: c in db.welcomes ==>
      && 1 <= c <= db.welcomeCursor && db.welcomes[c].record.cursor == c
      && db.welcomes[c].record.attachment.recipient == user
  }

  /** The stored cursor never goes back, no record is replaced, and what is new comes after it. */
  ghost predicate QueueMovesOn(db: Database, db': Database) {
    && db.welcomeCursor <= db'.welcomeCursor
    && (forall c :: c in db.welcomes ==> c in db'.welcomes && db'.welcomes[c].record == db.welcomes[c].record)
    && (forall c :: c in db'.welcomes && c !in db.welcomes ==> db.welcomeCursor < c)
  }

  lemma {:induction false} PageStored(
    welcomes: map<nat, WelcomeEntry>, user: UserId, page: seq<WelcomeDelivery>, after: nat,
    welcomes': map<nat, WelcomeEntry>)
    requires PageOrdered(user, page, after) && InsertPage(welcomes, page) == Some(welcomes') && page != []
    ensures after < page[|page| - 1].cursor
    ensures forall c :: c in welcomes ==> c in welcomes' && welcomes'[c] == welcomes[c]
    ensures forall c :: c in welcomes' && c !in welcomes ==>
              && after < c <= page[|page| - 1].cursor && welcomes'[c].record.cursor == c
              && welcomes'[c].record.attachment.recipient == user
    decreases |page|
  {
    var first := page[0];
    if |page| > 1 {
      PageStored(welcomes[first.cursor := WelcomeEntry(first, Pending)], user, page[1..], first.cursor, welcomes');
    } else {
      assert page[1..] == [];
    }
  }

  lemma StoreMovesOn(db: Database, user: UserId, page: seq<WelcomeDelivery>, db': Database)
    requires Queued(db, user) && StorePage(db, user, page) == Some(db')
    ensures Queued(db', user) && QueueMovesOn(db, db')
  {
    if page != [] { PageStored(db.welcomes, user, page, db.welcomeCursor, db'.welcomes); }
  }

  lemma ConflictQueue(db: Database, id: MessageId, operation: Append, db': Database)
    requires CompleteConflict(db, id, operation) == Some(db')
    ensures db'.welcomes == db.welcomes && db'.welcomeCursor == db.welcomeCursor
  {}

  lemma RefusalQueue(db: Database, id: MessageId, request: Request, db': Database)
    requires CompleteRefusal(db, id, request) == Some(db')
    ensures db'.welcomes == db.welcomes && db'.welcomeCursor == db.welcomeCursor
  {}

  lemma AnswerQueue(db: Database, user: UserId, id: MessageId, response: Response, db': Database)
    requires Next(db, user, Answer(id, response)) == Some(db')
    ensures db'.welcomes == db.welcomes && db'.welcomeCursor == db.welcomeCursor
  {
    var request := db.outbox[id].request;
    if response.AppendAccepted? {
      ReceiveIs(db, response.event, db');
    } else if response.HeadConflict? {
      ConflictQueue(db, id, request.operation, db');
    } else if response.Rejected? && !IsTransient(response) {
      RefusalQueue(db, id, request, db');
    }
  }

  lemma SendQueue(db: Database, user: UserId, room: RoomId, intent: Intent, id: MessageId, bytes: Ciphertext,
                  db': Database)
    requires BuildSend(db, user, room, intent, id, bytes) == Some(db')
    ensures db'.welcomes == db.welcomes && db'.welcomeCursor == db.welcomeCursor
  {}

  lemma AddQueue(db: Database, user: UserId, room: RoomId, intent: Intent, id: MessageId, bytes: Ciphertext,
                 db': Database)
    requires BuildAdd(db, user, room, intent, id, bytes) == Some(db')
    ensures db'.welcomes == db.welcomes && db'.welcomeCursor == db.welcomeCursor
  {}

  lemma BuildQueue(db: Database, user: UserId, room: RoomId, id: MessageId, bytes: Ciphertext, db': Database)
    requires Next(db, user, Build(room, id, bytes)) == Some(db')
    ensures db'.welcomes == db.welcomes && db'.welcomeCursor == db.welcomeCursor
  {
    var intent := db.intents[room];
    if intent.package.Some? {
      AddQueue(db, user, room, intent, id, bytes, BuildAdd(db, user, room, intent, id, bytes).value);
    } else if intent.target.None? {
      SendQueue(db, user, room, intent, id, bytes, BuildSend(db, user, room, intent, id, bytes).value);
    }
  }

  lemma OwnQueue(db: Database, user: UserId, event: Event, db': Database)
    requires ApplyOwn(db, user, event) == Some(db') && event.id in db.inbox
    ensures db'.welcomes == db.welcomes && db'.welcomeCursor == db.welcomeCursor
  {
    var applied := if event.operation.contentType == Commit then ApplyAcceptedCommit(db, event.operation.room).value
                   else db;
    AppliedFrame(db, event.operation.room, event.operation.contentType == Commit, applied);
    FinishIs(Claim(applied, event), user, event, Applied, db');
  }

  lemma OtherQueue(db: Database, user: UserId, event: Event, db': Database)
    requires ApplyOther(db, user, event) == Some(db') && event.id in db.inbox
    ensures db'.welcomes == db.welcomes && db'.welcomeCursor == db.welcomeCursor
  {
    match ProcessBound(db, user, event) {
      case Failure =>
      case FaultBlocked =>
      case FaultRejected => FinishIs(db, user, event, Refused, db');
      case Opened(db1, plaintext) =>
        OpenedGenuine(db, user, event, db1, plaintext);
        RememberFrame(db1, event, plaintext);
        FinishIs(Remember(db1, event, plaintext), user, event, Applied, db');
    }
  }

  lemma ProcessQueue(db: Database, user: UserId, cursor: nat, keyAvailable: bool, db': Database)
    requires Next(db, user, Process(cursor, keyAvailable)) == Some(db')
    ensures db'.welcomeCursor == db.welcomeCursor && db'.welcomes.Keys == db.welcomes.Keys
    ensures forall c :: c in db.welcomes ==> db'.welcomes[c].record == db.welcomes[c].record
  {
    ProcessCases(db, user, cursor, keyAvailable);
    if db' != MarkWelcome(db, cursor, Stuck) { JoinQueue(db, user, cursor, keyAvailable, db'); }
  }

  lemma JoinQueue(db: Database, user: UserId, cursor: nat, keyAvailable: bool, db': Database)
    requires cursor in db.welcomes
    requires JoinRoom(db, user, cursor, db.welcomes[cursor].record, keyAvailable) == Some(db')
    ensures db'.welcomeCursor == db.welcomeCursor
    ensures db'.welcomes == db.welcomes[cursor := db.welcomes[cursor].(state := Applied)]
  {}

  lemma StepQueue(db: Database, user: UserId, action: Action, db': Database)
    requires Queued(db, user) && Next(db, user, action) == Some(db')
    ensures Queued(db', user) && QueueMovesOn(db, db')
  {
    if action.Store? {
      StoreMovesOn(db, user, action.page, db');
    } else if action.Process? {
      ProcessQueue(db, user, action.cursor, action.keyAvailable, db');
    } else if action.Answer? {
      AnswerQueue(db, user, action.id, action.response, db');
    } else if action.Build? {
      BuildQueue(db, user, action.room, action.id, action.bytes, db');
    } else if action.Apply? {
      if action.event.sender == user {
        OwnQueue(db, user, action.event, db');
      } else {
        OtherQueue(db, user, action.event, db');
      }
    } else if action.Receive? {
      ReceiveIs(db, action.event, db');
    }
  }

  lemma {:induction false} RunQueue(client: Client, user: UserId, actions: seq<Action>)
    requires Queued(client.db, user)
    ensures Queued(RunClient(client, user, actions).db, user)
    ensures QueueMovesOn(client.db, RunClient(client, user, actions).db)
    decreases |actions|
  {
    if actions != [] {
      var next := Step(client, user, actions[0]);
      if Next(client.db, user, actions[0]).Some? { StepQueue(client.db, user, actions[0], next.db); }
      RunQueue(next, user, actions[1..]);
    }
  }

  /** The Welcome inbox, against any relay: it holds the user's own Welcomes, each under its cursor and
      none beyond the stored cursor; a record is never replaced or removed, the stored cursor never
      goes back, and whatever is stored later comes after it. */
  lemma WelcomesInOrder(user: UserId, actions: seq<Action>, more: seq<Action>)
    ensures var before, after := After(user, actions).db, After(user, actions + more).db;
            Queued(after, user) && QueueMovesOn(before, after)
  {
    RunQueue(Client(Fresh(user), map[]), user, actions);
    RunMore(Client(Fresh(user), map[]), user, actions, more);
    RunQueue(After(user, actions), user, more);
  }

  // ----- which answers count -----

  /** The answer is one to this request of this user. */
  predicate Matches(user: UserId, id: MessageId, request: Request, response: Response) {
    match response
    case RoomCreated(_) => request.CreateRoom?
    case KeyPackagesPublished(count) => request.PublishKeyPackages? && count == |request.packages|
    case FetchGrantSet => request.SetFetchGrant?
    case KeyPackage(recipient, package) =>
      request == ReserveKeyPackage(recipient) && package.content == KeyPackageMessage(recipient)
    case AppendAccepted(event) =>
      event.id == id && event.sender == user && request == AppendRoomOperation(event.operation)
    case HeadConflict(room, head) =>
      request.AppendRoomOperation? && request.operation.room == room && request.operation.parent != head
    case Acknowledged => request.Acknowledge?
    case Rejected(_) => true
    case _ => false
  }

  /** An answer that does not match its request has no effect at all. One that does takes the request
      out of the outbox, unless it may be asked again or its event has still to be applied; no
      other request leaves, and a transient refusal changes nothing. */
  lemma AnswerTaken(db: Database, user: UserId, id: MessageId, response: Response, db': Database)
    requires Next(db, user, Answer(id, response)) == Some(db')
    ensures id in db.outbox && Matches(user, id, db.outbox[id].request, response)
    ensures IsTransient(response) ==> db' == db
    ensures id in db'.outbox <==> IsTransient(response) || response.AppendAccepted?
    ensures forall other :: other in db.outbox && other != id ==>
              other in db'.outbox && db'.outbox[other] == db.outbox[other]
  {
    var request := db.outbox[id].request;
    if response.AppendAccepted? {
      ReceiveIs(db, response.event, db');
    } else if response.HeadConflict? {
      ConflictIsDrop(db, id, request.operation, db');
    } else if response.RoomCreated? {
      CreationRemoves(db, user, id, response.room);
    } else if response.Rejected? && !IsTransient(response) {
      RefusalIsDrop(db, id, request, db');
    } else if !IsTransient(response) {
      OtherRetires(db, user, id, response, db');
    }
  }

  lemma CreationRemoves(db: Database, user: UserId, id: MessageId, room: RoomId)
    ensures CompleteCreation(db, user, id, room).outbox == db.outbox - {id}
  {}

  // ----- every run -----

  ghost predicate AnsweredIn(actions: seq<Action>, id: MessageId) {
    exists i :: 0 <= i < |actions| && Answers(actions[i], id)
  }

  /** Every receipt that is due waits, or was answered. */
  ghost predicate Paid(db: Database, user: UserId, actions: seq<Action>) {
    forall id: MessageId :: Due(db, user, id) ==> id in db.outbox || AnsweredIn(actions, id)
  }

  lemma PaidMore(db: Database, user: UserId, actions: seq<Action>, action: Action, db': Database)
    requires Paid(db, user, actions) && Keeps(db, user, action, db')
    ensures Paid(db', user, actions + [action])
  {
    var more := actions + [action];
    forall id: MessageId | Due(db', user, id) ensures id in db'.outbox || AnsweredIn(more, id) {
      if Due(db, user, id) && id in db.outbox && id !in db'.outbox {
        assert Answers(more[|actions|], id);
      } else if Due(db, user, id) && AnsweredIn(actions, id) {
        var i :| 0 <= i < |actions| && Answers(actions[i], id);
        assert Answers(more[i], id);
      }
    }
  }

  lemma {:induction false} RunPays(user: UserId, actions: seq<Action>)
    ensures var db := After(user, actions).db;
            Canonical(db.outbox) && Numbered(db) && Paid(db, user, actions)
    decreases |actions|
  {
    if actions != [] {
      var before, action := actions[..|actions| - 1], actions[|actions| - 1];
      RunPays(user, before);
      assert actions == before + [action];
      LastStep(user, before, action);
      var client := After(user, before);
      ReachedDescends(user, before);
      match Next(client.db, user, action) {
        case None => PaidLonger(client.db, user, before, action);
        case Some(db') =>
          StepKeeps(client.db, user, client.starts, action, db');
          PaidMore(client.db, user, before, action, db');
      }
    }
  }

  lemma PaidLonger(db: Database, user: UserId, actions: seq<Action>, action: Action)
    requires Paid(db, user, actions)
    ensures Paid(db, user, actions + [action])
  {
    var more := actions + [action];
    forall id: MessageId | Due(db, user, id) && id !in db.outbox ensures AnsweredIn(more, id) {
      var i :| 0 <= i < |actions| && Answers(actions[i], id);
      assert Answers(more[i], id);
    }
  }

  lemma LastStep(user: UserId, actions: seq<Action>, action: Action)
    ensures After(user, actions + [action]) == Step(After(user, actions), user, action)
  {
    RunMore(Client(Fresh(user), map[]), user, actions, [action]);
    var client := After(user, actions);
    assert RunClient(client, user, [action]) == RunClient(Step(client, user, action), user, []);
  }

  /** Receipts are owed and kept: on every run, a settled event and a joined Welcome have their
      receipt in the outbox until it is answered for good; under a receipt's identifier there is
      nothing else; and no number stored is beyond 63 bits. */
  lemma ReceiptsOwed(user: UserId, actions: seq<Action>, id: MessageId, c: nat)
    ensures var db := After(user, actions).db;
            && (id in db.inbox && Settled(db.inbox[id].state) ==>
                  EventReceipt(user, id) in db.outbox || AnsweredIn(actions, EventReceipt(user, id)))
            && (c in db.welcomes && db.welcomes[c].state == Applied ==>
                  WelcomeReceipt(user, c) in db.outbox || AnsweredIn(actions, WelcomeReceipt(user, c)))
            && (id in db.outbox && id.Receipt? ==> db.outbox[id].request == Acknowledge(id.events, id.welcomes))
            && (id in db.inbox ==> db.inbox[id].event.operation.parent < I64_MAX)
            && (forall room :: room in db.cursors ==> db.cursors[room] <= I64_MAX)
  {
    RunPays(user, actions);
    var db := After(user, actions).db;
    if id in db.inbox && Settled(db.inbox[id].state) { assert Due(db, user, EventReceipt(user, id)); }
    if c in db.welcomes && db.welcomes[c].state == Applied { assert Due(db, user, WelcomeReceipt(user, c)); }
  }

  /** On every run, somebody else's event that is due is applied exactly if it fits the group, waits
      exactly if it has to, and is refused otherwise; the cursor moves unless it waits. */
  lemma EventVerdict(user: UserId, actions: seq<Action>, event: Event)
    ensures var db := After(user, actions).db;
            var room := event.operation.room;
            event.sender != user && event.id in db.inbox && db.inbox[event.id].event == event
            && !Unresolved(db, room) && HasGroup(db, room) && Cursor(db, room) == event.operation.parent ==>
              var next := Next(db, user, Apply(event));
              && next.Some? && event.id in next.value.inbox
              && (if HasToWait(db, user, db.groups[room].group, event) then
                    next.value.inbox[event.id].state == Stuck && Cursor(next.value, room) == event.operation.parent
                  else
                    && next.value.inbox[event.id].state
                       == (if FitsGroup(db, db.groups[room].group, event) then Applied else Refused)
                    && Cursor(next.value, room) == event.operation.parent + 1)
  {
    RunPays(user, actions);
    var db := After(user, actions).db;
    if event.sender != user && event.id in db.inbox && db.inbox[event.id].event == event
       && !Unresolved(db, event.operation.room) && HasGroup(db, event.operation.room)
       && Cursor(db, event.operation.room) == event.operation.parent
    {
      ApplyVerdict(db, user, event);
    }
  }
}
