/** What a client shows as history, and that all members show the same. */
module Histories {
  import opened Records
  import opened RelaySpec
  import opened RelayInvariants
  import opened Replay
  import opened ClientSpec
  import opened ClientInvariants
  import opened ClientTheorems
  import opened LogFacts
  import opened World
  import opened Sync
  import opened SyncSteps
  import opened SyncApply
  import opened SyncBuild
  import opened WorldInvariant

  predicate IsMessage(operation: Append) {
    operation.contentType == Application && operation.body.content.ApplicationMessage?
  }

  /** The history row of a message. */
  function RowOf(event: Event): HistoryRow
    requires IsMessage(event.operation)
  {
    HistoryRow(event.operation.room, event.operation.parent + 1, event.sender, event.operation.body.content.plaintext)
  }

  /** A message that was applied from the log. */
  ghost predicate Shown(inbox: map<MessageId, InboxRow>, id: MessageId) {
    id in inbox && Settled(inbox[id].state) && IsMessage(inbox[id].event.operation)
  }

  /** An own message that is still on its way. */
  predicate Underway(outbox: map<MessageId, OutboxRow>, id: MessageId) {
    id in outbox && outbox[id].request.AppendRoomOperation? && IsMessage(outbox[id].request.operation)
  }

  /** An own message that the relay refused for good. */
  ghost predicate Dropped(t: Tables, user: UserId, id: MessageId) {
    && Lookup(t.journal, user, id).Some?
    && var row := Lookup(t.journal, user, id).value;
       row.request.AppendRoomOperation? && IsMessage(row.request.operation) && row.response.Rejected?
  }

  ghost predicate RowTrue(
    t: Tables, user: UserId, inbox: map<MessageId, InboxRow>, outbox: map<MessageId, OutboxRow>,
    history: map<MessageId, HistoryRow>, id: MessageId)
  {
    && (id in history <==> Shown(inbox, id) || Underway(outbox, id) || Dropped(t, user, id))
    && (Shown(inbox, id) ==> history[id] == RowOf(inbox[id].event))
    && (Underway(outbox, id) ==> history[id] == RowOf(Event(id, user, outbox[id].request.operation)))
    && (Dropped(t, user, id) ==>
          history[id] == RowOf(Event(id, user, Lookup(t.journal, user, id).value.request.operation)))
  }

  /** The history has exactly the applied messages, the own ones on their way and the own
      ones refused for good, each with its room, place, author and text. */
  ghost predicate HistoryTrue(
    t: Tables, user: UserId, inbox: map<MessageId, InboxRow>, outbox: map<MessageId, OutboxRow>,
    history: map<MessageId, HistoryRow>)
  {
    forall id: MessageId :: RowTrue(t, user, inbox, outbox, history, id)
  }

  ghost predicate DatabaseTrue(t: Tables, user: UserId, db: Database) {
    HistoryTrue(t, user, db.inbox, db.outbox, db.history)
  }

  // ----- steps that leave the history alone -----

  ghost predicate SameShown(inbox: map<MessageId, InboxRow>, inbox': map<MessageId, InboxRow>) {
    forall id :: (Shown(inbox, id) <==> Shown(inbox', id)) && (Shown(inbox, id) ==> inbox'[id].event == inbox[id].event)
  }

  lemma HistoryFramed(t: Tables, user: UserId, db: Database, db': Database)
    requires DatabaseTrue(t, user, db) && db'.history == db.history
    requires SameAppends(db.outbox, db'.outbox) && SameShown(db.inbox, db'.inbox)
    ensures DatabaseTrue(t, user, db')
  {
    forall id: MessageId ensures RowTrue(t, user, db'.inbox, db'.outbox, db'.history, id) {
      assert RowTrue(t, user, db.inbox, db.outbox, db.history, id);
    }
  }

  lemma ReceivedShown(db: Database, event: Event, db': Database)
    requires ReceiveEvent(db, event) == Some(db')
    ensures db'.history == db.history && db'.outbox == db.outbox && SameShown(db.inbox, db'.inbox)
  {
    if event.id !in db.inbox {
      ArrivedShown(db.inbox, event);
    }
  }

  lemma ArrivedShown(inbox: map<MessageId, InboxRow>, event: Event)
    requires event.id !in inbox
    ensures SameShown(inbox, inbox[event.id := InboxRow(event, Pending)])
  {}

  // ----- building -----

  lemma BuiltHistory(
    t: Tables, user: UserId, db: Database, room: RoomId, id: MessageId, operation: Append, db': Database)
    requires DatabaseTrue(t, user, db) && Builds(db, db', user, room, id, operation) && id !in db.outbox
    requires id !in db.history
    requires db'.history == (if IsMessage(operation) then db.history[id := RowOf(Event(id, user, operation))]
                             else db.history)
    ensures DatabaseTrue(t, user, db')
  {
    forall other: MessageId ensures RowTrue(t, user, db'.inbox, db'.outbox, db'.history, other) {
      assert RowTrue(t, user, db.inbox, db.outbox, db.history, other);
    }
  }

  /** A message is recorded as soon as it is built. */
  /** A message that is built gets a row in the history, and nothing else does. */
  predicate BuildsRow(db: Database, user: UserId, id: MessageId, db': Database) {
    && id in db'.outbox
    && db'.history == if Underway(db'.outbox, id)
                      then db.history[id := RowOf(Event(id, user, db'.outbox[id].request.operation))]
                      else db.history
  }

  lemma BuildRecords(
    t: Tables, db: Database, user: UserId, room: RoomId, id: MessageId, bytes: Ciphertext, db': Database)
    requires room in db.intents && room in db.groups && id !in db.outbox && user in db.groups[room].group.roster
    requires PackagesTrue(db.intents) && BuildAttempt(db, user, room, id, bytes) == Some(db') && id !in db.history
    ensures BuildsRow(db, user, id, db')
  {
    var intent := db.intents[room];
    if intent.package.Some? {
      AddBuilds(db, user, room, id, bytes, BuildAdd(db, user, room, intent, id, bytes).value, db');
    } else if intent.target.None? {
      SendBuilds(db, user, room, id, bytes, BuildSend(db, user, room, intent, id, bytes).value, db');
    }
  }

  lemma ReserveHistory(t: Tables, user: UserId, db: Database, id: MessageId, db': Database)
    requires DatabaseTrue(t, user, db) && db'.history == db.history && db'.inbox == db.inbox
    requires id !in db.outbox && id in db'.outbox && !db'.outbox[id].request.AppendRoomOperation?
    requires db'.outbox == db.outbox[id := db'.outbox[id]]
    ensures DatabaseTrue(t, user, db')
  {
    HistoryFramed(t, user, db, db');
  }

  lemma BuildHistory(
    t: Tables, user: UserId, db: Database, room: RoomId, id: MessageId, db': Database)
    requires DatabaseTrue(t, user, db) && Unseen(db, id) && BuildEffect(db, user, room, id, db')
    requires BuildsRow(db, user, id, db')
    ensures DatabaseTrue(t, user, db')
  {
    if db'.outbox[id].request.AppendRoomOperation? {
      BuiltHistory(t, user, db, room, id, db'.outbox[id].request.operation, db');
    } else {
      ReserveHistory(t, user, db, id, db');
    }
  }

  // ----- answers -----

  /** An append that is not accepted was never shown. */
  lemma NeverShown(
    t: Tables, issued: map<MessageId, Message>, user: UserId, starts: Starts, db: Database, id: MessageId,
                   response: Response)
    requires Trusted(t, issued, user, db.outbox) && InboxOk(db, starts) && InboxTrue(t, db.inbox) && id in db.outbox
    requires Journaled(t, JournalRow(user, id, db.outbox[id].request, response)) && !response.AppendAccepted?
    ensures id !in db.inbox
  {
    if id in db.inbox {
      NotInLog(t, user, id, db.outbox[id].request, response);
      OwnEvent(t, issued, user, db.outbox, db.inbox[id].event);
      assert false;
    }
  }

  lemma ConflictHistory(t: Tables, user: UserId, db: Database, id: MessageId, request: Request, room: RoomId, head: nat,
                        db': Database)
    requires DatabaseTrue(t, user, db) && id !in db.inbox
    requires Journaled(t, JournalRow(user, id, request, HeadConflict(room, head)))
    requires db'.inbox == db.inbox && db'.outbox == db.outbox - {id} && db'.history == db.history - {id}
    ensures DatabaseTrue(t, user, db')
  {
    forall other: MessageId ensures RowTrue(t, user, db'.inbox, db'.outbox, db'.history, other) {
      assert RowTrue(t, user, db.inbox, db.outbox, db.history, other);
    }
  }

  /** A refused message keeps its row. */
  lemma RefusalHistory(t: Tables, user: UserId, db: Database, id: MessageId, operation: Append, reason: Rejection,
                       db': Database)
    requires DatabaseTrue(t, user, db) && id in db.outbox && db.outbox[id].request == AppendRoomOperation(operation)
    requires Journaled(t, JournalRow(user, id, AppendRoomOperation(operation), Rejected(reason)))
    requires db'.inbox == db.inbox && db'.outbox == db.outbox - {id} && db'.history == db.history
    ensures DatabaseTrue(t, user, db')
  {
    forall other: MessageId ensures RowTrue(t, user, db'.inbox, db'.outbox, db'.history, other) {
      assert RowTrue(t, user, db.inbox, db.outbox, db.history, other);
    }
  }

  lemma ConflictIs(db: Database, id: MessageId, operation: Append, db': Database)
    requires CompleteConflict(db, id, operation) == Some(db')
    ensures db'.inbox == db.inbox && db'.outbox == db.outbox - {id} && db'.history == db.history - {id}
  {}

  lemma RefusalIs(db: Database, id: MessageId, request: Request, db': Database)
    requires CompleteRefusal(db, id, request) == Some(db')
    ensures db'.inbox == db.inbox && db'.outbox == db.outbox - {id} && db'.history == db.history
  {}

  lemma OtherAnswerIs(db: Database, user: UserId, id: MessageId, request: Request, response: Response, db': Database)
    requires !request.AppendRoomOperation? && Complete(db, user, id, request, response) == Some(db')
    ensures db'.inbox == db.inbox && db'.history == db.history
            && (db'.outbox == db.outbox || db'.outbox == db.outbox - {id})
  {
    if response.Rejected? && !IsTransient(response) {
      RefusalIs(db, id, request, db');
    }
  }

  lemma AppendAnswerHistory(
    t: Tables, issued: map<MessageId, Message>, user: UserId, starts: Starts, db: Database, id: MessageId,
    operation: Append, response: Response, db': Database)
    requires Trusted(t, issued, user, db.outbox) && InboxOk(db, starts) && InboxTrue(t, db.inbox)
    requires DatabaseTrue(t, user, db) && id in db.outbox && db.outbox[id].request == AppendRoomOperation(operation)
    requires Journaled(t, JournalRow(user, id, AppendRoomOperation(operation), response)) && !IsTransient(response)
    requires Complete(db, user, id, AppendRoomOperation(operation), response) == Some(db')
    ensures DatabaseTrue(t, user, db')
  {
    if response.AppendAccepted? {
      ReceivedShown(db, response.event, db');
      HistoryFramed(t, user, db, db');
    } else if response.HeadConflict? {
      NeverShown(t, issued, user, starts, db, id, response);
      ConflictIs(db, id, operation, db');
      ConflictHistory(t, user, db, id, AppendRoomOperation(operation), response.room, response.head, db');
    } else {
      RefusalIs(db, id, AppendRoomOperation(operation), db');
      RefusalHistory(t, user, db, id, operation, response.reason, db');
    }
  }

  lemma AnswerHistory(
    t: Tables, issued: map<MessageId, Message>, user: UserId, starts: Starts, db: Database, id: MessageId,
    request: Request, response: Response, db': Database)
    requires Trusted(t, issued, user, db.outbox) && InboxOk(db, starts) && InboxTrue(t, db.inbox)
    requires DatabaseTrue(t, user, db) && id in db.outbox && db.outbox[id].request == request && IsDurable(request)
    requires AnswerTrue(t, Message(user, id, request), response)
    requires Complete(db, user, id, request, response) == Some(db')
    ensures DatabaseTrue(t, user, db')
  {
    if IsTransient(response) {
      assert db' == db;
    } else if request.AppendRoomOperation? {
      AppendAnswerHistory(t, issued, user, starts, db, id, request.operation, response, db');
    } else {
      OtherAnswerIs(db, user, id, request, response, db');
      HistoryFramed(t, user, db, db');
    }
  }

  // ----- applying -----

  /** The event is settled; a message gets its row, if it has none. */
  lemma SettledHistory(
    t: Tables, user: UserId, db: Database, event: Event, outbox': map<MessageId, OutboxRow>,
    history': map<MessageId, HistoryRow>)
    requires DatabaseTrue(t, user, db) && event.id in db.inbox && db.inbox[event.id].event == event
    requires forall id :: id != event.id ==> (Underway(outbox', id) <==> Underway(db.outbox, id))
    requires forall id :: id != event.id && Underway(db.outbox, id) ==>
               id in outbox' && outbox'[id].request == db.outbox[id].request
    requires !Underway(outbox', event.id) && !Dropped(t, user, event.id)
    requires forall id :: id != event.id ==> (id in history' <==> id in db.history)
    requires forall id :: id != event.id && id in db.history ==> history'[id] == db.history[id]
    requires event.id in history' <==> IsMessage(event.operation)
    requires IsMessage(event.operation) ==> history'[event.id] == RowOf(event)
    ensures HistoryTrue(t, user, MarkRow(db.inbox, event.id, Applied), outbox', history')
  {
    var inbox' := MarkRow(db.inbox, event.id, Applied);
    forall id: MessageId ensures RowTrue(t, user, inbox', outbox', history', id) {
      assert RowTrue(t, user, db.inbox, db.outbox, db.history, id);
    }
  }

  lemma ReceiptHistory(
    t: Tables, user: UserId, inbox: map<MessageId, InboxRow>, outbox: map<MessageId, OutboxRow>,
    outbox': map<MessageId, OutboxRow>, history: map<MessageId, HistoryRow>)
    requires HistoryTrue(t, user, inbox, outbox, history) && SameAppends(outbox, outbox')
    ensures HistoryTrue(t, user, inbox, outbox', history)
  {
    forall id: MessageId ensures RowTrue(t, user, inbox, outbox', history, id) {
      assert RowTrue(t, user, inbox, outbox, history, id);
    }
  }

  lemma NotDropped(t: Tables, issued: map<MessageId, Message>, user: UserId, event: Event)
    requires JournalOk(t.journal) && AcceptedOk(t) && JournalIssued(issued, t.journal) && InLog(t, event)
    ensures !Dropped(t, user, event.id)
  {
    LogJournaled(t, event);
    LookupFinds(t.journal, user, event.id);
    LookupFinds(t.journal, event.sender, event.id);
    if Lookup(t.journal, user, event.id).Some? {
      var row := Lookup(t.journal, user, event.id).value;
      SameRequest(issued, Message(row.user, row.id, row.request),
                  Message(event.sender, event.id, AppendRoomOperation(event.operation)));
    }
  }

  lemma ClaimedHistory(t: Tables, user: UserId, db: Database, event: Event)
    requires DatabaseTrue(t, user, db) && event.sender == user && Waiting(db.outbox, event)
    requires event.id in db.inbox && db.inbox[event.id].event == event && !Settled(db.inbox[event.id].state)
    requires !Dropped(t, user, event.id)
    ensures HistoryTrue(t, user, MarkRow(db.inbox, event.id, Applied), db.outbox - {event.id},
                        SetSequence(db.history, event.id, event.operation.parent + 1))
  {
    assert RowTrue(t, user, db.inbox, db.outbox, db.history, event.id);
    SettledHistory(t, user, db, event, db.outbox - {event.id},
                   SetSequence(db.history, event.id, event.operation.parent + 1));
  }

  lemma ApplyOwnHistory(
    t: Tables, issued: map<MessageId, Message>, user: UserId, db: Database, event: Event, db': Database)
    requires JournalOk(t.journal) && AcceptedOk(t) && JournalIssued(issued, t.journal) && InLog(t, event)
    requires DatabaseTrue(t, user, db) && event.operation.room in db.groups && event.sender == user
    requires event.id in db.inbox && db.inbox[event.id].event == event && !Settled(db.inbox[event.id].state)
    requires ApplyOwn(db, user, event) == Some(db')
    ensures DatabaseTrue(t, user, db')
  {
    NotDropped(t, issued, user, event);
    ApplyOwnRecords(db, user, event, db');
    ClaimedHistory(t, user, db, event);
    ReceiptHistory(t, user, db'.inbox, db.outbox - {event.id}, db'.outbox, db'.history);
  }

  lemma ApplyOwnRecords(db: Database, user: UserId, event: Event, db': Database)
    requires ApplyOwn(db, user, event) == Some(db') && event.operation.room in db.groups
    ensures Waiting(db.outbox, event) && SameAppends(db.outbox - {event.id}, db'.outbox)
    ensures db'.inbox == MarkRow(db.inbox, event.id, Applied)
    ensures db'.history == SetSequence(db.history, event.id, event.operation.parent + 1)
  {
    ApplyOwnIs(db, user, event, db');
    var state := db.groups[event.operation.room];
    var state' := if event.operation.contentType != Commit then state
                  else GroupState(state.pending.value, None, state.ratchet);
    FinishIs(Claim(WithGroup(db, event.operation.room, state'), event), user, event, Applied, db');
  }

  lemma OpenedHistory(
    t: Tables, issued: map<MessageId, Message>, user: UserId, db: Database, event: Event, db1: Database,
    plaintext: Option<seq<byte>>, db': Database)
    requires Trusted(t, issued, user, db.outbox) && InLog(t, event) && DatabaseTrue(t, user, db) && event.sender != user
    requires event.id in db.inbox && db.inbox[event.id].event == event && !Settled(db.inbox[event.id].state)
    requires OpensTo(db, event, db1, plaintext)
    requires FinishEvent(Remember(db1, event, plaintext), user, event, Applied) == Some(db')
    ensures DatabaseTrue(t, user, db')
  {
    var db2 := Remember(db1, event, plaintext);
    FinishIs(db2, user, event, Applied, db');
    NotDropped(t, issued, user, event);
    if event.id in db.outbox { OwnEvent(t, issued, user, db.outbox, event); }
    assert RowTrue(t, user, db.inbox, db.outbox, db.history, event.id);
    assert IsMessage(event.operation) <==> event.operation.contentType == Application;
    SettledHistory(t, user, db, event, db2.outbox, db2.history);
    ReceiptHistory(t, user, db'.inbox, db2.outbox, db'.outbox, db'.history);
  }

  lemma StuckShown(inbox: map<MessageId, InboxRow>, id: MessageId)
    requires id in inbox && !Settled(inbox[id].state)
    ensures SameShown(inbox, MarkRow(inbox, id, Stuck))
  {}

  lemma ApplyOtherHistory(
    t: Tables, issued: map<MessageId, Message>, user: UserId, db: Database, event: Event, db': Database)
    requires Trusted(t, issued, user, db.outbox) && InLog(t, event) && DatabaseTrue(t, user, db) && event.sender != user
    requires GroupsTrue(t, user, db.cursors, db.groups) && HasGroup(db, event.operation.room)
    requires event.operation.room in db.cursors && db.cursors[event.operation.room] == event.operation.parent
    requires event.id in db.inbox && db.inbox[event.id].event == event && !Settled(db.inbox[event.id].state)
    requires ApplyOther(db, user, event) == Some(db')
    ensures DatabaseTrue(t, user, db')
  {
    HonestOpens(t, user, db, event);
    match ProcessBound(db, user, event) {
      case FaultBlocked =>
        StuckShown(db.inbox, event.id);
        HistoryFramed(t, user, db, db');
      case Opened(db1, plaintext) => OpenedHistory(t, issued, user, db, event, db1, plaintext, db');
    }
  }

  lemma ApplyHistory(
    t: Tables, issued: map<MessageId, Message>, user: UserId, starts: Starts, db: Database, event: Event, db': Database)
    requires Trusted(t, issued, user, db.outbox) && ClientOk(db, starts) && Synced(t, user, db)
    requires DatabaseTrue(t, user, db) && Next(db, user, Apply(event)) == Some(db')
    ensures DatabaseTrue(t, user, db')
  {
    assert InLog(t, db.inbox[event.id].event);
    assert RowPlaced(db, starts, db.inbox[event.id]);
    if event.sender == user {
      ApplyOwnHistory(t, issued, user, db, event, db');
    } else {
      ApplyOtherHistory(t, issued, user, db, event, db');
    }
  }

  // ----- every step -----

  lemma ProcessIs(db: Database, user: UserId, cursor: nat, keyAvailable: bool, db': Database)
    requires cursor in db.welcomes
    requires db' == MarkWelcome(db, cursor, Stuck)
             || JoinRoom(db, user, cursor, db.welcomes[cursor].record, keyAvailable) == Some(db')
    ensures db'.history == db.history && db'.inbox == db.inbox && SameAppends(db.outbox, db'.outbox)
  {
    if db' != MarkWelcome(db, cursor, Stuck) {
      var welcome := db.welcomes[cursor].record;
      JoinIs(db, user, cursor, welcome, keyAvailable, welcome.attachment.body.content.group, db');
    }
  }

  lemma BuildStepHistory(
    t: Tables, user: UserId, starts: Starts, db: Database, room: RoomId, id: MessageId, bytes: Ciphertext,
    db': Database)
    requires ClientOk(db, starts) && Synced(t, user, db) && DatabaseTrue(t, user, db)
    requires Next(db, user, Build(room, id, bytes)) == Some(db')
    ensures DatabaseTrue(t, user, db')
  {
    BuildFacts(t, user, starts, db, room, id, bytes, db');
    BuildHistory(t, user, db, room, id, db');
  }

  /** What building does to the outbox and the history. */
  lemma BuildFacts(
    t: Tables, user: UserId, starts: Starts, db: Database, room: RoomId, id: MessageId, bytes: Ciphertext,
    db': Database)
    requires CursorsOk(db, starts) && GroupsTrue(t, user, db.cursors, db.groups) && PackagesTrue(db.intents)
    requires Next(db, user, Build(room, id, bytes)) == Some(db')
    ensures BuildEffect(db, user, room, id, db') && BuildsRow(db, user, id, db') && Unseen(db, id)
  {
    BuildAttemptEffect(db, user, room, id, bytes, db');
    BuildRecords(t, db, user, room, id, bytes, db');
  }

  lemma OtherStepHistory(t: Tables, user: UserId, db: Database, action: Action, db': Database)
    requires DatabaseTrue(t, user, db)
    requires action.Import? || action.Issue? || action.Intend? || action.Store?
    requires Next(db, user, action) == Some(db')
    ensures DatabaseTrue(t, user, db')
  {
    OtherStepIs(user, db, action, db');
    HistoryFramed(t, user, db, db');
  }

  lemma OtherStepIs(user: UserId, db: Database, action: Action, db': Database)
    requires action.Import? || action.Issue? || action.Intend? || action.Store?
    requires Next(db, user, action) == Some(db')
    ensures db'.history == db.history && db'.inbox == db.inbox && SameAppends(db.outbox, db'.outbox)
  {}

  lemma ReceiveHistory(t: Tables, user: UserId, db: Database, event: Event, db': Database)
    requires DatabaseTrue(t, user, db) && ReceiveEvent(db, event) == Some(db')
    ensures DatabaseTrue(t, user, db')
  {
    ReceivedShown(db, event, db');
    HistoryFramed(t, user, db, db');
  }

  lemma ProcessHistory(t: Tables, user: UserId, db: Database, cursor: nat, keyAvailable: bool, db': Database)
    requires DatabaseTrue(t, user, db) && Next(db, user, Process(cursor, keyAvailable)) == Some(db')
    ensures DatabaseTrue(t, user, db')
  {
    ProcessCases(db, user, cursor, keyAvailable);
    ProcessIs(db, user, cursor, keyAvailable, db');
    HistoryFramed(t, user, db, db');
  }

  lemma StepHistory(w: World, user: UserId, starts: Starts, db: Database, action: Action, db': Database)
    requires Trusted(w.relay, w.issued, user, db.outbox) && AnswersTrue(w.relay, w.answers)
    requires ClientOk(db, starts) && Synced(w.relay, user, db) && OutboxDurable(db.outbox)
    requires DatabaseTrue(w.relay, user, db)
    requires Justified(w, user, db, action) && Next(db, user, action) == Some(db')
    ensures DatabaseTrue(w.relay, user, db')
  {
    var t := w.relay;
    match action {
      case Build(room, id, bytes) => BuildStepHistory(t, user, starts, db, room, id, bytes, db');
      case Answer(id, response) =>
        assert AnswerTrue(t, Message(user, id, db.outbox[id].request), response);
        AnswerHistory(t, w.issued, user, starts, db, id, db.outbox[id].request, response, db');
      case Receive(event) => ReceiveHistory(t, user, db, event, db');
      case Apply(event) => ApplyHistory(t, w.issued, user, starts, db, event, db');
      case Process(cursor, keyAvailable) => ProcessHistory(t, user, db, cursor, keyAvailable, db');
      case _ => OtherStepHistory(t, user, db, action, db');
    }
  }

  // ----- every move -----

  ghost predicate HistoriesTrue(w: World) {
    forall user :: user in w.clients ==> DatabaseTrue(w.relay, user, w.clients[user].db)
  }

  lemma ActHistories(w: World, limits: Limits, user: UserId, action: Action, db': Database)
    requires Good(w, limits) && HistoriesTrue(w) && user in w.clients
    requires Justified(w, user, w.clients[user].db, action) && Next(w.clients[user].db, user, action) == Some(db')
    ensures HistoriesTrue(Acted(w, user, action, db'))
  {
    assert ClientGood(w.relay, w.issued, user, w.clients[user]);
    StepHistory(w, user, w.clients[user].starts, w.clients[user].db, action, db');
  }

  /** A refusal reaches the journal while the message is still in the outbox. */
  lemma NewlyDropped(w: World, limits: Limits, t': Tables, call: Call, reply: Response, user: UserId, id: MessageId)
    requires Good(w, limits) && Issued(w.issued, Message(call.user, call.id, call.request))
    requires Effect(w.relay, t', limits, call, reply) && user in w.clients
    requires Dropped(t', user, id)
    ensures Dropped(w.relay, user, id) || Underway(w.clients[user].db.outbox, id)
    ensures Lookup(w.relay.journal, user, id).Some? ==>
              Lookup(t'.journal, user, id) == Lookup(w.relay.journal, user, id)
    ensures Underway(w.clients[user].db.outbox, id) ==>
              w.clients[user].db.outbox[id].request == Lookup(t'.journal, user, id).value.request
  {
    var outbox := w.clients[user].db.outbox;
    if t' != w.relay {
      LookupAppend(w.relay.journal, JournalRow(call.user, call.id, call.request, reply), user, id);
      if Lookup(w.relay.journal, user, id).None? {
        assert InFlight(w, w.issued[id]);
      }
    }
    assert ClientGood(w.relay, w.issued, user, w.clients[user]);
    if id in outbox {
      var row := Lookup(t'.journal, user, id).value;
      LookupFinds(w.relay.journal, user, id);
      SameRequest(w.issued, Message(user, id, outbox[id].request), Message(row.user, row.id, row.request));
    }
  }

  lemma DroppedStays(t: Tables, t': Tables, user: UserId, id: MessageId)
    requires t.journal <= t'.journal && JournalOk(t'.journal) && Dropped(t, user, id)
    ensures Dropped(t', user, id) && Lookup(t'.journal, user, id) == Lookup(t.journal, user, id)
  {
    LookupStays(t.journal, t'.journal, user, id);
  }

  lemma ServeHistory(w: World, limits: Limits, t': Tables, call: Call, reply: Response, user: UserId)
    requires Good(w, limits) && Issued(w.issued, Message(call.user, call.id, call.request))
    requires Effect(w.relay, t', limits, call, reply) && JournalOk(t'.journal)
    requires user in w.clients && DatabaseTrue(w.relay, user, w.clients[user].db)
    ensures DatabaseTrue(t', user, w.clients[user].db)
  {
    var db := w.clients[user].db;
    forall id: MessageId ensures RowTrue(t', user, db.inbox, db.outbox, db.history, id) {
      assert RowTrue(w.relay, user, db.inbox, db.outbox, db.history, id);
      if Dropped(w.relay, user, id) {
        DroppedStays(w.relay, t', user, id);
      } else if Dropped(t', user, id) {
        NewlyDropped(w, limits, t', call, reply, user, id);
      }
    }
  }

  lemma ServeHistories(w: World, limits: Limits, message: Message, env: Environment)
    requires Good(w, limits) && HistoriesTrue(w) && message in w.sent
    ensures HistoriesTrue(Served(w, limits, message, env))
  {
    var call := Call(message.user, message.id, message.request, env);
    var t', reply := After(w.relay, limits, call), Reply(w.relay, limits, call);
    DeliverEffect(w.relay, limits, call);
    JournalKept(w.relay, t', limits, call, reply);
    forall user | user in w.clients ensures DatabaseTrue(t', user, w.clients[user].db) {
      ServeHistory(w, limits, t', call, reply, user);
    }
  }

  lemma MoveHistories(w: World, limits: Limits, move: Move)
    requires Good(w, limits) && HistoriesTrue(w)
    ensures HistoriesTrue(Moved(w, limits, move))
  {
    if Enabled(w, move) {
      match move {
        case Act(user, action) => ActHistories(w, limits, user, action, Next(w.clients[user].db, user, action).value);
        case Serve(message, env) => ServeHistories(w, limits, message, env);
        case _ =>
      }
    }
  }

  lemma {:induction false} RunHistories(w: World, limits: Limits, moves: seq<Move>)
    requires Good(w, limits) && HistoriesTrue(w)
    ensures Good(RunWorld(w, limits, moves), limits) && HistoriesTrue(RunWorld(w, limits, moves))
    decreases |moves|
  {
    if moves != [] {
      MoveGood(w, limits, moves[0]);
      MoveHistories(w, limits, moves[0]);
      RunHistories(Moved(w, limits, moves[0]), limits, moves[1..]);
    }
  }
}
