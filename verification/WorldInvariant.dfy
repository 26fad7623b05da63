/** Every run of honest clients and the relay keeps every client in step with the logs. */
module WorldInvariant {
  import opened Records
  import opened RelaySpec
  import opened RelayInvariants
  import opened Replay
  import opened ClientSpec
  import opened ClientInvariants
  import opened ClientTheorems
  import opened Honest
  import opened LogFacts
  import opened World
  import opened Sync
  import opened SyncGrowth
  import opened SyncSteps
  import opened SyncApply
  import opened SyncBuild

  predicate OutboxDurable(outbox: map<MessageId, OutboxRow>) {
    forall id :: id in outbox ==> IsDurable(outbox[id].request)
  }

  ghost predicate RelayGood(t: Tables, limits: Limits, issued: map<MessageId, Message>) {
    RelayOk(t, limits) && HonestLogs(t) && ResultsTrue(t) && JournalIssued(issued, t.journal)
  }

  ghost predicate ClientGood(t: Tables, issued: map<MessageId, Message>, user: UserId, client: Client) {
    && Disciplined(client.db, user, client.starts) && Synced(t, user, client.db)
    && OutboxIssued(issued, user, client.db.outbox) && OutboxDurable(client.db.outbox)
  }

  ghost predicate ClientsGood(t: Tables, issued: map<MessageId, Message>, clients: map<UserId, Client>) {
    forall user :: user in clients ==> ClientGood(t, issued, user, clients[user])
  }

  ghost predicate SentIssued(issued: map<MessageId, Message>, sent: set<Message>) {
    forall message :: message in sent ==> Issued(issued, message)
  }

  ghost predicate Good(w: World, limits: Limits) {
    && RelayGood(w.relay, limits, w.issued)
    && ClientsGood(w.relay, w.issued, w.clients)
    && SentIssued(w.issued, w.sent)
    && AnswersTrue(w.relay, w.answers)
    && AppendsInFlight(w)
  }

  // ----- the relay serves a request -----

  /** A result that is not transient is in the journal afterwards. */
  lemma ReplyRecorded(t: Tables, limits: Limits, call: Call)
    requires SubscribedRoomsExist(t)
    requires IsDurable(call.request) && !call.request.Acknowledge? && Lookup(t.journal, call.user, call.id).None?
    requires !IsTransient(Reply(t, limits, call))
    ensures After(t, limits, call).journal
            == t.journal + [JournalRow(call.user, call.id, call.request, Reply(t, limits, call))]
  {
    ExecuteEffect(t, call);
  }

  lemma ReplyOfRead(t: Tables, limits: Limits, call: Call)
    requires Lookup(t.journal, call.user, call.id).None?
    ensures var reply := Reply(t, limits, call);
            && (reply.RoomEvents? ==>
                  call.request.FetchRoomEvents? && After(t, limits, call) == t
                  && reply == ExecuteFetch(t, call.user, call.request.room, call.request.afterSequence).response)
            && (reply.Welcomes? ==>
                  call.request.FetchWelcomes? && After(t, limits, call) == t
                  && reply == ExecuteWelcomes(t, call.user, call.request.afterCursor).response)
  {
    if IsDurable(call.request) {
      DurableAnswers(t, call);
    }
  }

  /** Only reads are answered with pages. */
  lemma DurableAnswers(t: Tables, call: Call)
    requires IsDurable(call.request)
    ensures var done := Execute(t, call.user, call.id, call.request, call.env);
            done.Done? ==> !done.response.RoomEvents? && !done.response.Welcomes?
  {}

  lemma SavedReplyTrue(t: Tables, limits: Limits, issued: map<MessageId, Message>, message: Message, env: Environment)
    requires RelayGood(t, limits, issued) && Issued(issued, message)
    requires Lookup(t.journal, message.user, message.id).Some?
    ensures var call := Call(message.user, message.id, message.request, env);
            After(t, limits, call) == t && AnswerTrue(t, message, Reply(t, limits, call))
  {
    var call := Call(message.user, message.id, message.request, env);
    var row := Lookup(t.journal, message.user, message.id).value;
    LookupFinds(t.journal, message.user, message.id);
    SameRequest(issued, message, Message(row.user, row.id, row.request));
    SavedAnswer(t, limits, call);
    assert ResultTrue(t, row);
  }

  lemma NewReplyTrue(t: Tables, limits: Limits, message: Message, env: Environment)
    requires RelayOk(t, limits) && Lookup(t.journal, message.user, message.id).None?
    ensures var call := Call(message.user, message.id, message.request, env);
            AnswerTrue(After(t, limits, call), message, Reply(t, limits, call))
  {
    var call := Call(message.user, message.id, message.request, env);
    var t', reply := After(t, limits, call), Reply(t, limits, call);
    ReplyOfRead(t, limits, call);
    if reply.RoomEvents? {
      FetchTrue(t, message.user, message.request.room, message.request.afterSequence);
    } else if reply.Welcomes? {
      WelcomesAnswerTrue(t, message.user, message.request.afterCursor);
    } else if IsDurable(message.request) && !message.request.Acknowledge? && !IsTransient(reply) {
      ReplyRecorded(t, limits, call);
      LookupAppend(t.journal, JournalRow(message.user, message.id, message.request, reply), message.user, message.id);
    }
  }

  lemma ReplyTrue(t: Tables, limits: Limits, issued: map<MessageId, Message>, message: Message, env: Environment)
    requires RelayGood(t, limits, issued) && Issued(issued, message)
    ensures var call := Call(message.user, message.id, message.request, env);
            AnswerTrue(After(t, limits, call), message, Reply(t, limits, call))
  {
    if Lookup(t.journal, message.user, message.id).Some? {
      SavedReplyTrue(t, limits, issued, message, env);
    } else {
      NewReplyTrue(t, limits, message, env);
    }
  }

  /** A new append comes from an outbox, so it was built on the log it extends. */
  lemma AcceptedFromOutbox(w: World, limits: Limits, t': Tables, call: Call, reply: Response)
    requires Good(w, limits) && Issued(w.issued, Message(call.user, call.id, call.request))
    requires Effect(w.relay, t', limits, call, reply) && t' != w.relay && EventAppended(w.relay, t', call, reply)
    ensures call.user in w.clients && Waiting(w.clients[call.user].db.outbox, reply.event)
    ensures HonestAppend(w.relay, call.user, call.id, call.request.operation)
  {
    var message := Message(call.user, call.id, call.request);
    assert InFlight(w, w.issued[call.id]);
    assert ClientGood(w.relay, w.issued, call.user, w.clients[call.user]);
    var outbox := w.clients[call.user].db.outbox;
    SameRequest(w.issued, message, Message(call.user, call.id, outbox[call.id].request));
    assert AppendTrue(w.relay, call.user, w.clients[call.user].db.cursors, call.id, call.request.operation);
  }

  lemma HonestKept(t: Tables, t': Tables, limits: Limits, call: Call, reply: Response)
    requires RelayOk(t, limits) && HonestLogs(t) && Effect(t, t', limits, call, reply)
    requires t' != t && EventAppended(t, t', call, reply) ==>
               HonestAppend(t, call.user, call.id, call.request.operation)
    ensures HonestLogs(t') && Extends(t, t')
  {
    if t' != t {
      EffectExtends(t, t', limits, call, reply);
      forall room, k | 0 <= k < |Log(t', room)| ensures HonestEvent(t', room, k) && room in t'.rooms {
        HonestNext(t, t', call, reply, room, k);
      }
    }
  }

  lemma HonestNext(t: Tables, t': Tables, call: Call, reply: Response, room: RoomId, k: nat)
    requires LogOk(t) && HonestLogs(t) && Extends(t, t') && k < |Log(t', room)|
    requires if EventAppended(t, t', call, reply) then
               HonestAppend(t, call.user, call.id, call.request.operation)
               && Log(t', room) == Log(t, room) + (if room == call.request.operation.room then [reply.event] else [])
             else Log(t', room) == Log(t, room)
    ensures HonestEvent(t', room, k) && room in t'.rooms
  {
    if k < |Log(t, room)| {
      assert HonestEvent(t, room, k);
      HonestEventStable(t, t', room, k);
    } else {
      LogSequences(t, room);
      HonestAppendStable(t, t', call.user, call.id, call.request.operation);
    }
  }

  lemma HonestEventStable(t: Tables, t': Tables, room: RoomId, k: nat)
    requires Extends(t, t') && k < |Log(t, room)| && HonestEvent(t, room, k)
    ensures k < |Log(t', room)| && HonestEvent(t', room, k)
  {
    assert Log(t, room) <= Log(t', room);
    var event := Log(t, room)[k];
    HonestAppendStable(t, t', event.sender, event.id, event.operation);
  }

  lemma GrowsByOutbox(t: Tables, t': Tables, limits: Limits, call: Call, reply: Response, user: UserId,
                      outbox: map<MessageId, OutboxRow>)
    requires LogOk(t) && LogOk(t') && Effect(t, t', limits, call, reply)
    requires t' != t && EventAppended(t, t', call, reply) && call.user == user ==> Waiting(outbox, reply.event)
    ensures GrowsBy(t, t', user, outbox)
  {
    if t' != t {
      EffectExtends(t, t', limits, call, reply);
      forall event | InLog(t', event) && !InLog(t, event) && event.sender == user ensures Waiting(outbox, event) {
        LogSequences(t, event.operation.room);
      }
    }
  }

  lemma ClientServed(t: Tables, t': Tables, issued: map<MessageId, Message>, user: UserId, client: Client)
    requires ClientGood(t, issued, user, client) && Extends(t, t') && GrowsBy(t, t', user, client.db.outbox)
    ensures ClientGood(t', issued, user, client)
  {
    SyncedStable(t, t', user, client.db);
  }

  lemma FlightServed(w: World, t': Tables)
    requires AppendsInFlight(w) && w.relay.journal <= t'.journal && JournalOk(t'.journal)
    ensures AppendsInFlight(w.(relay := t'))
  {
    forall id | id in w.issued && w.issued[id].request.AppendRoomOperation?
      ensures InFlight(w.(relay := t'), w.issued[id])
    {
      assert InFlight(w, w.issued[id]);
      var message := w.issued[id];
      if Lookup(w.relay.journal, message.user, message.id).Some? {
        LookupStays(w.relay.journal, t'.journal, message.user, message.id);
      }
    }
  }

  lemma JournalServed(
    t: Tables, t': Tables, limits: Limits, issued: map<MessageId, Message>, call: Call, reply: Response)
    requires JournalIssued(issued, t.journal) && Effect(t, t', limits, call, reply)
    requires Issued(issued, Message(call.user, call.id, call.request))
    ensures JournalIssued(issued, t'.journal)
  {}

  lemma RelayServed(w: World, limits: Limits, t': Tables, call: Call, reply: Response)
    requires Good(w, limits) && Issued(w.issued, Message(call.user, call.id, call.request))
    requires Effect(w.relay, t', limits, call, reply)
    ensures RelayGood(t', limits, w.issued) && Extends(w.relay, t') && ClientsGood(t', w.issued, w.clients)
  {
    if t' != w.relay && EventAppended(w.relay, t', call, reply) {
      AcceptedFromOutbox(w, limits, t', call, reply);
    }
    RelayKeptByEffect(w.relay, t', limits, call, reply);
    HonestKept(w.relay, t', limits, call, reply);
    ResultsKept(w.relay, t', limits, call, reply);
    JournalServed(w.relay, t', limits, w.issued, call, reply);
    forall user | user in w.clients ensures ClientGood(t', w.issued, user, w.clients[user]) {
      assert ClientGood(w.relay, w.issued, user, w.clients[user]);
      GrowsByOutbox(w.relay, t', limits, call, reply, user, w.clients[user].db.outbox);
      ClientServed(w.relay, t', w.issued, user, w.clients[user]);
    }
  }

  lemma ServeGood(w: World, limits: Limits, message: Message, env: Environment)
    requires Good(w, limits) && message in w.sent
    ensures Good(Served(w, limits, message, env), limits)
  {
    var call := Call(message.user, message.id, message.request, env);
    var t', reply := After(w.relay, limits, call), Reply(w.relay, limits, call);
    DeliverEffect(w.relay, limits, call);
    RelayServed(w, limits, t', call, reply);
    ReplyTrue(w.relay, limits, w.issued, message, env);
    AnswersStable(w.relay, t', w.answers);
    FlightServed(w, t');
    AnswersGrow(t', w.answers, message, reply);
    assert AppendsInFlight(Served(w, limits, message, env)) by {
      FlightSame(w.(relay := t'), Served(w, limits, message, env));
    }
  }

  lemma FlightSame(w: World, w': World)
    requires AppendsInFlight(w) && w'.issued == w.issued && w'.clients == w.clients && w'.relay == w.relay
    ensures AppendsInFlight(w')
  {
    forall id | id in w'.issued && w'.issued[id].request.AppendRoomOperation? ensures InFlight(w', w'.issued[id]) {
      assert InFlight(w, w.issued[id]);
    }
  }

  lemma AnswersGrow(t: Tables, answers: set<Answered>, message: Message, response: Response)
    requires AnswersTrue(t, answers) && AnswerTrue(t, message, response)
    ensures AnswersTrue(t, answers + {Answered(message, response)})
  {}

  // ----- a client acts -----

  /** The outbox gains the new request and receipts, and loses only answered appends. */
  ghost predicate OutboxStep(
    t: Tables, user: UserId, outbox: map<MessageId, OutboxRow>, outbox': map<MessageId, OutboxRow>,
    drawn: Option<MessageId>)
  {
    && (forall id :: id in outbox' ==>
          || (id in outbox && outbox'[id].request == outbox[id].request)
          || (id.Receipt? && id.user == user && outbox'[id].request == Acknowledge(id.events, id.welcomes))
          || drawn == Some(id))
    && (drawn.Some? && drawn.value in outbox' ==> drawn.value !in outbox && IsDurable(outbox'[drawn.value].request))
    && (forall id :: id in outbox && outbox[id].request.AppendRoomOperation? && id !in outbox' ==>
          Lookup(t.journal, user, id).Some?)
  }

  lemma AnswerOutbox(
    t: Tables, user: UserId, db: Database, id: MessageId, request: Request, response: Response, db': Database)
    requires id in db.outbox && db.outbox[id].request == request && IsDurable(request)
    requires AnswerTrue(t, Message(user, id, request), response)
    requires AnswerEffect(db, user, id, request, response, db')
    ensures OutboxStep(t, user, db.outbox, db'.outbox, None)
  {
    assert db'.outbox == db.outbox || db'.outbox == db.outbox - {id};
  }

  /** Only a receipt is new. */
  predicate ReceiptSaved(user: UserId, outbox: map<MessageId, OutboxRow>, outbox': map<MessageId, OutboxRow>) {
    && (forall id :: id in outbox' ==>
          || (id in outbox && outbox'[id].request == outbox[id].request)
          || (id.Receipt? && id.user == user && outbox'[id].request == Acknowledge(id.events, id.welcomes)))
    && (forall id :: id in outbox ==> id in outbox')
  }

  lemma SaveReceipt(db: Database, user: UserId, events: seq<MessageId>, welcomes: seq<nat>)
    ensures var saved := SaveOutbox(db, AcknowledgementId(user, events, welcomes), Acknowledge(events, welcomes));
            saved.Some? ==> ReceiptSaved(user, db.outbox, saved.value.outbox)
  {}

  lemma ApplyOtherOutbox(user: UserId, db: Database, event: Event, db': Database)
    requires ApplyOther(db, user, event) == Some(db')
    ensures ReceiptSaved(user, db.outbox, db'.outbox)
  {
    match ProcessBound(db, user, event) {
      case Failure =>
      case FaultBlocked =>
      case FaultRejected => SaveReceipt(Advance(db, event, Refused), user, [event.id], []);
      case Opened(db1, plaintext) =>
        SaveReceipt(Advance(Remember(db1, event, plaintext), event, Applied), user, [event.id], []);
    }
  }

  lemma ApplyOwnOutbox(user: UserId, db: Database, event: Event, db': Database)
    requires ApplyOwn(db, user, event) == Some(db') && event.operation.room in db.groups
    ensures ReceiptSaved(user, db.outbox - {event.id}, db'.outbox)
  {
    ApplyOwnIs(db, user, event, db');
    var state := db.groups[event.operation.room];
    var state' := if event.operation.contentType != Commit then state
                  else GroupState(state.pending.value, None, state.ratchet);
    SaveReceipt(Advance(Claim(WithGroup(db, event.operation.room, state'), event), event, Applied),
                user, [event.id], []);
  }

  lemma ApplyOutbox(t: Tables, user: UserId, db: Database, event: Event, db': Database)
    requires JournalOk(t.journal) && AcceptedOk(t) && InLog(t, event) && event.operation.room in db.groups
    requires event.sender == user ==> ApplyOwn(db, user, event) == Some(db')
    requires event.sender != user ==> ApplyOther(db, user, event) == Some(db')
    ensures OutboxStep(t, user, db.outbox, db'.outbox, None)
  {
    if event.sender == user {
      LogJournaled(t, event);
      ApplyOwnOutbox(user, db, event, db');
    } else {
      ApplyOtherOutbox(user, db, event, db');
    }
  }

  lemma JoinOutbox(
    user: UserId, db: Database, cursor: nat, welcome: WelcomeDelivery, keyAvailable: bool, db': Database)
    requires cursor in db.welcomes && JoinRoom(db, user, cursor, welcome, keyAvailable) == Some(db')
    ensures ReceiptSaved(user, db.outbox, db'.outbox)
  {
    var group := welcome.attachment.body.content.group;
    SaveReceipt(MarkWelcome(EnterRoom(db, welcome.room, group, welcome.sequence), cursor, Applied), user, [], [cursor]);
  }

  lemma ProcessOutbox(t: Tables, user: UserId, db: Database, cursor: nat, keyAvailable: bool, db': Database)
    requires cursor in db.welcomes
    requires db' == MarkWelcome(db, cursor, Stuck)
             || JoinRoom(db, user, cursor, db.welcomes[cursor].record, keyAvailable) == Some(db')
    ensures OutboxStep(t, user, db.outbox, db'.outbox, None)
  {
    if db' != MarkWelcome(db, cursor, Stuck) {
      JoinOutbox(user, db, cursor, db.welcomes[cursor].record, keyAvailable, db');
    }
  }

  lemma BuildOutbox(t: Tables, user: UserId, db: Database, room: RoomId, id: MessageId, db': Database)
    requires id !in db.outbox && BuildEffect(db, user, room, id, db')
    ensures OutboxStep(t, user, db.outbox, db'.outbox, Some(id))
  {}

  /** What a step of one client achieves against a fixed relay. */
  ghost predicate ActOk(t: Tables, user: UserId, db: Database, db': Database, drawn: Option<MessageId>) {
    Synced(t, user, db') && OutboxStep(t, user, db.outbox, db'.outbox, drawn)
  }

  lemma AnswerAct(
    t: Tables, user: UserId, starts: Starts, db: Database, id: MessageId, response: Response, db': Database)
    requires JournalOk(t.journal) && LogOk(t) && AcceptedOk(t) && ResultsTrue(t)
    requires ClientOk(db, starts) && Synced(t, user, db) && OutboxDurable(db.outbox)
    requires id in db.outbox && AnswerTrue(t, Message(user, id, db.outbox[id].request), response)
    requires Next(db, user, Action.Answer(id, response)) == Some(db')
    ensures ActOk(t, user, db, db', None)
  {
    var request := db.outbox[id].request;
    CompleteEffect(db, user, id, request, response, db');
    AnswerSynced(t, user, starts, db, id, request, response, db');
    AnswerOutbox(t, user, db, id, request, response, db');
  }

  lemma ApplyAct(
    t: Tables, issued: map<MessageId, Message>, user: UserId, starts: Starts, db: Database, event: Event, db': Database)
    requires Trusted(t, issued, user, db.outbox) && ClientOk(db, starts) && Synced(t, user, db)
    requires Next(db, user, Apply(event)) == Some(db')
    ensures ActOk(t, user, db, db', None)
  {
    assert InLog(t, db.inbox[event.id].event);
    ApplyOutbox(t, user, db, event, db');
    if event.sender == user {
      ApplyOwnSynced(t, user, db, event, db');
    } else {
      ResolvedIsQuiet(db, event.operation.room);
      ApplyOtherSynced(t, issued, user, starts, db, event, db');
    }
  }

  lemma BuildAct(
    t: Tables, user: UserId, starts: Starts, db: Database, room: RoomId, id: MessageId, bytes: Ciphertext,
    db': Database)
    requires ClientOk(db, starts) && Synced(t, user, db) && Next(db, user, Build(room, id, bytes)) == Some(db')
    ensures ActOk(t, user, db, db', Some(id)) && BuildEffect(db, user, room, id, db')
  {
    BuildActs(t, user, starts, db, room, id, bytes, db');
    BuildSynced(t, user, db, room, id, db');
    BuildOutbox(t, user, db, room, id, db');
  }

  lemma BuildActs(
    t: Tables, user: UserId, starts: Starts, db: Database, room: RoomId, id: MessageId, bytes: Ciphertext,
    db': Database)
    requires CursorsOk(db, starts) && GroupsTrue(t, user, db.cursors, db.groups) && PackagesTrue(db.intents)
    requires Next(db, user, Build(room, id, bytes)) == Some(db')
    ensures BuildEffect(db, user, room, id, db') && Unseen(db, id) && room in db.cursors
    ensures room in db.intents && db.intents[room].attempt.None?
  {
    BuildAttemptEffect(db, user, room, id, bytes, db');
  }

  lemma IssueAct(t: Tables, user: UserId, db: Database, id: MessageId, request: Request, db': Database)
    requires Synced(t, user, db) && Next(db, user, Issue(id, request)) == Some(db')
    ensures ActOk(t, user, db, db', Some(id))
  {
    OutboxFramed(t, user, db, db'.outbox);
  }

  lemma IntendAct(t: Tables, user: UserId, db: Database, room: RoomId, intent: Intent, db': Database)
    requires Synced(t, user, db) && Next(db, user, Intend(room, intent)) == Some(db')
    ensures ActOk(t, user, db, db', None)
  {
    IntentsFramed(t, user, db, db'.intents);
  }

  lemma StoreAct(
    t: Tables, answers: set<Answered>, user: UserId, db: Database, page: seq<WelcomeDelivery>, db': Database)
    requires AnswersTrue(t, answers) && Queued(answers, user, db.welcomeCursor, page)
    requires Synced(t, user, db) && StorePage(db, user, page) == Some(db')
    ensures ActOk(t, user, db, db', None)
  {
    var answer :| answer in answers && answer.message.user == user && answer.response.Welcomes?
                  && answer.response.afterCursor == db.welcomeCursor && answer.response.welcomes == page;
    assert AnswerTrue(t, answer.message, answer.response);
    StoreSynced(t, user, db, page, db');
  }

  lemma ReceiveAct(t: Tables, answers: set<Answered>, user: UserId, db: Database, event: Event, db': Database)
    requires AnswersTrue(t, answers) && Fetched(answers, user, event)
    requires Synced(t, user, db) && ReceiveEvent(db, event) == Some(db')
    ensures ActOk(t, user, db, db', None)
  {
    var answer :| answer in answers && answer.message.user == user && answer.response.RoomEvents?
                  && event in answer.response.events;
    assert AnswerTrue(t, answer.message, answer.response);
    ReceiveSynced(t, user, db, event, db');
  }

  lemma ImportAct(t: Tables, user: UserId, db: Database, contact: UserId)
    requires Synced(t, user, db)
    ensures ActOk(t, user, db, db.(contacts := db.contacts + {contact}), None)
  {}

  lemma ProcessAct(t: Tables, user: UserId, starts: Starts, db: Database, cursor: nat, keyAvailable: bool)
    requires LogOk(t) && WelcomesOk(t) && HonestLogs(t) && ClientOk(db, starts) && Synced(t, user, db)
    requires cursor in db.welcomes
    ensures ActOk(t, user, db, ProcessWelcome(db, user, cursor, keyAvailable), None)
  {
    var db' := ProcessWelcome(db, user, cursor, keyAvailable);
    ProcessCases(db, user, cursor, keyAvailable);
    ProcessSynced(t, user, starts, db, cursor, keyAvailable, db');
    ProcessOutbox(t, user, db, cursor, keyAvailable, db');
  }

  lemma ActsOk(w: World, user: UserId, starts: Starts, db: Database, action: Action, db': Database)
    requires Trusted(w.relay, w.issued, user, db.outbox) && AnswersTrue(w.relay, w.answers)
    requires ClientOk(db, starts) && Synced(w.relay, user, db) && OutboxDurable(db.outbox)
    requires Justified(w, user, db, action) && Next(db, user, action) == Some(db')
    ensures ActOk(w.relay, user, db, db', NewId(action))
  {
    if action.Answer? {
      AnswerActOk(w, user, starts, db, action.id, action.response, db');
    } else if action.Receive? || action.Apply? || action.Store? || action.Process? {
      LaterActsOk(w, user, starts, db, action, db');
    } else {
      EarlyActsOk(w.relay, user, starts, db, action, db');
    }
  }

  lemma EarlyActsOk(t: Tables, user: UserId, starts: Starts, db: Database, action: Action, db': Database)
    requires action.Import? || action.Issue? || action.Intend? || action.Build?
    requires ClientOk(db, starts) && Synced(t, user, db) && Next(db, user, action) == Some(db')
    ensures ActOk(t, user, db, db', NewId(action))
  {
    match action {
      case Import(contact) => ImportAct(t, user, db, contact);
      case Issue(id, request) => IssueAct(t, user, db, id, request, db');
      case Intend(room, intent) => IntendAct(t, user, db, room, intent, db');
      case Build(room, id, bytes) => BuildAct(t, user, starts, db, room, id, bytes, db');
    }
  }

  lemma AnswerActOk(
    w: World, user: UserId, starts: Starts, db: Database, id: MessageId, response: Response, db': Database)
    requires Trusted(w.relay, w.issued, user, db.outbox) && AnswersTrue(w.relay, w.answers)
    requires ClientOk(db, starts) && Synced(w.relay, user, db) && OutboxDurable(db.outbox)
    requires Justified(w, user, db, Action.Answer(id, response))
    requires Next(db, user, Action.Answer(id, response)) == Some(db')
    ensures ActOk(w.relay, user, db, db', None)
  {
    assert AnswerTrue(w.relay, Message(user, id, db.outbox[id].request), response);
    AnswerAct(w.relay, user, starts, db, id, response, db');
  }

  lemma LaterActsOk(w: World, user: UserId, starts: Starts, db: Database, action: Action, db': Database)
    requires action.Receive? || action.Apply? || action.Store? || action.Process?
    requires Trusted(w.relay, w.issued, user, db.outbox) && AnswersTrue(w.relay, w.answers)
    requires ClientOk(db, starts) && Synced(w.relay, user, db)
    requires Justified(w, user, db, action) && Next(db, user, action) == Some(db')
    ensures ActOk(w.relay, user, db, db', NewId(action))
  {
    var t := w.relay;
    match action {
      case Receive(event) => ReceiveAct(t, w.answers, user, db, event, db');
      case Apply(event) => ApplyAct(t, w.issued, user, starts, db, event, db');
      case Store(page) => StoreAct(t, w.answers, user, db, page, db');
      case Process(cursor, keyAvailable) => ProcessAct(t, user, starts, db, cursor, keyAvailable);
    }
  }

  // ----- identifiers -----

  ghost predicate IssuedGrows(issued: map<MessageId, Message>, issued': map<MessageId, Message>) {
    forall id :: id in issued ==> id in issued' && issued'[id] == issued[id]
  }

  lemma IssuedStable(t: Tables, limits: Limits, issued: map<MessageId, Message>, issued': map<MessageId, Message>,
                     clients: map<UserId, Client>, sent: set<Message>)
    requires IssuedGrows(issued, issued')
    requires RelayGood(t, limits, issued) && ClientsGood(t, issued, clients) && SentIssued(issued, sent)
    ensures RelayGood(t, limits, issued') && ClientsGood(t, issued', clients) && SentIssued(issued', sent)
  {
    forall user | user in clients ensures ClientGood(t, issued', user, clients[user]) {
      assert ClientGood(t, issued, user, clients[user]);
      OutboxStable(issued, issued', user, clients[user].db.outbox);
    }
    JournalStable(issued, issued', t.journal);
    SentStable(issued, issued', sent);
  }

  lemma OutboxStable(issued: map<MessageId, Message>, issued': map<MessageId, Message>, user: UserId,
                     outbox: map<MessageId, OutboxRow>)
    requires IssuedGrows(issued, issued') && OutboxIssued(issued, user, outbox)
    ensures OutboxIssued(issued', user, outbox)
  {}

  lemma JournalStable(
    issued: map<MessageId, Message>, issued': map<MessageId, Message>, journal: seq<JournalRow>)
    requires IssuedGrows(issued, issued') && JournalIssued(issued, journal)
    ensures JournalIssued(issued', journal)
  {}

  lemma SentStable(issued: map<MessageId, Message>, issued': map<MessageId, Message>, sent: set<Message>)
    requires IssuedGrows(issued, issued') && SentIssued(issued, sent)
    ensures SentIssued(issued', sent)
  {}

  lemma ActedOutbox(
    t: Tables, issued: map<MessageId, Message>, issued': map<MessageId, Message>, user: UserId,
    outbox: map<MessageId, OutboxRow>, outbox': map<MessageId, OutboxRow>, drawn: Option<MessageId>)
    requires OutboxIssued(issued, user, outbox) && OutboxDurable(outbox)
    requires OutboxStep(t, user, outbox, outbox', drawn) && IssuedGrows(issued, issued')
    requires drawn.Some? ==> drawn.value.Random?
    requires drawn.Some? && drawn.value in outbox' ==>
               && drawn.value in issued'
               && issued'[drawn.value] == Message(user, drawn.value, outbox'[drawn.value].request)
    ensures OutboxIssued(issued', user, outbox') && OutboxDurable(outbox')
  {
    forall id | id in outbox' ensures Issued(issued', Message(user, id, outbox'[id].request)) {
      assert id in outbox ==> Issued(issued, Message(user, id, outbox[id].request));
    }
  }

  lemma DrawnGrows(issued: map<MessageId, Message>, user: UserId, drawn: Option<MessageId>, db: Database)
    requires drawn.Some? ==> New(issued, drawn.value)
    ensures IssuedGrows(issued, Drawn(issued, user, drawn, db))
  {}

  lemma ActedFlight(w: World, user: UserId, action: Action, db': Database)
    requires user in w.clients && (NewId(action).Some? ==> New(w.issued, NewId(action).value))
    requires AppendsInFlight(w) && OutboxIssued(w.issued, user, w.clients[user].db.outbox)
    requires OutboxStep(w.relay, user, w.clients[user].db.outbox, db'.outbox, NewId(action))
    ensures AppendsInFlight(Acted(w, user, action, db'))
  {
    var w' := Acted(w, user, action, db');
    forall id | id in w'.issued && w'.issued[id].request.AppendRoomOperation? ensures InFlight(w', w'.issued[id]) {
      if NewId(action) != Some(id) {
        assert InFlight(w, w.issued[id]);
        assert w.issued[id].user == user && id in w.clients[user].db.outbox ==>
                 Issued(w.issued, Message(user, id, w.clients[user].db.outbox[id].request));
      }
    }
  }

  lemma ClientReplaced(
    t: Tables, issued: map<MessageId, Message>, clients: map<UserId, Client>, user: UserId, client: Client)
    requires ClientsGood(t, issued, clients) && ClientGood(t, issued, user, client)
    ensures ClientsGood(t, issued, clients[user := client])
  {}

  lemma ActedClientGood(w: World, limits: Limits, user: UserId, action: Action, db': Database)
    requires Good(w, limits) && user in w.clients && Justified(w, user, w.clients[user].db, action)
    requires Next(w.clients[user].db, user, action) == Some(db')
    ensures ActOk(w.relay, user, w.clients[user].db, db', NewId(action))
    ensures Disciplined(db', user, NewStarts(w.clients[user].starts, db'))
  {
    var client := w.clients[user];
    assert ClientGood(w.relay, w.issued, user, client);
    ActsOk(w, user, client.starts, client.db, action, db');
    StepKept(client.db, user, client.starts, action, db');
  }

  lemma ActGood(w: World, limits: Limits, user: UserId, action: Action, db': Database)
    requires Good(w, limits) && user in w.clients && Justified(w, user, w.clients[user].db, action)
    requires Next(w.clients[user].db, user, action) == Some(db')
    ensures Good(Acted(w, user, action, db'), limits)
  {
    ActedClientGood(w, limits, user, action, db');
    ActedGood(w, limits, user, action, db');
  }

  lemma ActedGood(w: World, limits: Limits, user: UserId, action: Action, db': Database)
    requires Good(w, limits) && user in w.clients
    requires NewId(action).Some? ==> New(w.issued, NewId(action).value)
    requires ActOk(w.relay, user, w.clients[user].db, db', NewId(action))
    requires Disciplined(db', user, NewStarts(w.clients[user].starts, db'))
    ensures Good(Acted(w, user, action, db'), limits)
  {
    var outbox, issued' := w.clients[user].db.outbox, Drawn(w.issued, user, NewId(action), db');
    assert ClientGood(w.relay, w.issued, user, w.clients[user]);
    DrawnGrows(w.issued, user, NewId(action), db');
    IssuedStable(w.relay, limits, w.issued, issued', w.clients, w.sent);
    ActedOutbox(w.relay, w.issued, issued', user, outbox, db'.outbox, NewId(action));
    ClientReplaced(w.relay, issued', w.clients, user, Client(db', NewStarts(w.clients[user].starts, db')));
    ActedFlight(w, user, action, db');
  }

  // ----- all moves -----

  lemma SendGood(w: World, limits: Limits, user: UserId, id: MessageId)
    requires Good(w, limits) && user in w.clients && id in w.clients[user].db.outbox
    ensures Good(w.(sent := w.sent + {Message(user, id, w.clients[user].db.outbox[id].request)}), limits)
  {
    assert ClientGood(w.relay, w.issued, user, w.clients[user]);
    SentGood(w, limits, Message(user, id, w.clients[user].db.outbox[id].request));
  }

  lemma SentGood(w: World, limits: Limits, message: Message)
    requires Good(w, limits) && Issued(w.issued, message)
    ensures Good(w.(sent := w.sent + {message}), limits)
  {
    var w' := w.(sent := w.sent + {message});
    assert SentIssued(w'.issued, w'.sent);
    FlightSame(w, w');
  }

  lemma ReadGood(w: World, limits: Limits, user: UserId, id: MessageId, request: Request)
    requires Good(w, limits) && New(w.issued, id) && !IsDurable(request)
    ensures Good(w.(sent := w.sent + {Message(user, id, request)},
                    issued := w.issued[id := Message(user, id, request)]), limits)
  {
    var w' := w.(sent := w.sent + {Message(user, id, request)}, issued := w.issued[id := Message(user, id, request)]);
    IssuedStable(w.relay, limits, w.issued, w'.issued, w.clients, w.sent);
    forall other | other in w'.issued && w'.issued[other].request.AppendRoomOperation?
      ensures InFlight(w', w'.issued[other])
    {
      assert InFlight(w, w.issued[other]);
    }
  }

  lemma RefuseGood(w: World, limits: Limits, message: Message)
    requires Good(w, limits)
    ensures Good(Answering(w, message, Rejected(Overloaded)), limits)
  {
    AnswersGrow(w.relay, w.answers, message, Rejected(Overloaded));
    FlightSame(w, Answering(w, message, Rejected(Overloaded)));
  }

  lemma MoveGood(w: World, limits: Limits, move: Move)
    requires Good(w, limits)
    ensures Good(Moved(w, limits, move), limits)
  {
    if Enabled(w, move) {
      match move {
        case Act(user, action) => ActGood(w, limits, user, action, Next(w.clients[user].db, user, action).value);
        case Send(user, id) => SendGood(w, limits, user, id);
        case Read(user, id, request) => ReadGood(w, limits, user, id, request);
        case Serve(message, env) => ServeGood(w, limits, message, env);
        case Refuse(message) => RefuseGood(w, limits, message);
      }
    }
  }

  lemma StartGood(users: set<UserId>, limits: Limits)
    ensures Good(Start(users), limits)
  {
    RelayStart(limits);
    forall user | user in users ensures ClientGood(EMPTY, map[], user, Client(Fresh(user), map[])) {
      ClientStart(user);
    }
  }

  lemma {:induction false} RunGood(w: World, limits: Limits, moves: seq<Move>)
    requires Good(w, limits)
    ensures Good(RunWorld(w, limits, moves), limits)
    decreases |moves|
  {
    if moves != [] {
      MoveGood(w, limits, moves[0]);
      RunGood(Moved(w, limits, moves[0]), limits, moves[1..]);
    }
  }
}
