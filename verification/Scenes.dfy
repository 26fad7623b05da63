/** Steps of a run of the composed system that is told stage by stage. */
module Scenes {
  import opened Records
  import opened Sizes
  import opened RelaySpec
  import opened RelayInvariants
  import opened ClientSpec
  import opened ClientTheorems
  import opened World
  import opened Holds
  import opened Progress

  const USERS: set<UserId> := {1, 2, 3}

  /** No request of the scenes costs more. */
  const PRICE: nat := 17000

  /** What is known about a world of three users: the relay's data, the databases of users 1, 2
      and 3, the next random identifier, and the receipts the relay may have. */
  datatype Stage = Stage(
    data: Tables, a: Database, b: Database, c: Database, next: nat, receipts: set<MessageId>)

  function Db(s: Stage, user: UserId): Database
    requires user in USERS
  {
    if user == 1 then s.a else if user == 2 then s.b else s.c
  }

  function With(s: Stage, user: UserId, db: Database): Stage
    requires user in USERS
  {
    if user == 1 then s.(a := db) else if user == 2 then s.(b := db) else s.(c := db)
  }

  ghost predicate RelayAt(t: Tables, s: Stage) {
    && Data(t) == s.data
    && ServedOnly(t.journal, s.next, s.receipts)
    && SpentAtMost(t, s.next * PRICE)
  }

  ghost predicate ServedOnly(journal: seq<JournalRow>, next: nat, receipts: set<MessageId>) {
    forall user, id :: Lookup(journal, user, id).Some? ==> if id.Random? then id.bits < next else id in receipts
  }

  ghost predicate SpentAtMost(t: Tables, spent: nat) {
    && (forall user: UserId :: Used(t.usageSender, user) <= spent)
    && (forall room: RoomId :: Used(t.usageRoom, room) <= spent)
  }

  ghost predicate ClientsAt(clients: map<UserId, Client>, s: Stage) {
    clients.Keys == USERS && clients[1].db == s.a && clients[2].db == s.b && clients[3].db == s.c
  }

  ghost predicate AllBelow(ids: set<MessageId>, n: nat) { forall id :: id in ids && id.Random? ==> id.bits < n }

  ghost predicate Stands(w: World, s: Stage) {
    && RelayAt(w.relay, s) && ClientsAt(w.clients, s)
    && AllBelow(w.issued.Keys, s.next) && AllBelow(w.intended.Keys, s.next)
  }

  // ----- runs -----

  ghost predicate Leads(w: World, limits: Limits, w': World) { exists moves :: RunWorld(w, limits, moves) == w' }

  lemma LeadsOne(w: World, limits: Limits, move: Move)
    ensures Leads(w, limits, Moved(w, limits, move))
  {
    assert RunWorld(w, limits, [move]) == RunWorld(Moved(w, limits, move), limits, []);
  }

  lemma LeadsOn(w: World, limits: Limits, w1: World, w2: World)
    requires Leads(w, limits, w1) && Leads(w1, limits, w2)
    ensures Leads(w, limits, w2)
  {
    var a :| RunWorld(w, limits, a) == w1;
    var b :| RunWorld(w1, limits, b) == w2;
    WorldMore(w, limits, a, b);
  }

  // ----- a client does something -----

  /** Needs no answer of the relay, and draws the next identifier if it draws one. */
  predicate Own(action: Action, next: nat) {
    match action
    case Import(_) => true
    case Issue(id, _) => id == Random(next)
    case Intend(_, intent) => intent.id == Random(next)
    case Build(_, id, _) => id == Random(next)
    case Apply(_) => true
    case Process(_, _) => true
    case _ => false
  }

  /** The client takes the step, whatever its start boundaries. */
  ghost predicate Goes(db: Database, user: UserId, action: Action, db': Database) {
    forall starts :: Next(Client(db, starts).db, user, action) == Some(db')
  }

  lemma GoesNext(db: Database, user: UserId, action: Action, db': Database)
    requires Goes(db, user, action, db')
    ensures Next(db, user, action) == Some(db')
  {
    assert Next(Client(db, map[]).db, user, action) == Some(db');
  }

  function Stepped(s: Stage, user: UserId, db': Database): Stage
    requires user in USERS
  {
    With(s, user, db').(next := s.next + 1)
  }

  lemma DoesAt(w: World, s: Stage, user: UserId, action: Action, db': Database)
    requires Stands(w, s) && user in USERS && (Own(action, s.next) || (NewId(action) == None && !action.Intend?))
    ensures Stands(Acted(w, user, action, db'), Stepped(s, user, db'))
  {
    var w' := Acted(w, user, action, db');
    assert w'.issued.Keys <= w.issued.Keys + {Random(s.next)};
    assert w'.intended.Keys <= w.intended.Keys + {Random(s.next)};
  }

  lemma OwnJustified(w: World, s: Stage, user: UserId, action: Action)
    requires Stands(w, s) && user in USERS && Own(action, s.next)
    ensures user in w.clients && w.clients[user].db == Db(s, user) && Justified(w, user, Db(s, user), action)
  {
    assert Random(s.next) !in w.issued.Keys && Random(s.next) !in w.intended.Keys;
  }

  lemma Does(w: World, limits: Limits, s: Stage, user: UserId, action: Action, db': Database) returns (w': World)
    requires Stands(w, s) && user in USERS && Own(action, s.next) && Goes(Db(s, user), user, action, db')
    ensures Leads(w, limits, w') && Stands(w', Stepped(s, user, db')) && w'.relay == w.relay
  {
    w' := Acted(w, user, action, db');
    GoesNext(Db(s, user), user, action, db');
    OwnJustified(w, s, user, action);
    ActMoves(w, limits, user, action, db');
    LeadsOne(w, limits, Act(user, action));
    DoesAt(w, s, user, action, db');
  }

  // ----- a request is answered -----

  ghost predicate SameOutcome(a: Outcome, b: Outcome) {
    a.Done? == b.Done? && (a.Done? ==> a.response == b.response && Data(a.tables) == b.tables)
  }

  lemma AppendData(t: Tables, user: UserId, id: MessageId, operation: Append)
    ensures SameOutcome(ExecuteAppend(t, user, id, operation), ExecuteAppend(Data(t), user, id, operation))
  {
    if operation.room in t.rooms {
      var event := Event(id, user, operation);
      assert Data(Insert(t, event, operation.parent + 1)) == Insert(Data(t), event, operation.parent + 1);
    }
  }

  lemma AcknowledgeData(t: Tables, user: UserId, events: seq<MessageId>, welcomes: seq<nat>)
    ensures SameOutcome(ExecuteAcknowledge(t, user, events, welcomes),
                        ExecuteAcknowledge(Data(t), user, events, welcomes))
  {
    assert forall event :: MayAcknowledgeEvent(t, user, event) <==> MayAcknowledgeEvent(Data(t), user, event);
    assert forall cursor :: MayAcknowledgeWelcome(t, user, cursor) <==> MayAcknowledgeWelcome(Data(t), user, cursor);
  }

  /** Operations read and write the data only. */
  lemma ExecuteData(t: Tables, user: UserId, id: MessageId, request: Request, env: Environment)
    requires !request.SyncIndex?
    ensures SameOutcome(Execute(t, user, id, request, env), Execute(Data(t), user, id, request, env))
  {
    match request {
      case AppendRoomOperation(operation) => AppendData(t, user, id, operation);
      case Acknowledge(events, welcomes) => AcknowledgeData(t, user, events, welcomes);
      case _ =>
    }
  }

  /** The relay admits the request, or it is a receipt with its own identifier. */
  predicate Admitted(t: Tables, limits: Limits, call: Call) {
    if call.request.Acknowledge? then
      |call.request.events| + |call.request.welcomes| == 1
      && call.id == AcknowledgementId(call.user, call.request.events, call.request.welcomes)
    else Admit(t, limits, call.user, call.request, call.env)
  }

  /** The request is served as the data say, and takes its place in journal and ledgers. */
  ghost predicate ServedAs(t: Tables, t': Tables, call: Call, data': Tables, response: Response) {
    && Data(t') == data'
    && t'.journal == t.journal + [JournalRow(call.user, call.id, call.request, response)]
    && (if call.request.Acknowledge? then t'.usageSender == t.usageSender && t'.usageRoom == t.usageRoom
        else t'.usageSender == ChargeLedgers(t, call.user, call.request).usageSender
             && t'.usageRoom == ChargeLedgers(t, call.user, call.request).usageRoom)
  }

  /** What the relay does with a request that is new to it, given what the operation did. */
  lemma Settled(t: Tables, limits: Limits, call: Call)
    requires IsDurable(call.request) && RequestSize(call.request) <= MAX_PAYLOAD && Admitted(t, limits, call)
    requires Lookup(t.journal, call.user, call.id).None?
    requires Execute(t, call.user, call.id, call.request, call.env).Done?
    ensures var done := Execute(t, call.user, call.id, call.request, call.env);
            Deliver(t, limits, call.user, call.id, call.request, call.env)
            == Record(done.tables, call.user, call.id, call.request, done.response)
  {}

  lemma Recorded(t: Tables, call: Call, done: Tables, response: Response)
    requires IsDurable(call.request) && !IsTransient(response) && ResponseSize(response) <= MAX_PAYLOAD
    requires call.request.Acknowledge? ==> response.Acknowledged?
    requires done.journal == t.journal && done.usageSender == t.usageSender && done.usageRoom == t.usageRoom
    ensures var recorded := Record(done, call.user, call.id, call.request, response);
            && recorded.Done? && recorded.response == response
            && ServedAs(t, recorded.tables, call, Data(done), response)
  {}

  /** Operations leave the journal and the ledgers alone. */
  lemma ExecuteKeeps(t: Tables, user: UserId, id: MessageId, request: Request, env: Environment)
    ensures var done := Execute(t, user, id, request, env);
            done.Done? ==> done.tables.journal == t.journal && done.tables.usageSender == t.usageSender
                           && done.tables.usageRoom == t.usageRoom
  {}

  lemma JournalAt(journal: seq<JournalRow>, row: JournalRow, next: nat, receipts: set<MessageId>)
    requires ServedOnly(journal, next, receipts) && (row.id.Random? ==> row.id.bits <= next)
    ensures ServedOnly(journal + [row], next + 1, receipts + {row.id})
  {
    forall user, id | Lookup(journal + [row], user, id).Some?
      ensures if id.Random? then id.bits < next + 1 else id in receipts + {row.id}
    {
      LookupAppend(journal, row, user, id);
    }
  }

  lemma LedgersAt(t: Tables, t': Tables, user: UserId, request: Request, spent: nat)
    requires SpentAtMost(t, spent) && Charge(request) <= PRICE
    requires (t'.usageSender == t.usageSender && t'.usageRoom == t.usageRoom)
             || (t'.usageSender == ChargeLedgers(t, user, request).usageSender
                 && t'.usageRoom == ChargeLedgers(t, user, request).usageRoom)
    ensures SpentAtMost(t', spent + PRICE)
  {
    assert forall u: UserId :: Used(t'.usageSender, u) <= Used(t.usageSender, u) + PRICE;
    assert forall r: RoomId :: Used(t'.usageRoom, r) <= Used(t.usageRoom, r) + PRICE;
  }

  lemma ServesAs(t: Tables, limits: Limits, call: Call, data': Tables, response: Response)
    requires Lookup(t.journal, call.user, call.id).None? && Admitted(t, limits, call)
    requires IsDurable(call.request) && RequestSize(call.request) <= MAX_PAYLOAD
    requires Execute(Data(t), call.user, call.id, call.request, call.env) == Done(data', response)
    requires !IsTransient(response) && ResponseSize(response) <= MAX_PAYLOAD
    requires call.request.Acknowledge? ==> response.Acknowledged?
    ensures Reply(t, limits, call) == response && ServedAs(t, After(t, limits, call), call, data', response)
  {
    ExecuteData(t, call.user, call.id, call.request, call.env);
    ExecuteKeeps(t, call.user, call.id, call.request, call.env);
    Settled(t, limits, call);
    Recorded(t, call, Execute(t, call.user, call.id, call.request, call.env).tables, response);
  }

  function Kept(receipts: set<MessageId>, id: MessageId): set<MessageId> {
    if id.Random? then receipts else receipts + {id}
  }

  lemma ServedAt(t: Tables, t': Tables, s: Stage, call: Call, data': Tables, response: Response)
    requires RelayAt(t, s) && ServedAs(t, t', call, data', response) && Charge(call.request) <= PRICE
    requires call.id.Random? ==> call.id.bits <= s.next
    ensures RelayAt(t', s.(data := data', next := s.next + 1, receipts := Kept(s.receipts, call.id)))
    ensures !call.request.Acknowledge? ==>
              Used(t'.usageSender, call.user) == Used(t.usageSender, call.user) + Charge(call.request)
  {
    JournalAt(t.journal, JournalRow(call.user, call.id, call.request, response), s.next, s.receipts);
    LedgersAt(t, t', call.user, call.request, s.next * PRICE);
  }

  function Replied(s: Stage, user: UserId, id: MessageId, data': Tables, db': Database): Stage
    requires user in USERS
  {
    With(s, user, db').(data := data', next := s.next + 1, receipts := Kept(s.receipts, id))
  }

  /** A waiting request is sent and served. */
  lemma SendsAndServes(w: World, limits: Limits, s: Stage, user: UserId, id: MessageId, env: Environment,
                       data': Tables, response: Response)
    returns (w': World)
    requires Stands(w, s) && user in USERS && id in Db(s, user).outbox && Lookup(w.relay.journal, user, id).None?
    requires id.Random? ==> id.bits <= s.next
    requires var request := Db(s, user).outbox[id].request;
             && IsDurable(request) && RequestSize(request) <= MAX_PAYLOAD && Charge(request) <= PRICE
             && Admitted(w.relay, limits, Call(user, id, request, env))
             && Execute(s.data, user, id, request, env) == Done(data', response)
             && (request.Acknowledge? ==> response.Acknowledged?)
    requires !IsTransient(response) && ResponseSize(response) <= MAX_PAYLOAD
    ensures Leads(w, limits, w') && w'.clients == w.clients && w'.issued == w.issued && w'.intended == w.intended
    ensures Answered(Message(user, id, Db(s, user).outbox[id].request), response) in w'.answers
    ensures RelayAt(w'.relay, s.(data := data', next := s.next + 1, receipts := Kept(s.receipts, id)))
    ensures var request := Db(s, user).outbox[id].request;
            !request.Acknowledge? ==>
              Used(w'.relay.usageSender, user) == Used(w.relay.usageSender, user) + Charge(request)
  {
    var request := Db(s, user).outbox[id].request;
    var message := Message(user, id, request);
    var w1 := w.(sent := w.sent + {message});
    assert w1 == Moved(w, limits, Send(user, id));
    LeadsOne(w, limits, Send(user, id));
    var call := Call(user, id, request, env);
    ServesAs(w.relay, limits, call, data', response);
    ServedAt(w.relay, After(w.relay, limits, call), s, call, data', response);
    w' := Served(w1, limits, message, env);
    assert w' == Moved(w1, limits, Serve(message, env));
    LeadsOne(w1, limits, Serve(message, env));
    LeadsOn(w, limits, w1, w');
  }

  /** A waiting request is sent, served and answered. */
  lemma Exchanges(w: World, limits: Limits, s: Stage, user: UserId, id: MessageId, env: Environment, data': Tables,
                  response: Response, db': Database)
    returns (w': World)
    requires Stands(w, s) && user in USERS && id in Db(s, user).outbox && Lookup(w.relay.journal, user, id).None?
    requires id.Random? ==> id.bits <= s.next
    requires var request := Db(s, user).outbox[id].request;
             && IsDurable(request) && RequestSize(request) <= MAX_PAYLOAD && Charge(request) <= PRICE
             && Admitted(w.relay, limits, Call(user, id, request, env))
             && Execute(s.data, user, id, request, env) == Done(data', response)
             && (request.Acknowledge? ==> response.Acknowledged?)
    requires !IsTransient(response) && ResponseSize(response) <= MAX_PAYLOAD
    requires Goes(Db(s, user), user, Answer(id, response), db')
    ensures Leads(w, limits, w') && Stands(w', Replied(s, user, id, data', db'))
    ensures var request := Db(s, user).outbox[id].request;
            !request.Acknowledge? ==>
              Used(w'.relay.usageSender, user) == Used(w.relay.usageSender, user) + Charge(request)
  {
    var served := SendsAndServes(w, limits, s, user, id, env, data', response);
    w' := Acted(served, user, Answer(id, response), db');
    GoesNext(Db(s, user), user, Answer(id, response), db');
    ActMoves(served, limits, user, Answer(id, response), db');
    LeadsOne(served, limits, Act(user, Answer(id, response)));
    LeadsOn(w, limits, served, w');
    AnsweredAt(served, s, user, id, response, data', db');
  }

  lemma AnsweredAt(w: World, s: Stage, user: UserId, id: MessageId, response: Response, data': Tables, db': Database)
    requires user in USERS && ClientsAt(w.clients, s) && AllBelow(w.issued.Keys, s.next)
    requires AllBelow(w.intended.Keys, s.next)
    requires RelayAt(w.relay, s.(data := data', next := s.next + 1, receipts := Kept(s.receipts, id)))
    ensures Stands(Acted(w, user, Answer(id, response), db'), Replied(s, user, id, data', db'))
  {}

  // ----- a read is answered -----

  lemma Reads(t: Tables, limits: Limits, s: Stage, call: Call, response: Response)
    requires RelayAt(t, s) && !IsDurable(call.request) && !call.request.SyncIndex? && call.id == Random(s.next)
    requires RequestSize(call.request) <= MAX_PAYLOAD
    requires Execute(s.data, call.user, call.id, call.request, call.env) == Done(s.data, response)
    ensures After(t, limits, call) == t && Reply(t, limits, call) == response
  {
    ExecuteData(t, call.user, call.id, call.request, call.env);
  }

  /** The relay answers the read with this, whatever its environment. */
  ghost predicate Shows(data: Tables, user: UserId, id: MessageId, request: Request, response: Response) {
    forall env :: Execute(data, user, id, request, env) == Done(data, response)
  }

  /** What a client may do with an answer to a read. */
  predicate Follows(db: Database, response: Response, action: Action) {
    match action
    case Receive(event) => response.RoomEvents? && event in response.events
    case Store(page) =>
      response.Welcomes? && response.afterCursor == db.welcomeCursor && response.welcomes == page
    case _ => false
  }

  /** A read is sent and served, and the client acts on the answer. */
  lemma Learns(w: World, limits: Limits, s: Stage, user: UserId, request: Request, response: Response,
               action: Action, db': Database)
    returns (w': World)
    requires Stands(w, s) && user in USERS && !IsDurable(request) && !request.SyncIndex?
    requires RequestSize(request) <= MAX_PAYLOAD
    requires Shows(s.data, user, Random(s.next), request, response)
    requires Follows(Db(s, user), response, action)
    requires Goes(Db(s, user), user, action, db')
    ensures Leads(w, limits, w') && Stands(w', With(s, user, db').(next := s.next + 2)) && w'.relay == w.relay
  {
    var w1 := ReadsOf(w, limits, s, user, request, response);
    LearnsFrom(w1, s, user, request, response, action);
    w' := Acted(w1, user, action, db');
    GoesNext(Db(s, user), user, action, db');
    ActMoves(w1, limits, user, action, db');
    LeadsOne(w1, limits, Act(user, action));
    LeadsOn(w, limits, w1, w');
    DoesAt(w1, s.(next := s.next + 1), user, action, db');
  }

  lemma LearnsFrom(w: World, s: Stage, user: UserId, request: Request, response: Response, action: Action)
    requires user in USERS && Answered(Message(user, Random(s.next), request), response) in w.answers
    requires Follows(Db(s, user), response, action)
    ensures Justified(w, user, Db(s, user), action)
  {
    var answer := Answered(Message(user, Random(s.next), request), response);
    assert answer in w.answers && answer.message.user == user;
  }

  lemma ReadsOf(w: World, limits: Limits, s: Stage, user: UserId, request: Request, response: Response)
    returns (w': World)
    requires Stands(w, s) && user in USERS && !IsDurable(request) && !request.SyncIndex?
    requires RequestSize(request) <= MAX_PAYLOAD
    requires Shows(s.data, user, Random(s.next), request, response)
    ensures Leads(w, limits, w') && Stands(w', s.(next := s.next + 1)) && w'.relay == w.relay
    ensures Answered(Message(user, Random(s.next), request), response) in w'.answers
  {
    var id := Random(s.next);
    var message := Message(user, id, request);
    assert id !in w.issued.Keys;
    var w1 := w.(sent := w.sent + {message}, issued := w.issued[id := message]);
    assert w1 == Moved(w, limits, Read(user, id, request));
    LeadsOne(w, limits, Read(user, id, request));
    assert Execute(s.data, user, id, request, ENV) == Done(s.data, response);
    Reads(w.relay, limits, s, Call(user, id, request, ENV), response);
    w' := Served(w1, limits, message, ENV);
    assert w' == Moved(w1, limits, Serve(message, ENV));
    LeadsOne(w1, limits, Serve(message, ENV));
    LeadsOn(w, limits, w1, w');
  }

  /** There is room for another request under limits of a mebibyte. */
  predicate Roomy(limits: Limits) {
    limits.global >= 0x10_0000 && limits.sender >= 0x10_0000 && limits.room >= 0x10_0000
  }

  lemma Cheap(t: Tables, limits: Limits, s: Stage, user: UserId, request: Request)
    requires RelayAt(t, s) && Roomy(limits) && s.next <= 60
    requires RequestSize(request) <= MAX_PAYLOAD && Charge(request) <= PRICE
    ensures Affordable(t, limits, user, request)
  {}

  // ----- whole scenes -----

  /** The relay does this with the request, whatever its limits. */
  ghost predicate Performs(data: Tables, user: UserId, id: MessageId, request: Request, data': Tables,
                           response: Response)
  {
    forall limits :: Execute(data, user, id, request, Idle(limits, request, 0)) == Done(data', response)
  }

  /** Small enough for everything that counts bytes. */
  predicate Small(request: Request, response: Response) {
    RequestSize(request) <= 200 && ResponseSize(response) <= 200 && !IsTransient(response) && IsDurable(request)
  }

  function Ordered(s: Stage, user: UserId, data': Tables, db': Database): Stage
    requires user in USERS
  {
    With(s, user, db').(data := data', next := s.next + 2)
  }

  predicate Asking(db: Database, id: MessageId, request: Request) {
    id in db.outbox && db.outbox[id].request == request
  }

  lemma OrdersAre(s: Stage, user: UserId, db: Database, data': Tables, db': Database)
    requires user in USERS
    ensures Replied(Stepped(s, user, db), user, Random(s.next), data', db') == Ordered(s, user, data', db')
  {}

  /** A client draws up a request that the relay can afford, and gets its answer. */
  lemma Buys(w: World, limits: Limits, s: Stage, user: UserId, action: Action, db: Database, request: Request,
             data': Tables, response: Response, db': Database)
    returns (w': World)
    requires Stands(w, s) && user in USERS && Affordable(w.relay, limits, user, request)
    requires Own(action, s.next)
    requires Goes(Db(s, user), user, action, db) && Asking(db, Random(s.next), request)
    requires !request.Acknowledge? && Small(request, response)
    requires Performs(s.data, user, Random(s.next), request, data', response)
    requires Goes(db, user, Answer(Random(s.next), response), db')
    ensures Leads(w, limits, w') && Stands(w', Ordered(s, user, data', db'))
    ensures Used(w'.relay.usageSender, user) == Used(w.relay.usageSender, user) + Charge(request)
  {
    var id, env := Random(s.next), Idle(limits, request, 0);
    var s1 := Stepped(s, user, db);
    var w1 := Does(w, limits, s, user, action, db);
    assert Lookup(w1.relay.journal, user, id).None?;
    assert Execute(s.data, user, id, request, env) == Done(data', response);
    IdleAdmits(w1.relay, limits, user, request, 0);
    w' := Exchanges(w1, limits, s1, user, id, env, data', response, db');
    LeadsOn(w, limits, w1, w');
    OrdersAre(s, user, db, data', db');
  }

  /** A client draws up a request and gets its answer, while the ledgers are almost empty. */
  lemma Orders(w: World, limits: Limits, s: Stage, user: UserId, action: Action, db: Database, request: Request,
               data': Tables, response: Response, db': Database)
    returns (w': World)
    requires Stands(w, s) && Roomy(limits) && s.next <= 60 && user in USERS
    requires Own(action, s.next)
    requires Goes(Db(s, user), user, action, db) && Asking(db, Random(s.next), request)
    requires !request.Acknowledge? && Small(request, response)
    requires Performs(s.data, user, Random(s.next), request, data', response)
    requires Goes(db, user, Answer(Random(s.next), response), db')
    ensures Leads(w, limits, w') && Stands(w', Ordered(s, user, data', db'))
  {
    Cheap(w.relay, limits, s, user, request);
    w' := Buys(w, limits, s, user, action, db, request, data', response, db');
  }

  function Confirmed(s: Stage, user: UserId, id: MessageId, db': Database): Stage
    requires user in USERS
  {
    With(s, user, db').(next := s.next + 1, receipts := s.receipts + {id})
  }

  /** A receipt is sent and taken. */
  lemma Confirms(w: World, limits: Limits, s: Stage, user: UserId, id: MessageId, request: Request, db': Database)
    returns (w': World)
    requires Stands(w, s) && user in USERS && Asking(Db(s, user), id, request) && id !in s.receipts
    requires request.Acknowledge? && |request.events| + |request.welcomes| == 1
    requires id == AcknowledgementId(user, request.events, request.welcomes) && Small(request, Acknowledged)
    requires Performs(s.data, user, id, request, s.data, Acknowledged)
    requires Goes(Db(s, user), user, Answer(id, Acknowledged), db')
    ensures Leads(w, limits, w') && Stands(w', Confirmed(s, user, id, db'))
  {
    var env := Idle(limits, request, 0);
    assert Execute(s.data, user, id, request, env) == Done(s.data, Acknowledged);
    w' := Exchanges(w, limits, s, user, id, env, s.data, Acknowledged, db');
  }
}
