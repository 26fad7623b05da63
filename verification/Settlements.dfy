/**
  What honest clients ask for and what the relay's journaled answers say: every request fits
  one message, every key package belongs to its publisher, and every journaled answer to an
  attempt is one the client can act on.
 */
module Settlements {
  import opened Records
  import opened Sizes
  import opened RelaySpec
  import opened RelayInvariants
  import opened ClientSpec
  import opened ClientInvariants
  import opened ClientTheorems
  import opened World
  import opened Sync
  import opened WorldInvariant
  import opened Once
  import opened Agreement
  import HistoryAgreement
  import Pages

  predicate Lawful(message: Message) {
    && (IsDurable(message.request) ==> Fits(message.request))
    && (message.request.PublishKeyPackages? ==> OwnPackages(message.user, message.request.packages))
  }

  predicate IssuedLawful(issued: map<MessageId, Message>) { forall id :: id in issued ==> Lawful(issued[id]) }

  /** A package in the pool is its owner's and can be handed out. */
  predicate PackageTrue(row: PackageRow) {
    row.package.content == KeyPackageMessage(row.user) && |row.package.bytes| <= MAX_KEY_PACKAGE_BYTES
  }

  predicate PoolsTrue(packages: seq<PackageRow>) {
    forall i :: 0 <= i < |packages| ==> PackageTrue(packages[i])
  }

  predicate NamesOk(rooms: map<RoomId, Room>) {
    forall room :: room in rooms ==> Utf8Size(rooms[room].name) <= 400
  }

  /** The answer ends the attempt or puts its event into the log. */
  predicate Settles(user: UserId, id: MessageId, request: Request, response: Response) {
    match request
    case AppendRoomOperation(operation) =>
      || response == AppendAccepted(Event(id, user, operation))
      || (response.HeadConflict? && response.room == operation.room && response.head != operation.parent)
      || (response.Rejected? && !IsTransient(response))
    case ReserveKeyPackage(recipient) =>
      || (response.KeyPackage? && response.recipient == recipient
          && response.package.content == KeyPackageMessage(recipient))
      || (response.Rejected? && !IsTransient(response))
    case _ => true
  }

  predicate JournalSettles(journal: seq<JournalRow>) {
    forall i :: 0 <= i < |journal| ==> Settles(journal[i].user, journal[i].id, journal[i].request, journal[i].response)
  }

  /** Only contacts are to be added. */
  predicate TargetsKnown(db: Database) {
    forall room :: room in db.intents && db.intents[room].target.Some? ==>
      db.intents[room].target.value in db.contacts
  }

  ghost predicate AllKnown(clients: map<UserId, Client>) {
    forall user :: user in clients ==> TargetsKnown(clients[user].db)
  }

  ghost predicate Orderly(w: World) {
    && IssuedLawful(w.issued) && AllKnown(w.clients)
    && PoolsTrue(w.relay.packages) && NamesOk(w.relay.rooms) && JournalSettles(w.relay.journal)
  }

  // ----- what the relay answers -----

  lemma {:induction false} PoolTrue(packages: seq<PackageRow>, user: UserId)
    requires PoolsTrue(packages)
    ensures forall i :: 0 <= i < |Pool(packages, user)| ==> PackageTrue(PackageRow(user, Pool(packages, user)[i]))
  {
    if packages != [] {
      assert PackageTrue(packages[0]);
      PoolTrue(packages[1..], user);
    }
  }

  lemma {:induction false} WithoutTrue(packages: seq<PackageRow>, user: UserId)
    requires PoolsTrue(packages)
    ensures PoolsTrue(WithoutFirst(packages, user))
  {
    if packages != [] {
      assert PackageTrue(packages[0]);
      WithoutTrue(packages[1..], user);
    }
  }

  /** A result that is not transient is what the operation answered. */
  lemma ReserveReply(t: Tables, limits: Limits, call: Call)
    requires call.request.ReserveKeyPackage? && Lookup(t.journal, call.user, call.id).None?
    requires !IsTransient(Reply(t, limits, call))
    ensures Reply(t, limits, call) == ExecuteReserve(t, call.user, call.request.recipient, call.env).response
  {}

  lemma ReplySettles(t: Tables, limits: Limits, call: Call)
    requires PoolsTrue(t.packages) && Lookup(t.journal, call.user, call.id).None?
    requires !IsTransient(Reply(t, limits, call))
    ensures Settles(call.user, call.id, call.request, Reply(t, limits, call))
  {
    if call.request.AppendRoomOperation? {
      HistoryAgreement.AppendReply(t, limits, call);
    } else if call.request.ReserveKeyPackage? {
      ReserveReply(t, limits, call);
      PoolTrue(t.packages, call.request.recipient);
    }
  }

  /** Packages the relay accepts are within its bounds. */
  lemma PublishedBounds(t: Tables, t': Tables, limits: Limits, call: Call)
    requires Lookup(t.journal, call.user, call.id).None? && call.request.PublishKeyPackages?
    requires Reply(t, limits, call).KeyPackagesPublished?
    ensures !PublishInvalid(call.request.packages)
  {}

  lemma PublishedTrue(packages: seq<PackageRow>, user: UserId, published: seq<Blob>)
    requires PoolsTrue(packages) && OwnPackages(user, published) && !PublishInvalid(published)
    ensures PoolsTrue(packages + PackageRows(user, published))
  {}

  lemma PoolKept(t: Tables, limits: Limits, message: Message, env: Environment)
    requires SubscribedRoomsExist(t) && PoolsTrue(t.packages) && Lawful(message)
    ensures PoolsTrue(After(t, limits, Call(message.user, message.id, message.request, env)).packages)
  {
    var call := Call(message.user, message.id, message.request, env);
    var t', reply := After(t, limits, call), Reply(t, limits, call);
    DeliverEffect(t, limits, call);
    if t' != t {
      assert Data(t').packages == t'.packages;
      if PackagesPublished(t, t', call, reply) {
        PublishedBounds(t, t', limits, call);
        PublishedTrue(t.packages, message.user, message.request.packages);
      } else if PackageReserved(t, t', call, reply) {
        WithoutTrue(t.packages, message.request.recipient);
      }
    }
  }

  lemma NamesKept(t: Tables, limits: Limits, call: Call)
    requires SubscribedRoomsExist(t) && NamesOk(t.rooms)
    ensures NamesOk(After(t, limits, call).rooms)
  {
    var t', reply := After(t, limits, call), Reply(t, limits, call);
    DeliverEffect(t, limits, call);
    if t' != t {
      assert Data(t').rooms == t'.rooms;
      if RoomMade(t, t', call, reply) { Pages.NameBound(call.request.name); }
    }
  }

  lemma JournalKept(t: Tables, limits: Limits, call: Call)
    requires SubscribedRoomsExist(t) && PoolsTrue(t.packages) && JournalSettles(t.journal)
    ensures JournalSettles(After(t, limits, call).journal)
  {
    DeliverEffect(t, limits, call);
    if After(t, limits, call) != t {
      ReplySettles(t, limits, call);
    }
  }

  lemma SentLawful(w: World, limits: Limits, message: Message)
    requires Good(w, limits) && IssuedLawful(w.issued) && message in w.sent && message.id.Random?
    ensures Lawful(message)
  {
    assert Issued(w.issued, message);
  }

  lemma ServeOrderly(w: World, limits: Limits, message: Message, env: Environment)
    requires Good(w, limits) && Orderly(w) && message in w.sent
    ensures Orderly(Served(w, limits, message, env))
  {
    var call := Call(message.user, message.id, message.request, env);
    assert Issued(w.issued, message);
    if message.id.Random? {
      PoolKept(w.relay, limits, message, env);
    } else {
      ReceiptPool(w.relay, limits, call);
    }
    NamesKept(w.relay, limits, call);
    JournalKept(w.relay, limits, call);
  }

  lemma ReceiptPool(t: Tables, limits: Limits, call: Call)
    requires SubscribedRoomsExist(t) && call.request.Acknowledge?
    ensures After(t, limits, call).packages == t.packages
  {
    DeliverEffect(t, limits, call);
    if After(t, limits, call) != t {
      assert Data(After(t, limits, call)).packages == After(t, limits, call).packages;
    }
  }

  // ----- what a client asks for -----

  lemma ActLawful(w: World, user: UserId, action: Action, db': Database)
    requires IssuedLawful(w.issued) && user in w.clients && Next(w.clients[user].db, user, action) == Some(db')
    ensures IssuedLawful(Acted(w, user, action, db').issued)
  {
    var db := w.clients[user].db;
    if action.Issue? {
      assert db'.outbox[action.id].request == action.request;
    } else if action.Build? {
      BuiltRequest(db, user, action.room, action.id, action.bytes, db');
    }
  }

  lemma BuiltRequest(db: Database, user: UserId, room: RoomId, id: MessageId, bytes: Ciphertext, db': Database)
    requires Next(db, user, Build(room, id, bytes)) == Some(db')
    ensures id in db'.outbox && Fits(db'.outbox[id].request) && !db'.outbox[id].request.PublishKeyPackages?
  {
    var intent := db.intents[room];
    if intent.package.Some? {
      assert BuildAdd(db, user, room, intent, id, bytes).Some?;
    } else if intent.target.None? {
      assert BuildSend(db, user, room, intent, id, bytes).Some?;
    }
  }

  lemma IntentsKnown(t: Tables, user: UserId, db: Database, action: Action, db': Database)
    requires TargetsKnown(db) && Attempted(t, user, db, action, db') && db.contacts <= db'.contacts
    ensures TargetsKnown(db')
  {
    forall room | room in db'.intents && db'.intents[room].target.Some?
      ensures db'.intents[room].target.value in db'.contacts
    {
      assert IntentStep(t, user, db'.outbox, action, room, db.intents[room], db'.intents[room]);
    }
  }

  lemma IntendKnown(db: Database, user: UserId, room: RoomId, intent: Intent, db': Database)
    requires TargetsKnown(db) && Next(db, user, Intend(room, intent)) == Some(db')
    ensures TargetsKnown(db')
  {}

  lemma ContactsGrow(db: Database, user: UserId, starts: Starts, action: Action, db': Database)
    requires Disciplined(db, user, starts) && Next(db, user, action) == Some(db')
    ensures db.contacts <= db'.contacts
  {
    StepKept(db, user, starts, action, db');
  }

  lemma ActTargets(w: World, limits: Limits, user: UserId, action: Action, db': Database)
    requires Good(w, limits) && AllKnown(w.clients) && user in w.clients
    requires Justified(w, user, w.clients[user].db, action) && Next(w.clients[user].db, user, action) == Some(db')
    ensures TargetsKnown(db')
  {
    var client := w.clients[user];
    assert ClientGood(w.relay, w.issued, user, client) && TargetsKnown(client.db);
    if action.Intend? {
      IntendKnown(client.db, user, action.room, action.intent, db');
    } else {
      StepTargets(w, limits, user, action, client.db, db');
    }
  }

  lemma StepTargets(w: World, limits: Limits, user: UserId, action: Action, db: Database, db': Database)
    requires Good(w, limits) && user in w.clients && db == w.clients[user].db && TargetsKnown(db) && !action.Intend?
    requires Justified(w, user, db, action) && Next(db, user, action) == Some(db')
    ensures TargetsKnown(db')
  {
    assert ClientGood(w.relay, w.issued, user, w.clients[user]);
    IntentsStepped(w, limits, user, action, db, db');
    ContactsGrow(db, user, w.clients[user].starts, action, db');
    IntentsKnown(w.relay, user, db, action, db');
  }

  lemma ActOrderly(w: World, limits: Limits, user: UserId, action: Action, db': Database)
    requires Good(w, limits) && Orderly(w) && user in w.clients
    requires Justified(w, user, w.clients[user].db, action) && Next(w.clients[user].db, user, action) == Some(db')
    ensures Orderly(Acted(w, user, action, db'))
  {
    ActLawful(w, user, action, db');
    ActTargets(w, limits, user, action, db');
  }

  // ----- every run -----

  lemma QuietOrderly(w: World, limits: Limits, move: Move)
    requires Orderly(w) && Enabled(w, move) && (move.Send? || move.Read? || move.Refuse?)
    ensures Orderly(Moved(w, limits, move))
  {}

  lemma MoveOrderly(w: World, limits: Limits, move: Move)
    requires Good(w, limits) && Orderly(w)
    ensures Orderly(Moved(w, limits, move))
  {
    if !Enabled(w, move) {
      assert Moved(w, limits, move) == w;
    } else if move.Serve? {
      ServeOrderly(w, limits, move.message, move.env);
    } else if move.Act? {
      ActOrderly(w, limits, move.user, move.action, Next(w.clients[move.user].db, move.user, move.action).value);
    } else {
      QuietOrderly(w, limits, move);
    }
  }

  lemma {:induction false} RunOrderly(w: World, limits: Limits, moves: seq<Move>)
    requires Good(w, limits) && Orderly(w)
    ensures Good(RunWorld(w, limits, moves), limits) && Orderly(RunWorld(w, limits, moves))
    decreases |moves|
  {
    if moves != [] {
      MoveGood(w, limits, moves[0]);
      MoveOrderly(w, limits, moves[0]);
      RunOrderly(Moved(w, limits, moves[0]), limits, moves[1..]);
    }
  }

  lemma StartOrderly(users: set<UserId>)
    ensures Orderly(Start(users))
  {}

  /** Every journaled answer to an attempt is one the client can act on. */
  lemma ReachedOrderly(users: set<UserId>, limits: Limits, moves: seq<Move>)
    ensures Good(Reached(users, limits, moves), limits) && Orderly(Reached(users, limits, moves))
  {
    StartGood(users, limits);
    StartOrderly(users);
    RunOrderly(Start(users), limits, moves);
  }
}
