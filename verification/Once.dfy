/** An intent takes effect at most once: no two attempts of one intent ever reach a log. */
module Once {
  import opened Records
  import opened RelaySpec
  import opened RelayInvariants
  import opened ClientSpec
  import opened ClientInvariants
  import opened ClientTheorems
  import opened LogFacts
  import opened World
  import opened Sync
  import opened SyncSteps
  import opened SyncApply
  import opened SyncBuild
  import opened WorldInvariant

  /** The journal holds an acceptance under this identifier of this user. */
  ghost predicate Accepted(t: Tables, user: UserId, id: MessageId) {
    Lookup(t.journal, user, id).Some? && Lookup(t.journal, user, id).value.response.AppendAccepted?
  }

  /** The attempt may still take effect, or has taken effect. */
  ghost predicate Live(w: World, id: MessageId) {
    && id in w.issued
    && var user := w.issued[id].user;
       (user in w.clients && id in w.clients[user].db.outbox) || Accepted(w.relay, user, id)
  }

  /** The operation does what the intent asked for. */
  predicate Fulfils(message: Message, purpose: Purpose) {
    && message.user == purpose.user
    && (message.request.AppendRoomOperation? ==>
          var operation := message.request.operation;
          && operation.room == purpose.room
          && (operation.body.content.ApplicationMessage? ==>
                purpose.plaintext == Some(operation.body.content.plaintext))
          && (operation.body.content.CommitMessage? ==> purpose.target == Some(operation.body.content.added)))
  }

  ghost predicate OriginsTrue(w: World) {
    && (forall id :: id in w.origin ==>
          id.Random? && id in w.issued && w.origin[id] in w.intended && Fulfils(w.issued[id], w.intended[w.origin[id]]))
    && (forall id :: id in w.issued && w.issued[id].request.AppendRoomOperation? ==> id in w.origin)
  }

  predicate IntentTrue(w: World, user: UserId, room: RoomId, intent: Intent) {
    && intent.id in w.intended
    && w.intended[intent.id] == Purpose(user, room, intent.target, intent.plaintext)
    && (intent.attempt.Some? ==> intent.attempt.value in w.origin && w.origin[intent.attempt.value] == intent.id)
  }

  ghost predicate IntentsTrue(w: World) {
    forall user, room :: user in w.clients && room in w.clients[user].db.intents ==>
      IntentTrue(w, user, room, w.clients[user].db.intents[room])
  }

  /** Attempts of one intent are never live together. */
  ghost predicate OneLive(w: World) {
    forall a, b :: a in w.origin && b in w.origin && w.origin[a] == w.origin[b] && Live(w, a) && Live(w, b) ==> a == b
  }

  /** While an intent exists, its live attempt is the one it names. */
  ghost predicate LiveIsNamed(w: World, user: UserId, room: RoomId)
    requires user in w.clients && room in w.clients[user].db.intents
  {
    var intent := w.clients[user].db.intents[room];
    forall id :: id in w.origin && w.origin[id] == intent.id && Live(w, id) ==> intent.attempt == Some(id)
  }

  ghost predicate LivesNamed(w: World) {
    forall user, room :: user in w.clients && room in w.clients[user].db.intents ==> LiveIsNamed(w, user, room)
  }

  /** The journal holds a conflict for the append, or the package for the reservation. */
  ghost predicate Superseded(t: Tables, user: UserId, id: MessageId) {
    && Lookup(t.journal, user, id).Some?
    && var response := Lookup(t.journal, user, id).value.response; response.HeadConflict? || response.KeyPackage?
  }

  /** Every earlier attempt of an intent was superseded before the next one was built. */
  ghost predicate RebuiltOnly(w: World, user: UserId, room: RoomId)
    requires user in w.clients && room in w.clients[user].db.intents
  {
    var intent := w.clients[user].db.intents[room];
    forall id :: id in w.origin && w.origin[id] == intent.id && intent.attempt != Some(id) ==>
      Superseded(w.relay, user, id)
  }

  ghost predicate Rebuilds(w: World) {
    forall user, room :: user in w.clients && room in w.clients[user].db.intents ==> RebuiltOnly(w, user, room)
  }

  ghost predicate OnceOk(w: World) {
    OriginsTrue(w) && IntentsTrue(w) && OneLive(w) && LivesNamed(w) && Rebuilds(w)
  }

  // ----- one step of a client -----

  /** An attempt that is gone for good. */
  ghost predicate Dead(t: Tables, user: UserId, outbox: map<MessageId, OutboxRow>, id: MessageId) {
    id !in outbox && Superseded(t, user, id)
  }

  /** An intent keeps its purpose; its attempt starts, stays, or ends without effect. */
  ghost predicate IntentStep(
    t: Tables, user: UserId, outbox': map<MessageId, OutboxRow>, action: Action, room: RoomId, intent: Intent,
    intent': Intent)
  {
    && intent'.id == intent.id && intent'.target == intent.target && intent'.plaintext == intent.plaintext
    && (|| intent'.attempt == intent.attempt
        || (intent'.attempt == None && intent.attempt.Some? && Dead(t, user, outbox', intent.attempt.value))
        || (intent.attempt == None && action.Build? && action.room == room && intent'.attempt == Some(action.id)))
  }

  ghost predicate IntentsStep(t: Tables, user: UserId, db: Database, db': Database, action: Action) {
    forall room :: room in db'.intents ==>
      room in db.intents && IntentStep(t, user, db'.outbox, action, room, db.intents[room], db'.intents[room])
  }

  /** The attempt goes, together with its intent or without it. */
  ghost predicate Ends(db: Database, db': Database, id: MessageId) {
    && db'.outbox == db.outbox - {id}
    && forall room :: room in db'.intents ==>
         room in db.intents
         && (db'.intents[room] == db.intents[room]
             || (db.intents[room].attempt == Some(id) && db'.intents[room].attempt == None
                 && db'.intents[room].id == db.intents[room].id
                 && db'.intents[room].target == db.intents[room].target
                 && db'.intents[room].plaintext == db.intents[room].plaintext))
  }

  /** The attempt goes together with its intent; every other intent stays. */
  ghost predicate Drops(db: Database, db': Database, id: MessageId) {
    && db'.outbox == db.outbox - {id}
    && forall room :: room in db'.intents ==> room in db.intents && db'.intents[room] == db.intents[room]
  }

  lemma EndsStep(t: Tables, user: UserId, db: Database, db': Database, id: MessageId, action: Action)
    requires Drops(db, db', id) || (Ends(db, db', id) && Superseded(t, user, id))
    ensures IntentsStep(t, user, db, db', action)
  {}

  lemma CompleteEnds(db: Database, user: UserId, id: MessageId, request: Request, response: Response, db': Database)
    requires Complete(db, user, id, request, response) == Some(db')
    ensures || db'.intents == db.intents || Drops(db, db', id)
            || (Ends(db, db', id) && !IsTransient(response) && (response.HeadConflict? || response.KeyPackage?))
    ensures response.AppendAccepted? || IsTransient(response) ==> db'.intents == db.intents
  {
    if request.AppendRoomOperation? && response.HeadConflict? {
      ConflictEnds(db, id, request.operation, db');
    } else if response.Rejected? && !IsTransient(response) {
      RefusalEnds(db, id, request, db');
    }
  }

  lemma ConflictEnds(db: Database, id: MessageId, operation: Append, db': Database)
    requires CompleteConflict(db, id, operation) == Some(db')
    ensures Ends(db, db', id)
  {}

  lemma RefusalEnds(db: Database, id: MessageId, request: Request, db': Database)
    requires CompleteRefusal(db, id, request) == Some(db')
    ensures Drops(db, db', id)
  {}

  lemma AnswerIntents(t: Tables, user: UserId, db: Database, id: MessageId, response: Response, db': Database)
    requires id in db.outbox && IsDurable(db.outbox[id].request) && AttemptsOk(db)
    requires AnswerTrue(t, Message(user, id, db.outbox[id].request), response)
    requires Next(db, user, Action.Answer(id, response)) == Some(db')
    ensures IntentsStep(t, user, db, db', Action.Answer(id, response))
  {
    CompleteEnds(db, user, id, db.outbox[id].request, response, db');
    if db'.intents != db.intents {
      if db.outbox[id].request.Acknowledge? {
        NotAttempted(db, id);
      } else {
        EndsStep(t, user, db, db', id, Action.Answer(id, response));
      }
    }
  }

  lemma ApplyIntents(t: Tables, user: UserId, db: Database, event: Event, db': Database)
    requires event.operation.room in db.groups
    requires event.sender == user ==> ApplyOwn(db, user, event) == Some(db')
    requires event.sender != user ==> ApplyOther(db, user, event) == Some(db')
    ensures IntentsStep(t, user, db, db', Apply(event))
  {
    if event.sender == user {
      ApplyOwnIntents(db, user, event, db');
    } else {
      ApplyOtherIntents(db, user, event, db');
    }
  }

  lemma ApplyOwnIntents(db: Database, user: UserId, event: Event, db': Database)
    requires ApplyOwn(db, user, event) == Some(db') && event.operation.room in db.groups
    ensures db'.intents == DropIntents(db.intents, event.id)
  {
    ApplyOwnIs(db, user, event, db');
  }

  lemma ApplyOtherIntents(db: Database, user: UserId, event: Event, db': Database)
    requires ApplyOther(db, user, event) == Some(db')
    ensures db'.intents == db.intents
  {
    match ProcessBound(db, user, event) {
      case Failure =>
      case FaultBlocked =>
      case FaultRejected => FinishIs(db, user, event, Refused, db');
      case Opened(db1, plaintext) =>
        OpenedFrame(db, user, event, db1, plaintext);
        FinishIs(Remember(db1, event, plaintext), user, event, Applied, db');
    }
  }

  lemma ProcessIntents(db: Database, user: UserId, cursor: nat, keyAvailable: bool)
    requires cursor in db.welcomes
    ensures ProcessWelcome(db, user, cursor, keyAvailable).intents == db.intents
  {
    var db' := ProcessWelcome(db, user, cursor, keyAvailable);
    ProcessCases(db, user, cursor, keyAvailable);
    if db' != MarkWelcome(db, cursor, Stuck) {
      var welcome := db.welcomes[cursor].record;
      JoinIs(db, user, cursor, welcome, keyAvailable, welcome.attachment.body.content.group, db');
    }
  }

  lemma BuildIntents(
    t: Tables, user: UserId, db: Database, room: RoomId, id: MessageId, bytes: Ciphertext, db': Database)
    requires BuildEffect(db, user, room, id, db') && db.intents[room].attempt.None?
    ensures IntentsStep(t, user, db, db', Build(room, id, bytes))
  {
    assert db'.intents == db.intents[room := db.intents[room].(attempt := Some(id))];
  }

  /** What a step of a client other than a new intent does to its attempts. */
  ghost predicate Attempted(t: Tables, user: UserId, db: Database, action: Action, db': Database) {
    && IntentsStep(t, user, db, db', action)
    && (action.Build? ==> BuildEffect(db, user, action.room, action.id, db')
                          && action.room in db.intents && db.intents[action.room].attempt.None?)
    && (action.Issue? ==> action.id in db'.outbox && IsCommand(db'.outbox[action.id].request))
    && !action.Intend?
  }

  lemma BuildAttempted(
    t: Tables, user: UserId, db: Database, room: RoomId, id: MessageId, bytes: Ciphertext, db': Database)
    requires GroupsTrue(t, user, db.cursors, db.groups) && db.groups.Keys == db.cursors.Keys && PackagesTrue(db.intents)
    requires Next(db, user, Build(room, id, bytes)) == Some(db')
    ensures Attempted(t, user, db, Build(room, id, bytes), db')
  {
    BuildAttemptEffect(db, user, room, id, bytes, db');
    BuildIntents(t, user, db, room, id, bytes, db');
  }

  lemma OtherAttempted(t: Tables, user: UserId, db: Database, action: Action, db': Database)
    requires action.Import? || action.Issue? || action.Receive? || action.Store? || action.Process?
    requires Next(db, user, action) == Some(db')
    ensures Attempted(t, user, db, action, db')
  {
    if action.Process? {
      ProcessIntents(db, user, action.cursor, action.keyAvailable);
    }
    assert db'.intents == db.intents;
  }

  lemma ApplyAttempted(t: Tables, user: UserId, db: Database, event: Event, db': Database)
    requires Next(db, user, Apply(event)) == Some(db')
    ensures Attempted(t, user, db, Apply(event), db')
  {
    ApplyIntents(t, user, db, event, db');
  }

  lemma IntentsStepped(w: World, limits: Limits, user: UserId, action: Action, db: Database, db': Database)
    requires Good(w, limits) && user in w.clients && db == w.clients[user].db
    requires Justified(w, user, db, action) && Next(db, user, action) == Some(db') && !action.Intend?
    ensures Attempted(w.relay, user, db, action, db')
  {
    assert ClientGood(w.relay, w.issued, user, w.clients[user]);
    AnyAttempted(w, user, w.clients[user].starts, action, db, db');
  }

  lemma AnyAttempted(w: World, user: UserId, starts: Starts, action: Action, db: Database, db': Database)
    requires AnswersTrue(w.relay, w.answers) && OutboxDurable(db.outbox) && AttemptsOk(db)
    requires GroupsTrue(w.relay, user, db.cursors, db.groups) && db.groups.Keys == db.cursors.Keys
    requires PackagesTrue(db.intents)
    requires Justified(w, user, db, action) && Next(db, user, action) == Some(db') && !action.Intend?
    ensures Attempted(w.relay, user, db, action, db')
  {
    match action {
      case Build(room, id, bytes) => BuildAttempted(w.relay, user, db, room, id, bytes, db');
      case Answer(id, response) =>
        assert AnswerTrue(w.relay, Message(user, id, db.outbox[id].request), response);
        AnswerIntents(w.relay, user, db, id, response, db');
      case Apply(event) => ApplyAttempted(w.relay, user, db, event, db');
      case _ => OtherAttempted(w.relay, user, db, action, db');
    }
  }

  // ----- which attempts are live after a step -----

  /** Only the new attempt can come to life. */
  ghost predicate LiveShrinks(w: World, w': World, drawn: Option<MessageId>) {
    forall id :: id in w'.origin && Live(w', id) ==> (id in w.origin && Live(w, id)) || drawn == Some(id)
  }

  lemma ActedLive(w: World, user: UserId, action: Action, db': Database)
    requires user in w.clients && OriginsTrue(w)
    requires NewId(action).Some? ==> New(w.issued, NewId(action).value)
    requires OutboxStep(w.relay, user, w.clients[user].db.outbox, db'.outbox, NewId(action))
    ensures LiveShrinks(w, Acted(w, user, action, db'), NewId(action))
  {
    var w' := Acted(w, user, action, db');
    forall id | id in w'.origin && Live(w', id) && NewId(action) != Some(id) ensures id in w.origin && Live(w, id) {
      assert w'.issued[id] == w.issued[id];
    }
  }

  // ----- the parts are kept -----

  lemma OneLiveKept(w: World, w': World, drawn: Option<MessageId>)
    requires OneLive(w) && LiveShrinks(w, w', drawn)
    requires forall id :: id in w.origin && drawn != Some(id) ==> id in w'.origin && w'.origin[id] == w.origin[id]
    requires drawn.Some? && drawn.value in w'.origin ==>
               forall id :: id in w.origin && w.origin[id] == w'.origin[drawn.value] ==> !Live(w, id)
    ensures OneLive(w')
  {}

  ghost predicate Acts(w: World, w': World, user: UserId, action: Action, db': Database) {
    && user in w.clients && w' == Acted(w, user, action, db')
    && (NewId(action).Some? ==> New(w.issued, NewId(action).value))
    && OutboxStep(w.relay, user, w.clients[user].db.outbox, db'.outbox, NewId(action))
    && Attempted(w.relay, user, w.clients[user].db, action, db')
  }

  lemma BuiltFulfils(user: UserId, db: Database, room: RoomId, id: MessageId, db': Database, purpose: Purpose)
    requires BuildEffect(db, user, room, id, db')
    requires purpose == Purpose(user, room, db.intents[room].target, db.intents[room].plaintext)
    ensures Fulfils(Message(user, id, db'.outbox[id].request), purpose)
  {}

  lemma ActedOrigins(w: World, w': World, user: UserId, action: Action, db': Database)
    requires OriginsTrue(w) && IntentsTrue(w) && Acts(w, w', user, action, db')
    ensures OriginsTrue(w')
  {
    if action.Build? {
      var db := w.clients[user].db;
      assert IntentTrue(w, user, action.room, db.intents[action.room]);
      BuiltFulfils(user, db, action.room, action.id, db', w.intended[db.intents[action.room].id]);
    }
  }

  lemma ActedIntents(w: World, w': World, user: UserId, action: Action, db': Database)
    requires OriginsTrue(w) && IntentsTrue(w) && Acts(w, w', user, action, db')
    ensures IntentsTrue(w')
  {
    forall u, room | u in w'.clients && room in w'.clients[u].db.intents
      ensures IntentTrue(w', u, room, w'.clients[u].db.intents[room])
    {
      ActedIntent(w, w', user, action, db', u, room);
    }
  }

  lemma ActedIntent(w: World, w': World, user: UserId, action: Action, db': Database, u: UserId, room: RoomId)
    requires OriginsTrue(w) && IntentsTrue(w) && Acts(w, w', user, action, db')
    requires u in w'.clients && room in w'.clients[u].db.intents
    ensures IntentTrue(w', u, room, w'.clients[u].db.intents[room])
  {
    assert IntentTrue(w, u, room, w.clients[u].db.intents[room]);
    if u == user {
      assert IntentStep(w.relay, user, db'.outbox, action, room, w.clients[u].db.intents[room], db'.intents[room]);
    }
  }

  lemma ActedOne(w: World, w': World, user: UserId, action: Action, db': Database)
    requires OnceOk(w) && Acts(w, w', user, action, db')
    ensures OneLive(w')
  {
    ActedLive(w, user, action, db');
    if action.Build? {
      NoneLive(w, user, action.room);
    }
    OneLiveKept(w, w', NewId(action));
  }

  /** An intent without an attempt has no live one. */
  lemma NoneLive(w: World, user: UserId, room: RoomId)
    requires LivesNamed(w) && user in w.clients && room in w.clients[user].db.intents
    requires w.clients[user].db.intents[room].attempt.None?
    ensures forall id :: id in w.origin && w.origin[id] == w.clients[user].db.intents[room].id ==> !Live(w, id)
  {
    assert LiveIsNamed(w, user, room);
  }

  /** Another client's intent, or one whose attempt did not change. */
  lemma NamedSame(w: World, w': World, user: UserId, action: Action, db': Database, u: UserId, room: RoomId)
    requires OnceOk(w) && Acts(w, w', user, action, db') && LiveShrinks(w, w', NewId(action))
    requires u in w'.clients && room in w'.clients[u].db.intents && (u != user || room in w.clients[u].db.intents)
    requires var intent, intent' := w.clients[u].db.intents[room], w'.clients[u].db.intents[room];
             intent'.id == intent.id && (intent'.attempt == intent.attempt || (u == user && intent.attempt.Some?
               && Dead(w.relay, user, db'.outbox, intent.attempt.value)))
    requires !(action.Build? && u == user && room == action.room)
    ensures LiveIsNamed(w', u, room)
  {
    var intent, intent' := w.clients[u].db.intents[room], w'.clients[u].db.intents[room];
    assert LiveIsNamed(w, u, room) && IntentTrue(w, u, room, intent);
    assert action.Build? ==> IntentTrue(w, user, action.room, w.clients[user].db.intents[action.room]);
    forall id | id in w'.origin && w'.origin[id] == intent'.id && Live(w', id) ensures intent'.attempt == Some(id) {
      assert NewId(action) != Some(id) ==> id in w.origin && Live(w, id);
    }
  }

  lemma ActedNamed(w: World, w': World, user: UserId, action: Action, db': Database)
    requires OnceOk(w) && Acts(w, w', user, action, db')
    ensures LivesNamed(w')
  {
    ActedLive(w, user, action, db');
    forall u, room | u in w'.clients && room in w'.clients[u].db.intents ensures LiveIsNamed(w', u, room) {
      if u == user {
        assert IntentStep(w.relay, user, db'.outbox, action, room, w.clients[u].db.intents[room], db'.intents[room]);
      }
      if action.Build? && u == user && room == action.room {
        assert LiveIsNamed(w, user, room);
      } else {
        NamedSame(w, w', user, action, db', u, room);
      }
    }
  }

  // ----- all moves -----

  lemma IntendOnce(w: World, user: UserId, room: RoomId, intent: Intent, db': Database)
    requires OnceOk(w) && user in w.clients && intent.id !in w.intended && intent.attempt.None?
    requires room !in w.clients[user].db.intents
    requires db' == w.clients[user].db.(intents := w.clients[user].db.intents[room := intent])
    ensures OnceOk(Acted(w, user, Intend(room, intent), db'))
  {
    var w' := Acted(w, user, Intend(room, intent), db');
    assert forall id :: Live(w', id) <==> Live(w, id);
    forall u, r | u in w'.clients && r in w'.clients[u].db.intents
      ensures IntentTrue(w', u, r, w'.clients[u].db.intents[r]) && LiveIsNamed(w', u, r) && RebuiltOnly(w', u, r)
    {
      if u != user || r != room {
        assert IntentTrue(w, u, r, w.clients[u].db.intents[r]) && LiveIsNamed(w, u, r) && RebuiltOnly(w, u, r);
      }
    }
  }

  lemma ActOnce(w: World, limits: Limits, user: UserId, action: Action, db': Database)
    requires Good(w, limits) && OnceOk(w) && user in w.clients && Justified(w, user, w.clients[user].db, action)
    requires Next(w.clients[user].db, user, action) == Some(db')
    ensures OnceOk(Acted(w, user, action, db'))
  {
    if action.Intend? {
      IntendStepOnce(w, user, action.room, action.intent, db');
    } else {
      ActsHere(w, limits, user, action, db');
      ActedOnce(w, Acted(w, user, action, db'), user, action, db');
    }
  }

  lemma IntendStepOnce(w: World, user: UserId, room: RoomId, intent: Intent, db': Database)
    requires OnceOk(w) && user in w.clients && intent.id !in w.intended
    requires Next(w.clients[user].db, user, Intend(room, intent)) == Some(db')
    ensures OnceOk(Acted(w, user, Intend(room, intent), db'))
  {
    IntendOnce(w, user, room, intent, db');
  }

  lemma ActsHere(w: World, limits: Limits, user: UserId, action: Action, db': Database)
    requires Good(w, limits) && user in w.clients && Justified(w, user, w.clients[user].db, action) && !action.Intend?
    requires Next(w.clients[user].db, user, action) == Some(db')
    ensures Acts(w, Acted(w, user, action, db'), user, action, db')
  {
    IntentsStepped(w, limits, user, action, w.clients[user].db, db');
    ActedClientGood(w, limits, user, action, db');
  }

  lemma ActedOnce(w: World, w': World, user: UserId, action: Action, db': Database)
    requires OnceOk(w) && Acts(w, w', user, action, db')
    ensures OnceOk(w')
  {
    ActedOrigins(w, w', user, action, db');
    ActedIntents(w, w', user, action, db');
    ActedOne(w, w', user, action, db');
    ActedNamed(w, w', user, action, db');
    ActedRebuilds(w, w', user, action, db');
  }

  /** An attempt that is no longer the intent's was superseded just now or before. */
  lemma RebuiltStep(w: World, w': World, user: UserId, action: Action, db': Database, u: UserId, room: RoomId)
    requires OnceOk(w) && Acts(w, w', user, action, db')
    requires u in w'.clients && room in w'.clients[u].db.intents
    ensures RebuiltOnly(w', u, room)
  {
    if u == user {
      assert IntentStep(w.relay, user, db'.outbox, action, room, w.clients[u].db.intents[room], db'.intents[room]);
    }
    assert RebuiltOnly(w, u, room) && IntentTrue(w, u, room, w.clients[u].db.intents[room]);
    assert action.Build? ==> IntentTrue(w, user, action.room, w.clients[user].db.intents[action.room]);
  }

  lemma ActedRebuilds(w: World, w': World, user: UserId, action: Action, db': Database)
    requires OnceOk(w) && Acts(w, w', user, action, db')
    ensures Rebuilds(w')
  {
    forall u, room | u in w'.clients && room in w'.clients[u].db.intents ensures RebuiltOnly(w', u, room) {
      RebuiltStep(w, w', user, action, db', u, room);
    }
  }

  /** Nothing the invariant reads has changed, and nothing has come to life. */
  lemma QuietOnce(w: World, w': World)
    requires OnceOk(w) && w'.clients == w.clients && w'.origin == w.origin && w'.intended == w.intended
    requires forall id :: id in w.issued ==> id in w'.issued && w'.issued[id] == w.issued[id]
    requires forall id :: id in w'.issued && w'.issued[id].request.AppendRoomOperation? ==> id in w.issued
    requires forall id :: id in w.origin && Live(w', id) ==> Live(w, id)
    requires forall user, id :: Superseded(w.relay, user, id) ==> Superseded(w'.relay, user, id)
    ensures OnceOk(w')
  {
    forall user, room | user in w'.clients && room in w'.clients[user].db.intents
      ensures IntentTrue(w', user, room, w'.clients[user].db.intents[room]) && LiveIsNamed(w', user, room)
      ensures RebuiltOnly(w', user, room)
    {
      assert IntentTrue(w, user, room, w.clients[user].db.intents[room]) && LiveIsNamed(w, user, room);
      assert RebuiltOnly(w, user, room);
    }
  }

  /** An accepted attempt was in its outbox. */
  lemma ServeLive(w: World, limits: Limits, t': Tables, call: Call, reply: Response, id: MessageId)
    requires Good(w, limits) && Issued(w.issued, Message(call.user, call.id, call.request))
    requires Effect(w.relay, t', limits, call, reply)
    requires id.Random? && Live(w.(relay := t'), id)
    ensures Live(w, id)
  {
    var user := w.issued[id].user;
    if Accepted(t', user, id) && !Accepted(w.relay, user, id) {
      NewlyAccepted(w.relay, t', limits, call, reply, user, id);
      AcceptedFromOutbox(w, limits, t', call, reply);
    }
  }

  lemma NewlyAccepted(
    t: Tables, t': Tables, limits: Limits, call: Call, reply: Response, user: UserId, id: MessageId)
    requires Effect(t, t', limits, call, reply) && Accepted(t', user, id) && !Accepted(t, user, id)
    ensures t' != t && EventAppended(t, t', call, reply) && call.user == user && call.id == id
  {
    LookupAppend(t.journal, JournalRow(call.user, call.id, call.request, reply), user, id);
  }

  lemma ServeOnce(w: World, limits: Limits, message: Message, env: Environment)
    requires Good(w, limits) && OnceOk(w) && message in w.sent
    ensures OnceOk(Served(w, limits, message, env))
  {
    var call := Call(message.user, message.id, message.request, env);
    var t', reply := After(w.relay, limits, call), Reply(w.relay, limits, call);
    DeliverEffect(w.relay, limits, call);
    var w' := Served(w, limits, message, env);
    forall id | id in w.origin && Live(w', id) ensures Live(w, id) {
      assert Live(w.(relay := t'), id);
      ServeLive(w, limits, t', call, reply, id);
    }
    forall user, id | Superseded(w.relay, user, id) ensures Superseded(w'.relay, user, id) {
      StaysSuperseded(w.relay, limits, call, user, id);
    }
    QuietOnce(w, w');
  }

  lemma StaysSuperseded(t: Tables, limits: Limits, call: Call, user: UserId, id: MessageId)
    requires SubscribedRoomsExist(t) && Superseded(t, user, id)
    ensures Superseded(After(t, limits, call), user, id)
  {
    DeliverEffect(t, limits, call);
    LookupAppend(t.journal, JournalRow(call.user, call.id, call.request, Reply(t, limits, call)), user, id);
  }

  lemma SentOnce(w: World, sent: set<Message>, answers: set<Answered>)
    requires OnceOk(w)
    ensures OnceOk(w.(sent := sent, answers := answers))
  {
    QuietOnce(w, w.(sent := sent, answers := answers));
  }

  lemma ReadOnce(w: World, user: UserId, id: MessageId, request: Request)
    requires OnceOk(w) && New(w.issued, id) && !IsDurable(request)
    ensures OnceOk(w.(sent := w.sent + {Message(user, id, request)},
                      issued := w.issued[id := Message(user, id, request)]))
  {
    var message := Message(user, id, request);
    QuietOnce(w, w.(sent := w.sent + {message}, issued := w.issued[id := message]));
  }

  lemma MoveOnce(w: World, limits: Limits, move: Move)
    requires Good(w, limits) && OnceOk(w)
    ensures OnceOk(Moved(w, limits, move))
  {
    if Enabled(w, move) {
      match move {
        case Act(user, action) => ActOnce(w, limits, user, action, Next(w.clients[user].db, user, action).value);
        case Serve(message, env) => ServeOnce(w, limits, message, env);
        case _ => QuietMoveOnce(w, limits, move);
      }
    }
  }

  lemma QuietMoveOnce(w: World, limits: Limits, move: Move)
    requires OnceOk(w) && Enabled(w, move) && (move.Send? || move.Read? || move.Refuse?)
    ensures OnceOk(Moved(w, limits, move))
  {
    match move {
      case Send(user, id) =>
        SentOnce(w, w.sent + {Message(user, id, w.clients[user].db.outbox[id].request)}, w.answers);
      case Read(user, id, request) => ReadOnce(w, user, id, request);
      case Refuse(message) => SentOnce(w, w.sent, w.answers + {Answered(message, Rejected(Overloaded))});
    }
  }

  lemma {:induction false} RunOnce(w: World, limits: Limits, moves: seq<Move>)
    requires Good(w, limits) && OnceOk(w)
    ensures Good(RunWorld(w, limits, moves), limits) && OnceOk(RunWorld(w, limits, moves))
    decreases |moves|
  {
    if moves != [] {
      MoveGood(w, limits, moves[0]);
      MoveOnce(w, limits, moves[0]);
      RunOnce(Moved(w, limits, moves[0]), limits, moves[1..]);
    }
  }

  /** An event of a log fulfils the intent it was built from. */
  lemma LoggedOrigin(w: World, limits: Limits, event: Event)
    requires Good(w, limits) && OnceOk(w) && InLog(w.relay, event)
    ensures event.id in w.origin && w.origin[event.id] in w.intended
    ensures Fulfils(Message(event.sender, event.id, AppendRoomOperation(event.operation)),
                    w.intended[w.origin[event.id]])
    ensures Live(w, event.id)
  {
    LogJournaled(w.relay, event);
    LookupFinds(w.relay.journal, event.sender, event.id);
  }

  lemma ReachedOnce(users: set<UserId>, limits: Limits, moves: seq<Move>)
    ensures Good(RunWorld(Start(users), limits, moves), limits) && OnceOk(RunWorld(Start(users), limits, moves))
  {
    StartGood(users, limits);
    RunOnce(Start(users), limits, moves);
  }

  /** At most one logical effect: on every run, every event of every log carries out an intent
      of its sender in its room, and no intent ever puts two events into the logs. */
  lemma AtMostOnce(users: set<UserId>, limits: Limits, moves: seq<Move>, a: Event, b: Event)
    ensures var w := RunWorld(Start(users), limits, moves);
            InLog(w.relay, a) && InLog(w.relay, b) ==>
              && a.id in w.origin && w.origin[a.id] in w.intended
              && Fulfils(Message(a.sender, a.id, AppendRoomOperation(a.operation)), w.intended[w.origin[a.id]])
              && b.id in w.origin
              && (w.origin[a.id] == w.origin[b.id] ==> a == b)
  {
    var w := RunWorld(Start(users), limits, moves);
    if InLog(w.relay, a) && InLog(w.relay, b) {
      ReachedOnce(users, limits, moves);
      LoggedOnce(w, limits, a, b);
    }
  }

  lemma LoggedOnce(w: World, limits: Limits, a: Event, b: Event)
    requires Good(w, limits) && OnceOk(w) && InLog(w.relay, a) && InLog(w.relay, b)
    ensures a.id in w.origin && w.origin[a.id] in w.intended && b.id in w.origin
    ensures Fulfils(Message(a.sender, a.id, AppendRoomOperation(a.operation)), w.intended[w.origin[a.id]])
    ensures w.origin[a.id] == w.origin[b.id] ==> a == b
  {
    LoggedOrigin(w, limits, a);
    LoggedOrigin(w, limits, b);
    LogJournaled(w.relay, a);
    LogJournaled(w.relay, b);
    if a.id == b.id { SameAccepted(w, limits, a, b); }
  }

  lemma SameAccepted(w: World, limits: Limits, a: Event, b: Event)
    requires Good(w, limits) && Journaled(w.relay, AcceptedAs(a)) && Journaled(w.relay, AcceptedAs(b)) && a.id == b.id
    ensures a == b
  {
    LookupFinds(w.relay.journal, a.sender, a.id);
    LookupFinds(w.relay.journal, b.sender, b.id);
    SameRequest(w.issued, Message(a.sender, a.id, AppendRoomOperation(a.operation)),
                Message(b.sender, b.id, AppendRoomOperation(b.operation)));
  }
}
