/**
  The client's engine as the object it is (crates/grotto-client/src/delivery.rs and
  mls_session.rs): durable tables, a cache of at most eight MLS groups in memory, and
  transactions that either commit or put the tables back and drop the cache. The answers of
  the relay are an arbitrary script. Every method is proved to take only steps of `Next`.
 */
module Engines {
  import opened Records
  import opened RoomNames
  import opened ClientSpec
  import opened ClientInvariants
  import opened ClientTheorems
  import opened SortedSets
  import opened OutboxPages
  import opened LateAdds

  const CACHED_GROUPS := 8

  /** How an incoming MLS message was processed. */
  datatype Verdict = Opens(plaintext: Option<seq<byte>>) | Blocks | Rejects | Fails

  /** Attempts carry random identifiers. */
  predicate AttemptsDrawn(intents: map<RoomId, Intent>) {
    forall room :: room in intents && intents[room].attempt.Some? ==> intents[room].attempt.value.Random?
  }

  /** The attempt is in the outbox and fits a request. */
  predicate Sendable(db: Database, id: MessageId) { id in db.outbox && Fits(db.outbox[id].request) }

  predicate Yields(built: Option<Database>, id: MessageId) { built.Some? && Sendable(built.value, id) }

  /** The room has to wait before anything new is built in it. */
  predicate Waits(db: Database, room: RoomId) { !HasGroup(db, room) || Backlog(db, room) }

  /** The room's intent has an attempt or has to wait. */
  predicate Tried(db: Database, room: RoomId) {
    room in db.intents && (db.intents[room].attempt.Some? || Waits(db, room))
  }

  predicate AllTried(db: Database) { forall room :: room in db.intents ==> Tried(db, room) }

  /** The next event of the room is received but cannot be applied yet. */
  predicate Stalled(db: Database, room: RoomId) {
    exists id :: id in db.inbox && At(db.inbox[id], room, Cursor(db, room)) && db.inbox[id].state == Stuck
  }

  /** What a Welcome needs to be joined. */
  predicate Joinable(db: Database, room: RoomId, body: Blob, keyAvailable: bool) {
    && body.content.WelcomeMessage? && keyAvailable && body.content.room == room
    && body.content.group.roster <= db.contacts
  }

  /** The event does not have to wait. */
  predicate Moves(db: Database, user: UserId, event: Event) {
    event.sender == user || !ProcessBound(db, user, event).FaultBlocked?
  }

  /** The events continue the cursor without a gap, and all are in the inbox. */
  predicate Arrived(db: Database, room: RoomId, events: seq<Event>, cursor: nat) {
    forall j :: 0 <= j < |events| ==>
      events[j].operation.room == room && events[j].operation.parent == cursor + j
      && events[j].id in db.inbox && db.inbox[events[j].id].event == events[j]
  }

  lemma LastArrived(db: Database, room: RoomId, events: seq<Event>, i: nat, cursor: nat)
    requires i < |events| && Arrived(db, room, events[..i], cursor)
    ensures i > 0 ==> HasRowAt(db, room, cursor + i - 1)
  {
    if i > 0 {
      assert events[..i][i - 1] == events[i - 1];
      assert At(db.inbox[events[i - 1].id], room, cursor + i - 1);
    }
  }

  lemma ArrivedMore(db: Database, db': Database, room: RoomId, events: seq<Event>, i: nat, cursor: nat)
    requires i < |events| && Arrived(db, room, events[..i], cursor)
    requires events[i].operation.room == room && events[i].operation.parent == cursor + i
    requires events[i].id in db'.inbox && db'.inbox[events[i].id].event == events[i]
    requires forall id :: id in db.inbox ==> id in db'.inbox && db'.inbox[id] == db.inbox[id]
    ensures Arrived(db', room, events[..i + 1], cursor)
  {
    forall j | 0 <= j < i
      ensures events[j].operation.room == room && events[j].operation.parent == cursor + j
              && events[j].id in db'.inbox && db'.inbox[events[j].id].event == events[j]
    {
      assert events[..i][j] == events[j];
    }
  }

  // ----- runs -----

  lemma RunOne(db: Database, starts: Starts, user: UserId, action: Action, db': Database)
    requires Next(db, user, action) == Some(db')
    ensures RunClient(Client(db, starts), user, [action]) == Client(db', NewStarts(starts, db'))
  {
    var client := Client(db, starts);
    assert RunClient(client, user, [action]) == RunClient(Step(client, user, action), user, []);
  }

  /** The tests of `BuildAttempts` are the guards of the step. */
  lemma BuildIsStep(db: Database, user: UserId, room: RoomId, id: MessageId, bytes: Ciphertext, db': Database)
    requires Unseen(db, id) && room in db.intents && db.intents[room].attempt.None? && HasGroup(db, room)
    requires !Backlog(db, room) && Encrypted(db.intents[room], bytes)
    requires BuildAttempt(db, user, room, id, bytes) == Some(db')
    requires Sendable(db', id)
    ensures Next(db, user, Build(room, id, bytes)) == Some(db')
  {}

  /** Some random identifier has not been used. */
  lemma UnseenExists(db: Database)
    ensures exists id :: Unseen(db, id)
  {
    var attempts := set room | room in db.intents && db.intents[room].attempt.Some? :: db.intents[room].attempt.value;
    var used := db.outbox.Keys + db.inbox.Keys + db.history.Keys + attempts;
    var bits := set id | id in used && id.Random? :: id.bits;
    var n: nat := 0;
    if bits != {} {
      GreatestExists(bits);
      var greatest: nat :| IsGreatest(greatest, bits);
      n := greatest + 1;
    }
    assert Random(n) !in used by {
      assert Random(n) in used ==> n in bits;
    }
    forall room | room in db.intents ensures db.intents[room].attempt != Some(Random(n)) {
      assert db.intents[room].attempt.Some? ==> db.intents[room].attempt.value in attempts;
    }
    assert Unseen(db, Random(n));
  }

  ghost predicate CachesOnly(cache: map<RoomId, GroupState>, db: Database, user: UserId) {
    && |cache| <= CACHED_GROUPS
    && user in db.contacts
    && (forall room :: room in cache ==>
          room in db.groups && cache[room] == db.groups[room] && cache[room].group.roster <= db.contacts)
    && (forall room :: room in db.groups && db.groups[room].pending.Some? ==>
          db.groups[room].pending.value.roster <= db.contacts)
    && AttemptsDrawn(db.intents)
  }

  lemma StillCaches(cache: map<RoomId, GroupState>, db: Database, db': Database, user: UserId)
    requires CachesOnly(cache, db, user) && db'.groups == db.groups && db'.contacts == db.contacts
    requires AttemptsDrawn(db'.intents)
    ensures CachesOnly(cache, db', user)
  {}

  lemma ClaimedCaches(cache: map<RoomId, GroupState>, db: Database, event: Event, db': Database, user: UserId)
    requires CachesOnly(cache, db, user)
    requires db' == db.(outbox := db.outbox - {event.id}, intents := DropIntents(db.intents, event.id),
                        history := SetSequence(db.history, event.id, event.operation.parent + 1))
    ensures db' == Claim(db, event) && CachesOnly(cache, db', user)
  {
    StillCaches(cache, db, db', user);
  }

  /** A Welcome that is not verified, or whose key is gone, only gets its mark. */
  lemma Outcomes(db: Database, user: UserId, cursor: nat)
    requires cursor in db.welcomes
    ensures var welcome := db.welcomes[cursor].record;
            forall keyAvailable :: ClientSpec.ProcessWelcome(db, user, cursor, keyAvailable) ==
              if !WelcomeVerified(db, user, welcome) then MarkWelcome(db, cursor, Stuck)
              else
                match ClientSpec.JoinRoom(db, user, cursor, welcome, keyAvailable)
                case None => MarkWelcome(db, cursor, Stuck)
                case Some(joined) => joined
    ensures ClientSpec.JoinRoom(db, user, cursor, db.welcomes[cursor].record, false) == None
  {}

  class Engine {
    const user: UserId
    var db: Database
    var cache: map<RoomId, GroupState>
    var script: seq<Response>
    /** A statement or a commit of the current transaction has failed. */
    var faulty: bool
    ghost var starts: Starts

    /** What every run of steps keeps, row identifiers included. */
    ghost predicate Sane()
      reads this
    {
      Disciplined(db, user, starts) && RowidsUnique(db.outbox)
    }

    /** Every cached group is the durable one and has verified members only, and so has every
        group that a pending commit leads to. */
    ghost predicate Coherent()
      reads this
    {
      CachesOnly(cache, db, user)
    }

    ghost function View(): Client
      reads this
    {
      Client(db, starts)
    }

    /** A client that starts or restarts: the tables are kept, memory is empty. */
    constructor (user: UserId, db: Database, ghost starts: Starts)
      requires Disciplined(db, user, starts)
      ensures this.user == user && this.db == db && this.starts == starts && Coherent()
    {
      this.user := user;
      this.db := db;
      cache := map[];
      this.starts := starts;
      script := [];
      faulty := false;
      DrawnByDiscipline(db, user, starts);
    }

    // ----- writing -----

    /** Any statement may fail, and so may a commit. */
    method Succeeds() returns (ok: bool)
      modifies `faulty
      ensures if ok then faulty == old(faulty) else faulty
    {
      ok := *;
      if !ok { faulty := true; }
    }

    /** One statement: the tables change, or it fails and they do not. */
    method Store(next: Database) returns (ok: bool)
      modifies `db, `faulty
      ensures if ok then db == next && faulty == old(faulty) else db == old(db) && faulty
    {
      ok := Succeeds();
      if ok { db := next; }
    }

    /** A failed transaction puts the tables back and drops every cached group, however far either
        had come. */
    method Abort(saved: Database)
      modifies `db, `cache
      ensures db == saved && cache == map[]
    {
      db := saved;
      cache := map[];
    }

    // ----- the MLS session -----

    /** Load a group into the cache unless it is there; a full cache is emptied first. */
    method GroupMut(room: RoomId) returns (found: bool)
      requires Coherent()
      modifies `cache
      ensures Coherent()
      ensures found == HasGroup(db, room)
      ensures found ==> room in cache
      ensures !found ==> room !in cache && |cache| < CACHED_GROUPS
    {
      if room !in cache {
        if |cache| >= CACHED_GROUPS {
          cache := map[];
        }
        if room !in db.groups { return false; }
        if !(db.groups[room].group.roster <= db.contacts) { return false; }
        cache := cache[room := db.groups[room]];
      }
      return true;
    }

    /** Write the cached group through to the tables. If the write fails, the cached group stays
        ahead of the tables until the transaction is aborted. */
    method Persist(room: RoomId) returns (ok: bool)
      requires room in cache
      modifies `db, `faulty
      ensures if ok then db == WithGroup(old(db), room, cache[room]) && faulty == old(faulty)
              else db == old(db) && faulty
    {
      ok := Store(db.(groups := db.groups[room := cache[room]]));
    }

    method CreateGroup(room: RoomId) returns (ok: bool)
      requires Coherent()
      modifies `db, `cache, `faulty
      ensures ok ==> Coherent() && db == ClientSpec.CreateGroup(old(db), user, room)
      ensures !ok ==> db == old(db) && faulty
    {
      ok := GroupMut(room);
      if !ok {
        cache := cache[room := GroupState(Group(0, {user}), None, 0)];
        ok := Persist(room);
      }
    }

    method EncryptBound(room: RoomId, plaintext: seq<byte>, binding: Binding)
      returns (ok: bool, epoch: nat, body: Content)
      requires Coherent()
      modifies `db, `cache, `faulty
      ensures var encrypted := ClientSpec.EncryptBound(old(db), user, room, plaintext, binding);
              if ok then Coherent() && encrypted.Built? && db == encrypted.db && epoch == encrypted.epoch
                         && body == encrypted.body
              else db == old(db) && (faulty || encrypted.NotBuilt?)
    {
      epoch, body := 0, Malformed;
      ok := GroupMut(room);
      if !ok { return; }
      if cache[room].pending.Some? { return false, 0, Malformed; }
      epoch := cache[room].group.epoch;
      body := ApplicationMessage(epoch, user, binding, plaintext);
      cache := cache[room := cache[room].(ratchet := cache[room].ratchet + 1)];
      ok := Persist(room);
    }

    method BuildPendingAdd(room: RoomId, package: Blob, binding: Binding)
      returns (ok: bool, epoch: nat, body: Content, welcome: Content)
      requires Coherent()
      modifies `db, `cache, `faulty
      ensures var built := ClientSpec.BuildPendingAdd(old(db), user, room, package, binding);
              if ok then Coherent() && built.Built? && db == built.db && epoch == built.epoch && body == built.body
                         && welcome == built.welcome
              else db == old(db) && (faulty || built.NotBuilt?)
    {
      ok, epoch, body, welcome := false, 0, Malformed, Malformed;
      if !package.content.KeyPackageMessage? { return; }
      var found := GroupMut(room);
      if !found || cache[room].pending.Some? { return; }
      var owner := package.content.owner;
      var group := cache[room].group;
      if owner in group.roster || owner !in db.contacts { return; }
      epoch, body := group.epoch, CommitMessage(group, user, binding, owner);
      welcome := WelcomeMessage(room, Added(group, owner));
      cache := cache[room := cache[room].(pending := Some(Added(group, owner)))];
      ok := Persist(room);
    }

    method DiscardPending(room: RoomId) returns (ok: bool)
      requires Coherent()
      modifies `db, `cache, `faulty
      ensures ok ==> Coherent() && ClientSpec.DiscardPending(old(db), room) == Some(db)
      ensures !ok ==> db == old(db) && (faulty || ClientSpec.DiscardPending(old(db), room) == None)
    {
      ok := GroupMut(room);
      if ok {
        cache := cache[room := cache[room].(pending := None)];
        ok := Persist(room);
      }
    }

    method ApplyAcceptedCommit(room: RoomId) returns (ok: bool)
      requires Coherent()
      modifies `db, `cache, `faulty
      ensures ok ==> Coherent() && ClientSpec.ApplyAcceptedCommit(old(db), room) == Some(db)
      ensures !ok ==> db == old(db) && (faulty || ClientSpec.ApplyAcceptedCommit(old(db), room) == None)
    {
      ok := GroupMut(room);
      if !ok { return; }
      if cache[room].pending.None? { return false; }
      cache := cache[room := GroupState(cache[room].pending.value, None, cache[room].ratchet)];
      ok := Persist(room);
    }

    /** The library opens a message and moves the cached group before the binding is checked:
        after a fault the cache may be ahead of the tables, and the caller drops it. */
    method ProcessBound(event: Event) returns (verdict: Verdict)
      requires Coherent()
      modifies `db, `cache, `faulty
      ensures match ClientSpec.ProcessBound(old(db), user, event)
              case Opened(db1, plaintext) =>
                if verdict.Fails? then db == old(db) && faulty
                else verdict == Opens(plaintext) && db == db1 && Coherent()
              case FaultBlocked => verdict == Blocks && db == old(db)
              case FaultRejected => verdict == Rejects && db == old(db)
              case Failure => verdict == Fails && db == old(db)
    {
      var operation := event.operation;
      var room := operation.room;
      var content := operation.body.content;
      if !content.ApplicationMessage? && !content.CommitMessage? { return Rejects; }
      var epoch := if content.ApplicationMessage? then content.epoch else content.base.epoch;
      if epoch != operation.epoch { return Rejects; }
      var found := GroupMut(room);
      if !found { return Fails; }
      var state := cache[room];
      if epoch != state.group.epoch {
        return if epoch > state.group.epoch then Blocks else Rejects;
      }
      var plaintext := None;
      if content.sender !in state.group.roster || content.sender == user { return Rejects; }
      if content.ApplicationMessage? {
        cache := cache[room := state.(ratchet := state.ratchet + 1)];
        plaintext := Some(content.plaintext);
      } else {
        if content.base != state.group || content.added in state.group.roster { return Rejects; }
        if content.added !in db.contacts { return Blocks; }
        cache := cache[room := GroupState(Added(state.group, content.added), None, state.ratchet + 1)];
      }
      if operation.contentType != (if content.ApplicationMessage? then Application else Commit) { return Rejects; }
      if content.sender != event.sender || content.binding != Binding(room, event.id, operation.parent) {
        return Rejects;
      }
      var ok := Persist(room);
      return if ok then Opens(plaintext) else Fails;
    }

    method Join(room: RoomId, body: Blob, keyAvailable: bool) returns (ok: bool)
      requires Coherent() && !HasGroup(db, room)
      modifies `db, `cache, `faulty
      ensures ok ==> Coherent() && Joinable(old(db), room, body, keyAvailable)
                     && db == WithGroup(old(db), room, GroupState(body.content.group, None, 0))
      ensures !ok ==> db == old(db) && (faulty || !Joinable(old(db), room, body, keyAvailable))
    {
      var found := GroupMut(room);
      if !body.content.WelcomeMessage? || !keyAvailable { return false; }
      if body.content.room != room { return false; }
      if !(body.content.group.roster <= db.contacts) { return false; }
      cache := cache[room := GroupState(body.content.group, None, 0)];
      ok := Persist(room);
    }

    // ----- completing an outbox entry -----

    /** Discard a pending commit, remove the entry, its history row and its mark in the intent. */
    method CompleteConflict(id: MessageId, operation: Append) returns (ok: bool)
      requires Coherent()
      modifies `db, `cache, `faulty
      ensures ok ==> Coherent() && ClientSpec.CompleteConflict(old(db), id, operation) == Some(db)
      ensures !ok ==> faulty || ClientSpec.CompleteConflict(old(db), id, operation) == None
    {
      if operation.contentType == Commit {
        ok := DiscardPending(operation.room);
        if !ok { return; }
      }
      ok := Store(RemoveOutbox(db, id));
      if !ok { return; }
      ok := Store(db.(history := db.history - {id}));
      if !ok { return; }
      ok := Store(db.(intents := Detach(db.intents, id)));
    }

    method CompleteRefusal(id: MessageId, request: Request) returns (ok: bool)
      requires Coherent()
      modifies `db, `cache, `faulty
      ensures ok ==> Coherent() && ClientSpec.CompleteRefusal(old(db), id, request) == Some(db)
      ensures !ok ==> faulty || ClientSpec.CompleteRefusal(old(db), id, request) == None
    {
      if request.AppendRoomOperation? && request.operation.contentType == Commit {
        ok := DiscardPending(request.operation.room);
        if !ok { return; }
      }
      ok := Store(db.(intents := DropIntents(db.intents, id)));
      if !ok { return; }
      ok := Store(RemoveOutbox(db, id));
    }

    method CompleteReservation(id: MessageId, recipient: UserId, package: Blob) returns (ok: bool)
      requires Coherent()
      modifies `db, `faulty
      ensures ok ==> Coherent() && ClientSpec.CompleteReservation(old(db), id, recipient, package) == Some(db)
      ensures !ok ==> faulty || ClientSpec.CompleteReservation(old(db), id, recipient, package) == None
    {
      if package.content != KeyPackageMessage(recipient) || recipient !in db.contacts { return false; }
      var changed := |ReservingRooms(db.intents, id, recipient)|;
      ok := Store(db.(intents := AttachPackage(db.intents, id, recipient, package)));
      if !ok || changed != 1 { return false; }
      ok := Store(RemoveOutbox(db, id));
    }

    method CompleteCreation(id: MessageId, room: RoomId) returns (ok: bool)
      requires Coherent()
      modifies `db, `cache, `faulty
      ensures ok ==> Coherent() && db == ClientSpec.CompleteCreation(old(db), user, id, room)
      ensures !ok ==> faulty
    {
      ok := CreateGroup(room);
      if !ok { return; }
      ok := Store(if room in db.cursors then db else db.(cursors := db.cursors[room := 0]));
      if !ok { return; }
      ok := Store(RemoveOutbox(db, id));
    }

    /** Store an event unless another one has its identifier or its place. */
    method Receive(event: Event) returns (ok: bool)
      requires Coherent()
      modifies `db, `faulty
      ensures Coherent()
      ensures ok ==> ReceiveEvent(old(db), event) == Some(db)
      ensures !ok ==> db == old(db) && (faulty || ReceiveEvent(old(db), event) == None)
    {
      if event.operation.parent + 1 > I64_MAX { return false; }
      if event.id in db.inbox { return db.inbox[event.id].event == event; }
      if HasRowAt(db, event.operation.room, event.operation.parent) { return false; }
      ok := Store(db.(inbox := db.inbox[event.id := InboxRow(event, Pending)]));
    }

    /** The transaction of an answer, up to its commit. */
    method CompleteInside(id: MessageId, request: Request, response: Response) returns (ok: bool)
      requires Coherent()
      modifies `db, `cache, `faulty
      ensures ok ==> Coherent() && ClientSpec.Complete(old(db), user, id, request, response) == Some(db)
      ensures !ok ==> faulty || ClientSpec.Complete(old(db), user, id, request, response) == None
    {
      ok := true;
      if request.CreateRoom? && response.RoomCreated? {
        if NormalizeRoomName(request.name).None? { return false; }
        ok := CompleteCreation(id, response.room);
      } else if request.PublishKeyPackages? && response == KeyPackagesPublished(|request.packages|) {
        ok := Store(RemoveOutbox(db, id));
      } else if request.SetFetchGrant? && response.FetchGrantSet? {
        ok := Store(RemoveOutbox(db, id));
      } else if request.ReserveKeyPackage? && response.KeyPackage? && response.recipient == request.recipient {
        ok := CompleteReservation(id, request.recipient, response.package);
      } else if request.AppendRoomOperation? && response == AppendAccepted(Event(id, user, request.operation)) {
        ok := Receive(response.event);
      } else if request.AppendRoomOperation? && response.HeadConflict? && response.room == request.operation.room
                && response.head != request.operation.parent {
        ok := CompleteConflict(id, request.operation);
      } else if IsTransient(response) {
      } else if response.Rejected? {
        ok := CompleteRefusal(id, request);
      } else if request.Acknowledge? && response.Acknowledged? {
        ok := Store(RemoveOutbox(db, id));
      } else {
        ok := false;
      }
    }

    /** An answer takes effect completely, or not at all. It has no effect exactly when it is not an
        answer to the request, or a statement or the commit fails; then the tables are as before
        and the cache agrees with them, wherever the failure was. */
    method Complete(id: MessageId, request: Request, response: Response) returns (ok: bool)
      requires Coherent()
      modifies `db, `cache, `faulty
      ensures Coherent()
      ensures ok ==> ClientSpec.Complete(old(db), user, id, request, response) == Some(db)
      ensures !ok ==> db == old(db)
                      && (faulty || ClientSpec.Complete(old(db), user, id, request, response) == None)
    {
      var saved := db;
      faulty := false;
      ok := CompleteInside(id, request, response);
      if ok { ok := Succeeds(); }
      if !ok { Abort(saved); }
    }

    // ----- applying an event -----

    method FinishEvent(event: Event, state: RowState) returns (ok: bool)
      requires Coherent()
      modifies `db, `faulty
      ensures ok ==> Coherent() && ClientSpec.FinishEvent(old(db), user, event, state) == Some(db)
      ensures !ok ==> faulty || ClientSpec.FinishEvent(old(db), user, event, state) == None
    {
      ok := Store(db.(inbox := MarkRow(db.inbox, event.id, state)));
      if !ok { return; }
      ok := Store(db.(cursors := db.cursors[event.operation.room := event.operation.parent + 1]));
      if !ok { return; }
      ok := SaveOutbox(AcknowledgementId(user, [event.id], []), Acknowledge([event.id], []));
    }

    method SaveOutbox(id: MessageId, request: Request) returns (ok: bool)
      requires Coherent()
      modifies `db, `faulty
      ensures Coherent()
      ensures ok ==> ClientSpec.SaveOutbox(old(db), id, request) == Some(db)
      ensures !ok ==> db == old(db) && (faulty || ClientSpec.SaveOutbox(old(db), id, request) == None)
    {
      if id in db.outbox { return db.outbox[id].request == request; }
      ok := Store(db.(outbox := db.outbox[id := OutboxRow(NextRowid(db.outbox), request)]));
    }

    method ApplyOwn(event: Event) returns (ok: bool)
      requires Coherent()
      modifies `db, `cache, `faulty
      ensures ok ==> Coherent() && ClientSpec.ApplyOwn(old(db), user, event) == Some(db)
      ensures !ok ==> faulty || ClientSpec.ApplyOwn(old(db), user, event) == None
    {
      if event.id !in db.outbox || db.outbox[event.id].request != AppendRoomOperation(event.operation) { return false; }
      if event.operation.contentType == Commit {
        ok := ApplyAcceptedCommit(event.operation.room);
        if !ok { return; }
      }
      ok := Claim(event);
      if !ok { return; }
      ok := FinishEvent(event, Applied);
    }

    method Claim(event: Event) returns (ok: bool)
      requires Coherent()
      modifies `db, `faulty
      ensures ok ==> Coherent() && db == ClientSpec.Claim(old(db), event)
      ensures !ok ==> faulty
    {
      var removed := RemoveOutbox(db, event.id);
      var dropped := removed.(intents := DropIntents(removed.intents, event.id));
      var claimed := dropped.(history := SetSequence(dropped.history, event.id, event.operation.parent + 1));
      ClaimedCaches(cache, db, event, claimed, user);
      ok := Store(removed);
      if !ok { return; }
      ok := Store(dropped);
      if !ok { return; }
      ok := Store(claimed);
    }

    /** Somebody else's event that opens: its plaintext, its cursor and its receipt. */
    method ApplyOpened(event: Event, plaintext: Option<seq<byte>>) returns (ok: bool)
      requires Coherent()
      modifies `db, `faulty
      ensures ok ==> Coherent()
                     && ClientSpec.FinishEvent(Remember(old(db), event, plaintext), user, event, Applied) == Some(db)
      ensures !ok ==>
                faulty || ClientSpec.FinishEvent(Remember(old(db), event, plaintext), user, event, Applied) == None
    {
      ok := Store(Remember(db, event, plaintext));
      if !ok { return; }
      ok := FinishEvent(event, Applied);
    }

    /** Somebody else's event: applied, blocked and kept, or rejected and skipped. A fault first
        undoes the whole transaction. */
    method ApplyOther(event: Event) returns (result: Option<bool>)
      requires Coherent()
      modifies `db, `cache, `faulty
      ensures result.Some? ==> Coherent() && ClientSpec.ApplyOther(old(db), user, event) == Some(db)
      ensures result.None? ==> faulty || ClientSpec.ApplyOther(old(db), user, event) == None
      ensures result.Some? ==> result.value == !ClientSpec.ProcessBound(old(db), user, event).FaultBlocked?
    {
      var saved := db;
      var verdict := ProcessBound(event);
      var ok := false;
      match verdict {
        case Fails => result := None;
        case Blocks =>
          Abort(saved);
          ok := Store(db.(inbox := MarkRow(db.inbox, event.id, Stuck)));
          result := if ok then Some(false) else None;
        case Rejects =>
          Abort(saved);
          ok := FinishEvent(event, Refused);
          result := if ok then Some(true) else None;
        case Opens(plaintext) =>
          ok := ApplyOpened(event, plaintext);
          result := if ok then Some(true) else None;
      }
    }

    /** Applying is all or nothing under any failure, and tells whether the cursor moved. */
    method ApplyEvent(event: Event) returns (result: Option<bool>)
      requires Coherent()
      modifies `db, `cache, `faulty
      ensures Coherent()
      ensures result.Some? ==> ClientSpec.ApplyEvent(old(db), user, event) == Some(db)
      ensures result.None? ==> db == old(db) && (faulty || ClientSpec.ApplyEvent(old(db), user, event) == None)
      ensures result.Some? ==> result.value == Moves(old(db), user, event)
    {
      var saved := db;
      faulty := false;
      if Cursor(db, event.operation.room) != event.operation.parent { return None; }
      if event.sender == user {
        var ok := ApplyOwn(event);
        result := if ok then Some(true) else None;
      } else {
        result := ApplyOther(event);
      }
      var committed := false;
      if result != None { committed := Succeeds(); }
      if !committed {
        Abort(saved);
        result := None;
      }
    }

    // ----- building attempts -----

    method Journal(id: MessageId, request: Request) returns (ok: bool)
      requires Coherent()
      modifies `db, `faulty
      ensures Coherent()
      ensures ok ==> ClientSpec.SaveOutbox(old(db), id, request) == Some(db) && Sendable(db, id)
      ensures !ok ==> db == old(db) && (faulty || !Yields(ClientSpec.SaveOutbox(old(db), id, request), id))
    {
      if !Fits(request) { return false; }
      ok := SaveOutbox(id, request);
    }

    method BuildSend(room: RoomId, intent: Intent, id: MessageId, bytes: Ciphertext) returns (ok: bool)
      requires Coherent() && id !in db.outbox
      modifies `db, `cache, `faulty
      ensures ok ==> Coherent() && ClientSpec.BuildSend(old(db), user, room, intent, id, bytes) == Some(db)
                     && Sendable(db, id)
      ensures !ok ==> faulty || !Yields(ClientSpec.BuildSend(old(db), user, room, intent, id, bytes), id)
    {
      var parent := Cursor(db, room);
      if intent.plaintext.None? { return false; }
      var epoch, body;
      ok, epoch, body := EncryptBound(room, intent.plaintext.value, Binding(room, id, parent));
      if !ok { return; }
      var row := HistoryRow(room, parent + 1, user, intent.plaintext.value);
      ok := Store(db.(history := RecordPlaintext(db.history, id, row)));
      if !ok { return; }
      ok := Journal(id, AppendRoomOperation(Append(room, parent, epoch, Application, Blob(bytes.body, body), None)));
    }

    method BuildAdd(room: RoomId, intent: Intent, id: MessageId, bytes: Ciphertext) returns (ok: bool)
      requires Coherent() && id !in db.outbox
      modifies `db, `cache, `faulty
      ensures ok ==> Coherent() && ClientSpec.BuildAdd(old(db), user, room, intent, id, bytes) == Some(db)
                     && Sendable(db, id)
      ensures !ok ==> faulty || !Yields(ClientSpec.BuildAdd(old(db), user, room, intent, id, bytes), id)
    {
      var parent := Cursor(db, room);
      if intent.package.None? || intent.target.None? { return false; }
      var epoch, body, welcome;
      ok, epoch, body, welcome := BuildPendingAdd(room, intent.package.value, Binding(room, id, parent));
      if !ok { return; }
      var recipient, blob := intent.target.value, Blob(bytes.welcome, welcome);
      var signature := Signature(user, Transcript(recipient, room, id, parent + 1, blob));
      ok := Journal(id, AppendRoomOperation(Append(room, parent, epoch, Commit, Blob(bytes.body, body),
                                                   Some(WelcomeAttachment(recipient, blob, signature)))));
    }

    method BuildRequest(room: RoomId, intent: Intent, id: MessageId, bytes: Ciphertext) returns (ok: bool)
      requires Coherent() && id !in db.outbox
      modifies `db, `cache, `faulty
      ensures ok ==> Coherent() && ClientSpec.BuildRequest(old(db), user, room, intent, id, bytes) == Some(db)
                     && Sendable(db, id)
      ensures !ok ==> faulty || !Yields(ClientSpec.BuildRequest(old(db), user, room, intent, id, bytes), id)
    {
      if intent.target.Some? && intent.package.None? {
        ok := Journal(id, ReserveKeyPackage(intent.target.value));
      } else if intent.package.Some? {
        ok := BuildAdd(room, intent, id, bytes);
      } else {
        ok := BuildSend(room, intent, id, bytes);
      }
    }

    /** The next attempt of one intent, in one transaction. */
    method BuildAttempt(room: RoomId, id: MessageId, bytes: Ciphertext) returns (ok: bool)
      requires Coherent() && room in db.intents && id !in db.outbox && id.Random?
      modifies `db, `cache, `faulty
      ensures Coherent()
      ensures ok ==> ClientSpec.BuildAttempt(old(db), user, room, id, bytes) == Some(db) && Sendable(db, id)
      ensures !ok ==> db == old(db)
                      && (faulty || !Yields(ClientSpec.BuildAttempt(old(db), user, room, id, bytes), id))
    {
      var saved, intent := db, db.intents[room];
      faulty := false;
      ok := BuildRequest(room, intent, id, bytes);
      if ok { ok := Store(db.(intents := db.intents[room := intent.(attempt := Some(id))])); }
      if ok { ok := Succeeds(); }
      if !ok { Abort(saved); }
    }

    // ----- Welcomes -----

    /** A page is stored with its cursor in one transaction, or not at all. */
    method StorePage(page: seq<WelcomeDelivery>) returns (ok: bool)
      requires Coherent()
      modifies `db, `faulty
      ensures Coherent()
      ensures ok ==> ClientSpec.StorePage(old(db), user, page) == Some(db)
      ensures !ok ==> db == old(db) && (faulty || ClientSpec.StorePage(old(db), user, page) == None)
    {
      faulty := false;
      if page == [] { return true; }
      var saved, last := db, db.welcomeCursor;
      ok := StoreRows(page);
      if ok { ok := Store(db.(welcomeCursor := page[|page| - 1].cursor)); }
      if ok { ok := Succeeds(); }
      if !ok { db := saved; }
    }

    /** The rows of a page, one statement each. */
    method StoreRows(page: seq<WelcomeDelivery>) returns (ok: bool)
      requires Coherent()
      modifies `db, `faulty
      ensures ok ==> Coherent() && PageOrdered(user, page, old(db).welcomeCursor)
                     && InsertPage(old(db).welcomes, page).Some?
                     && db == old(db).(welcomes := InsertPage(old(db).welcomes, page).value)
      ensures !ok ==> faulty || !PageOrdered(user, page, old(db).welcomeCursor)
                      || InsertPage(old(db).welcomes, page) == None
    {
      var last := db.welcomeCursor;
      var i := 0;
      while i < |page|
        invariant 0 <= i <= |page| && db == old(db).(welcomes := db.welcomes)
        invariant PageOrdered(user, page, old(db).welcomeCursor) == PageOrdered(user, page[i..], last)
        invariant InsertPage(old(db).welcomes, page) == InsertPage(db.welcomes, page[i..])
      {
        var welcome := page[i];
        assert page[i..][0] == welcome && page[i..][1..] == page[i + 1..];
        if welcome.cursor <= last || welcome.attachment.recipient != user || welcome.cursor in db.welcomes {
          return false;
        }
        last := welcome.cursor;
        ok := Store(db.(welcomes := db.welcomes[welcome.cursor := WelcomeEntry(welcome, Pending)]));
        if !ok { return; }
        i := i + 1;
      }
      assert page[i..] == [];
      return true;
    }

    /** Join the room of a verified Welcome, in one transaction. */
    method JoinRoom(cursor: nat, welcome: WelcomeDelivery, keyAvailable: bool) returns (ok: bool)
      requires Coherent() && cursor in db.welcomes
      modifies `db, `cache, `faulty
      ensures Coherent()
      ensures ok ==> ClientSpec.JoinRoom(old(db), user, cursor, welcome, keyAvailable) == Some(db)
      ensures !ok ==> db == old(db)
                      && (faulty || ClientSpec.JoinRoom(old(db), user, cursor, welcome, keyAvailable) == None)
    {
      var saved := db;
      faulty := false;
      var found := GroupMut(welcome.room);
      if found { return false; }
      ok := JoinInside(cursor, welcome, keyAvailable);
      if ok { ok := Succeeds(); }
      if !ok { Abort(saved); }
    }

    method JoinInside(cursor: nat, welcome: WelcomeDelivery, keyAvailable: bool) returns (ok: bool)
      requires Coherent() && cursor in db.welcomes && !HasGroup(db, welcome.room)
      modifies `db, `cache, `faulty
      ensures ok ==> Coherent() && ClientSpec.JoinRoom(old(db), user, cursor, welcome, keyAvailable) == Some(db)
      ensures !ok ==> faulty || ClientSpec.JoinRoom(old(db), user, cursor, welcome, keyAvailable) == None
    {
      ok := Join(welcome.room, welcome.attachment.body, keyAvailable);
      if !ok { return; }
      if welcome.inviter !in db.groups[welcome.room].group.roster || welcome.room in db.cursors
         || NormalizeRoomName(welcome.roomName).None? {
        return false;
      }
      ok := SettleWelcome(cursor, welcome.room, welcome.sequence);
    }

    method SettleWelcome(cursor: nat, room: RoomId, sequence: nat) returns (ok: bool)
      requires Coherent() && cursor in db.welcomes
      modifies `db, `faulty
      ensures ok ==> Coherent()
      ensures var settled := ClientSpec.SaveOutbox(
                  MarkWelcome(old(db).(cursors := old(db.cursors)[room := sequence]), cursor, Applied),
                  AcknowledgementId(user, [], [cursor]), Acknowledge([], [cursor]));
              if ok then settled == Some(db) else faulty || settled == None
    {
      ok := Store(db.(cursors := db.cursors[room := sequence]));
      if !ok { return; }
      ok := Store(MarkWelcome(db, cursor, Applied));
      if !ok { return; }
      ok := SaveOutbox(AcknowledgementId(user, [], [cursor]), Acknowledge([], [cursor]));
    }

    /** A Welcome is joined, or marked as blocked when that is impossible or fails; only the mark
        itself can fail without a trace. */
    method ProcessWelcome(cursor: nat, keyAvailable: bool) returns (ok: bool, ghost joinable: bool)
      requires Coherent() && cursor in db.welcomes
      modifies `db, `cache, `faulty
      ensures Coherent()
      ensures ok ==> db == ClientSpec.ProcessWelcome(old(db), user, cursor, joinable)
      ensures !ok ==> db == old(db)
      ensures joinable ==> keyAvailable
    {
      var welcome := db.welcomes[cursor].record;
      ok, joinable := false, keyAvailable;
      Outcomes(db, user, cursor);
      if WelcomeVerified(db, user, welcome) {
        ok := JoinRoom(cursor, welcome, keyAvailable);
        joinable := keyAvailable && ok;
      }
      if !ok {
        ok := Store(MarkWelcome(db, cursor, Stuck));
      }
    }

    // ----- the loops -----

    /** The relay answers, or the connection is gone. */
    method Ask() returns (response: Option<Response>)
      modifies `script
      ensures response == None ==> script == old(script)
      ensures response != None ==> |script| < |old(script)|
    {
      if script == [] { return None; }
      response := Some(script[0]);
      script := script[1..];
    }

    /** A read is repeated while the relay is overloaded. */
    method Read() returns (response: Option<Response>)
      modifies `script
      ensures response == None ==> |script| <= |old(script)|
      ensures response != None ==> |script| < |old(script)|
      ensures response != Some(Rejected(Overloaded)) && response != Some(Rejected(Internal))
    {
      response := Ask();
      while response == Some(Rejected(Overloaded)) || response == Some(Rejected(Internal))
        invariant response == None ==> |script| <= |old(script)|
        invariant response != None ==> |script| < |old(script)|
        decreases |script|, response != None
      {
        response := Ask();
      }
    }

    method BuildWith(room: RoomId, id: MessageId, bytes: Ciphertext) returns (ok: bool)
      requires Coherent() && Unseen(db, id) && HasGroup(db, room) && !Backlog(db, room)
      requires room in db.intents && db.intents[room].attempt.None? && Encrypted(db.intents[room], bytes)
      modifies `db, `cache, `starts, `faulty
      ensures Coherent()
      ensures ok ==> View() == RunClient(old(View()), user, [Build(room, id, bytes)])
      ensures ok ==> BuildsAttempt(old(db), db, room, id)
      ensures !ok ==> View() == old(View())
    {
      ghost var before := View();
      ok := BuildAttempt(room, id, bytes);
      if ok {
        BuildShape(before.db, user, room, id, bytes);
        BuildIsStep(before.db, user, room, id, bytes, db);
        RunOne(before.db, before.starts, user, Build(room, id, bytes), db);
        starts := NewStarts(starts, db);
      }
    }

    /** The MLS library encrypts; the bytes are its own choice. */
    method Encrypting(intent: Intent) returns (bytes: Ciphertext)
      ensures Encrypted(intent, bytes)
    {
      bytes := *;
      if !Encrypted(intent, bytes) {
        bytes := Ciphertext([0], []);
      }
    }

    /** The next attempt of one room, unless the room has to wait. */
    method BuildRoom(room: RoomId) returns (built: Option<bool>, ghost trace: seq<Action>)
      requires Coherent() && room in db.intents && db.intents[room].attempt.None?
      modifies `db, `cache, `starts, `faulty
      ensures Coherent() && View() == RunClient(old(View()), user, trace) && All(trace, Building)
      ensures BuildsOnly(old(db), db, room)
      ensures built.Some? ==> Tried(db, room) && (built.value <==> trace != [])
    {
      built, trace := Some(false), [];
      var found := GroupMut(room);
      if found && !Backlog(db, room) {
        var ok;
        ok, trace := BuildNow(room);
        built := if ok then Some(true) else None;
      }
    }

    /** Draw an identifier and build. */
    method BuildNow(room: RoomId) returns (ok: bool, ghost trace: seq<Action>)
      requires Coherent() && HasGroup(db, room) && !Backlog(db, room)
      requires room in db.intents && db.intents[room].attempt.None?
      modifies `db, `cache, `starts, `faulty
      ensures Coherent() && View() == RunClient(old(View()), user, trace) && All(trace, Building)
      ensures BuildsOnly(old(db), db, room) && (ok <==> trace != []) && (ok ==> Tried(db, room))
    {
      trace := [];
      UnseenExists(db);
      var id :| Unseen(db, id);
      var bytes := Encrypting(db.intents[room]);
      ok := BuildWith(room, id, bytes);
      if ok {
        TriedStays(old(db), db, room, id);
        trace := [Build(room, id, bytes)];
      }
    }

    /** Turn every intent that can be built into its next attempt. */
    method BuildAttempts() returns (built: Option<bool>, ghost trace: seq<Action>)
      requires Coherent()
      modifies `db, `cache, `starts, `faulty
      ensures Coherent() && View() == RunClient(old(View()), user, trace) && All(trace, Building)
      ensures db.intents.Keys == old(db.intents).Keys
      ensures built.Some? ==> AllTried(db)
      ensures built.Some? ==> (built.value <==> trace != [])
    {
      built, trace := Some(false), [];
      var rooms: set<RoomId> := Unattempted(db.intents);
      while rooms != {}
        invariant Coherent() && View() == RunClient(old(View()), user, trace) && All(trace, Building)
        invariant db.intents.Keys == old(db.intents).Keys && ToBuild(db, rooms)
        invariant built.Some? && (built.value <==> trace != [])
        decreases |rooms|
      {
        var room: RoomId :| room in rooms;
        ghost var before := db;
        var one; ghost var step;
        one, step := BuildRoom(room);
        RunMore(old(View()), user, trace, step);
        AllMore(trace, step, Building);
        trace := trace + step;
        if one == None { return None, trace; }
        BuiltOne(before, db, rooms, room);
        rooms := rooms - {room};
        if one.value { built := Some(true); }
      }
    }

    // ----- recovery -----

    method StoreWith(page: seq<WelcomeDelivery>) returns (ok: bool)
      requires Coherent()
      modifies `db, `starts, `faulty
      ensures Coherent()
      ensures ok ==> View() == RunClient(old(View()), user, [Action.Store(page)])
      ensures ok && page != [] ==> db.welcomeCursor == page[|page| - 1].cursor
      ensures !ok ==> View() == old(View())
    {
      ghost var before := View();
      ok := StorePage(page);
      if ok {
        RunOne(before.db, before.starts, user, Action.Store(page), db);
        starts := NewStarts(starts, db);
      }
    }

    /** One page of the Welcome queue: None if something is wrong with it or a write fails. */
    method FetchPage() returns (page: Option<Response>, ghost trace: seq<Action>)
      requires Coherent()
      modifies `db, `starts, `script, `faulty
      ensures Coherent() && View() == RunClient(old(View()), user, trace) && |script| <= |old(script)|
      ensures page.Some? ==> |script| < |old(script)| && page.value.Welcomes?
                             && page.value.afterCursor == old(db).welcomeCursor && trace == StoresOf(page.value)
                             && (page.value.more ==> page.value.welcomes != [])
                             && db.welcomeCursor == Advanced(page.value)
      ensures page.None? ==> trace == [] && db.welcomeCursor == old(db).welcomeCursor
    {
      trace := [];
      page := Read();
      if page.None? { return; }
      if !page.value.Welcomes? { return None, trace; }
      var welcomes, more := page.value.welcomes, page.value.more;
      if page.value.afterCursor != db.welcomeCursor || (more && welcomes == []) { return None, trace; }
      if welcomes == [] { return; }
      var ok := StoreWith(welcomes);
      if !ok { return None, trace; }
      trace := [Action.Store(welcomes)];
    }

    /** Fetch and store the Welcome queue page by page. On success every page up to one without
        more to come was stored, each asked for after the last Welcome of the one before. */
    method FetchQueue() returns (ok: bool, ghost pages: seq<Response>, ghost trace: seq<Action>)
      requires Coherent()
      modifies `db, `starts, `script, `faulty
      ensures Coherent() && View() == RunClient(old(View()), user, trace) && |script| <= |old(script)|
      ensures Fetched(old(db).welcomeCursor, pages, trace, db.welcomeCursor)
      ensures ok ==> pages != [] && !pages[|pages| - 1].more
    {
      ok, pages, trace := false, [], [];
      while true
        invariant Coherent() && View() == RunClient(old(View()), user, trace) && |script| <= |old(script)|
        invariant Fetched(old(db).welcomeCursor, pages, trace, db.welcomeCursor)
        invariant pages != [] ==> pages[|pages| - 1].more
        decreases |script|
      {
        ghost var cursor := db.welcomeCursor;
        var page; ghost var step;
        page, step := FetchPage();
        RunMore(old(View()), user, trace, step);
        if page.None? {
          assert trace + step == trace;
          return false, pages, trace;
        }
        FetchedMore(old(db).welcomeCursor, pages, trace, cursor, page.value);
        pages, trace := pages + [page.value], trace + step;
        if !page.value.more { return true, pages, trace; }
      }
    }

    method ProcessWith(cursor: nat, keyAvailable: bool) returns (ok: bool, ghost action: Action)
      requires Coherent() && cursor in OpenWelcomes(db.welcomes)
      modifies `db, `cache, `starts, `faulty
      ensures Coherent() && action.Process? && action.cursor == cursor
      ensures View() == if ok then RunClient(old(View()), user, [action]) else old(View())
      ensures forall c :: c in OpenWelcomes(old(db.welcomes)) && c != cursor ==> c in OpenWelcomes(db.welcomes)
    {
      ghost var before := View();
      ghost var joinable;
      ok, joinable := ProcessWelcome(cursor, keyAvailable);
      action := Process(cursor, joinable);
      if ok {
        OthersOpen(before.db, user, cursor, joinable);
        RunOne(before.db, before.starts, user, action, db);
        starts := NewStarts(starts, db);
      }
    }

    /** Try every Welcome that is not applied yet, once and in the order of the queue. */
    method ProcessWelcomes() returns (ok: bool, ghost cursors: seq<nat>, ghost trace: seq<Action>)
      requires Coherent()
      modifies `db, `cache, `starts, `faulty
      ensures Coherent() && View() == RunClient(old(View()), user, trace) && All(trace, Processing)
      ensures Lists(cursors, OpenWelcomes(old(db.welcomes))) && |trace| <= |cursors| && Tries(trace, cursors[..|trace|])
      ensures ok ==> |trace| == |cursors|
    {
      var list: seq<nat> := Sorted(OpenWelcomes(db.welcomes));
      cursors := list;
      SortedLists(OpenWelcomes(db.welcomes));
      ok, trace := ProcessListed(list);
    }

    method ProcessListed(cursors: seq<nat>) returns (ok: bool, ghost trace: seq<Action>)
      requires Coherent() && Lists(cursors, OpenWelcomes(db.welcomes))
      modifies `db, `cache, `starts, `faulty
      ensures Coherent() && View() == RunClient(old(View()), user, trace) && All(trace, Processing)
      ensures |trace| <= |cursors| && Tries(trace, cursors[..|trace|]) && (ok ==> |trace| == |cursors|)
    {
      trace := [];
      var i := 0;
      while i < |cursors|
        invariant 0 <= i <= |cursors| && |trace| == i && Tries(trace, cursors[..i]) && All(trace, Processing)
        invariant Coherent() && View() == RunClient(old(View()), user, trace)
        invariant forall j :: i <= j < |cursors| ==> cursors[j] in OpenWelcomes(db.welcomes)
      {
        var keyAvailable: bool := *;
        ghost var action;
        ok, action := ProcessWith(cursors[i], keyAvailable);
        if !ok { return; }
        RunMore(old(View()), user, trace, [action]);
        AllMore(trace, [action], Processing);
        trace := trace + [action];
        i := i + 1;
      }
      return true, trace;
    }

    /** The room takes events: its own attempt is resolved and its group is at hand. */
    ghost predicate Ready(room: RoomId)
      reads this
    {
      Coherent() && !Unresolved(db, room) && HasGroup(db, room)
    }

    method ReceiveWith(event: Event) returns (ok: bool)
      requires Ready(event.operation.room)
      requires var room, parent := event.operation.room, event.operation.parent;
               parent == Cursor(db, room) || (parent > Cursor(db, room) && HasRowAt(db, room, parent - 1))
      modifies `db, `starts, `faulty
      ensures Ready(event.operation.room) && db.cursors == old(db.cursors)
      ensures ok ==> View() == RunClient(old(View()), user, [Action.Receive(event)])
      ensures ok ==> event.id in db.inbox && db.inbox[event.id].event == event
      ensures !ok ==> View() == old(View())
      ensures forall id :: id in old(db.inbox) ==> id in db.inbox && db.inbox[id] == old(db.inbox)[id]
    {
      ghost var before := View();
      ok := Receive(event);
      if ok {
        RunOne(before.db, before.starts, user, Action.Receive(event), db);
        starts := NewStarts(starts, db);
      }
    }

    /** Receive a page that continues the log without a gap. */
    method ReceivePage(room: RoomId, events: seq<Event>) returns (ok: bool, ghost trace: seq<Action>)
      requires Ready(room)
      modifies `db, `starts, `faulty
      ensures Ready(room) && db.cursors == old(db.cursors) && View() == RunClient(old(View()), user, trace)
      ensures All(trace, Following)
      ensures ok ==> Arrived(db, room, events, Cursor(db, room))
    {
      trace := [];
      var cursor := Cursor(db, room);
      var i := 0;
      while i < |events|
        invariant 0 <= i <= |events| && Ready(room) && db.cursors == old(db.cursors)
        invariant View() == RunClient(old(View()), user, trace) && All(trace, Following)
        invariant Arrived(db, room, events[..i], cursor)
      {
        var event := events[i];
        if event.operation.room != room || event.operation.parent != cursor + i { return false, trace; }
        ghost var before := db;
        LastArrived(db, room, events, i, cursor);
        ok := ReceiveWith(event);
        if !ok { return false, trace; }
        ArrivedMore(before, db, room, events, i, cursor);
        RunMore(old(View()), user, trace, [Action.Receive(event)]);
        AllMore(trace, [Action.Receive(event)], Following);
        trace := trace + [Action.Receive(event)];
        i := i + 1;
      }
      assert events[..i] == events;
      return true, trace;
    }

    method ApplyWith(event: Event) returns (result: Option<bool>)
      requires Ready(event.operation.room) && event.id in db.inbox && db.inbox[event.id].event == event
      requires Cursor(db, event.operation.room) == event.operation.parent
      modifies `db, `cache, `starts, `faulty
      ensures Coherent()
      ensures result.Some? ==> View() == RunClient(old(View()), user, [Apply(event)])
      ensures result.None? ==> View() == old(View())
      ensures result == Some(true) ==> Ready(event.operation.room)
      ensures result == Some(true) ==> Cursor(db, event.operation.room) == event.operation.parent + 1
      ensures result == Some(false) ==> Stalled(db, event.operation.room)
      ensures forall id :: id in old(db.inbox) ==> id in db.inbox && db.inbox[id].event == old(db.inbox)[id].event
    {
      ghost var before := View();
      result := ApplyEvent(event);
      if result.Some? {
        AppliedFrame(before.db, user, event, db);
        if !result.value {
          StalledByFault(before.db, user, event, db);
        }
        RunOne(before.db, before.starts, user, Apply(event), db);
        starts := NewStarts(starts, db);
      }
    }

    /** Apply the received page in order, until one event has to wait. */
    method ApplyPage(room: RoomId, events: seq<Event>) returns (result: Option<bool>, ghost trace: seq<Action>)
      requires Ready(room)
      requires Arrived(db, room, events, Cursor(db, room))
      modifies `db, `cache, `starts, `faulty
      ensures Coherent() && View() == RunClient(old(View()), user, trace) && All(trace, Following)
      ensures result == Some(true) ==> Ready(room) && Cursor(db, room) == old(Cursor(db, room)) + |events|
      ensures result == Some(false) ==> Stalled(db, room)
    {
      trace := [];
      var cursor := Cursor(db, room);
      var i := 0;
      while i < |events|
        invariant 0 <= i <= |events| && Ready(room) && Cursor(db, room) == cursor + i
        invariant View() == RunClient(old(View()), user, trace) && All(trace, Following)
        invariant forall j :: 0 <= j < |events| ==>
                    events[j].id in db.inbox && db.inbox[events[j].id].event == events[j]
      {
        result := ApplyWith(events[i]);
        if result == None { return None, trace; }
        RunMore(old(View()), user, trace, [Apply(events[i])]);
        AllMore(trace, [Apply(events[i])], Following);
        trace := trace + [Apply(events[i])];
        if !result.value { return Some(false), trace; }
        i := i + 1;
      }
      return Some(true), trace;
    }

    /** Fetch, receive and apply until the cursor reaches the announced head. */
    method CatchUp(room: RoomId, head: nat) returns (ok: bool, ghost trace: seq<Action>)
      requires Ready(room)
      modifies `db, `cache, `starts, `script, `faulty
      ensures Coherent() && View() == RunClient(old(View()), user, trace) && |script| <= |old(script)|
      ensures All(trace, Following)
      ensures ok ==> Cursor(db, room) >= head || Stalled(db, room)
    {
      trace := [];
      while Cursor(db, room) < head
        invariant Ready(room) && View() == RunClient(old(View()), user, trace) && |script| <= |old(script)|
        invariant All(trace, Following)
        decreases |script|
      {
        var response := Read();
        if response.None? || !response.value.RoomEvents? { return false, trace; }
        var events := response.value.events;
        if response.value.room != room || response.value.afterSequence != Cursor(db, room) || events == [] {
          return false, trace;
        }
        ghost var step;
        ok, step := ReceivePage(room, events);
        RunMore(old(View()), user, trace, step);
        AllMore(trace, step, Following);
        trace := trace + step;
        if !ok { return false, trace; }
        var applied;
        applied, step := ApplyPage(room, events);
        RunMore(old(View()), user, trace, step);
        AllMore(trace, step, Following);
        trace := trace + step;
        if applied == None { return false, trace; }
        if !applied.value { return true, trace; }
      }
      return true, trace;
    }

    /** A room with an unresolved attempt or without a group is left for later. */
    method SyncRoom(room: RoomId, head: nat) returns (ok: bool, ghost trace: seq<Action>)
      requires Coherent()
      modifies `db, `cache, `starts, `script, `faulty
      ensures Coherent() && View() == RunClient(old(View()), user, trace) && |script| <= |old(script)|
      ensures All(trace, Following)
      ensures Unresolved(old(db), room) || !HasGroup(old(db), room) ==> ok && trace == []
      ensures ok ==> SyncedTo(db, room, head)
    {
      ok, trace := true, [];
      if !Unresolved(db, room) {
        var found := GroupMut(room);
        if found {
          ok, trace := CatchUp(room, head);
        }
      }
    }

    /** A head has to follow the room before it, lie between the cursor and the largest number, and
        have a usable name; then the room has its turn. */
    method SyncHead(head: RoomHead, after: Option<RoomId>) returns (ok: bool, ghost trace: seq<Action>)
      requires Coherent()
      modifies `db, `cache, `starts, `script, `faulty
      ensures Coherent() && View() == RunClient(old(View()), user, trace) && |script| <= |old(script)|
      ensures All(trace, Following)
      ensures ok ==> HeadFits(old(db), head, after) && SyncedTo(db, head.room, head.sequence)
    {
      ok, trace := false, [];
      if after.Some? && after.value >= head.room { return; }
      if head.sequence > I64_MAX || head.sequence < Cursor(db, head.room) { return; }
      if NormalizeRoomName(head.name).None? { return; }
      ok, trace := SyncRoom(head.room, head.sequence);
    }

    /** The rooms of one index page, in order. On success each of them was left alone for a reason,
        caught up or stalled when its turn was over. */
    method SyncPage(rooms: seq<RoomHead>, start: Option<RoomId>)
      returns (ok: bool, after: Option<RoomId>, ghost ends: seq<nat>, ghost trace: seq<Action>)
      requires Coherent()
      modifies `db, `cache, `starts, `script, `faulty
      ensures Coherent() && View() == RunClient(old(View()), user, trace) && |script| <= |old(script)|
      ensures All(trace, Following) && (ok ==> Turned(old(View()), user, trace, start, rooms, after, ends))
    {
      after, ends, trace := start, [], [];
      ghost var first := View();
      var i := 0;
      while i < |rooms|
        invariant 0 <= i <= |rooms| && Turned(first, user, trace, start, rooms[..i], after, ends)
        invariant Coherent() && View() == RunClient(first, user, trace) && |script| <= |old(script)|
      {
        ghost var before, step := db, [];
        ok, step := SyncHead(rooms[i], after);
        HeadTurn(first, user, trace, start, rooms, i, after, ends, before, step, ok);
        if !ok { return false, after, ends, trace + step; }
        trace, after := trace + step, Some(rooms[i].room);
        ends := ends + [|trace|];
        i := i + 1;
      }
      assert rooms[..i] == rooms;
      return true, after, ends, trace;
    }

    /** Catch up with every room of the index, page by page in increasing order. On success the
        relay has said that there are no more rooms, and every listed room had its turn. */
    method SyncRooms() returns (ok: bool, ghost heads: seq<RoomHead>, ghost ends: seq<nat>, ghost trace: seq<Action>)
      requires Coherent()
      modifies `db, `cache, `starts, `script, `faulty
      ensures Coherent() && View() == RunClient(old(View()), user, trace) && |script| <= |old(script)|
      ensures All(trace, Following)
      ensures ok ==> HeadsFollow(None, heads) && Visited(old(View()), user, trace, heads, ends)
    {
      heads, ends, trace := [], [], [];
      var after: Option<RoomId> := None;
      while true
        invariant Coherent() && View() == RunClient(old(View()), user, trace) && |script| <= |old(script)|
        invariant All(trace, Following) && HeadsFollow(None, heads) && after == Last(None, heads)
        invariant Visited(old(View()), user, trace, heads, ends)
        decreases |script|
      {
        var response := Read();
        if response.None? || !response.value.RoomIndex? { return false, heads, ends, trace; }
        var rooms, more := response.value.rooms, response.value.more;
        if more && rooms == [] { return false, heads, ends, trace; }
        ghost var before, step, marks := View(), [], [];
        ok, after, marks, step := SyncPage(rooms, after);
        RunMore(old(View()), user, trace, step);
        AllMore(trace, step, Following);
        if !ok { return false, heads, ends, trace + step; }
        HeadsJoin(None, heads, rooms);
        VisitedJoin(old(View()), user, trace, heads, ends, before, step, rooms, marks);
        heads, ends, trace := heads + rooms, ends + Shifted(marks, |trace|), trace + step;
        if !more { return true, heads, ends, trace; }
      }
    }

    /** The Welcome queue first, then the Welcomes, then the rooms. */
    method Synchronize()
      returns (ok: bool, ghost stores: seq<Action>, ghost tries: seq<Action>, ghost follows: seq<Action>)
      requires Coherent()
      modifies `db, `cache, `starts, `script, `faulty
      ensures Coherent() && View() == RunClient(old(View()), user, stores + tries + follows)
      ensures All(stores, Storing) && All(tries, Processing) && All(follows, Following) && |script| <= |old(script)|
    {
      stores, tries, follows := [], [], [];
      ghost var pages, cursors, heads, ends;
      ok, pages, stores := FetchQueue();
      assert stores + [] + [] == stores;
      if !ok { return; }
      ok, cursors, tries := ProcessWelcomes();
      RunMore(old(View()), user, stores, tries);
      assert stores + tries + [] == stores + tries;
      if !ok { return; }
      ok, heads, ends, follows := SyncRooms();
      RunMore(old(View()), user, stores + tries, follows);
    }

    // ----- commands -----

    /** A message to send or a contact to add, at most one per room at a time. */
    method Intend(room: RoomId, intent: Intent) returns (ok: bool)
      requires Coherent() && WellFormedIntent(intent)
      modifies `db, `cache, `starts, `faulty
      ensures Coherent()
      ensures ok ==> View() == RunClient(old(View()), user, [Action.Intend(room, intent)])
      ensures !ok ==> View() == old(View()) && (faulty || Next(old(db), user, Action.Intend(room, intent)) == None)
    {
      faulty := false;
      if intent.target.Some? && intent.target.value !in db.contacts { return false; }
      var found := GroupMut(room);
      if !found || room in db.intents { return false; }
      ghost var before := View();
      ok := Store(db.(intents := db.intents[room := intent]));
      if ok {
        RunOne(before.db, before.starts, user, Action.Intend(room, intent), db);
        starts := NewStarts(starts, db);
      }
    }

    /** A request to the relay goes into the outbox before it is sent. */
    method Issue(id: MessageId, request: Request) returns (ok: bool)
      requires Coherent() && Unseen(db, id) && Commanded(db, user, request)
      modifies `db, `starts, `faulty
      ensures Coherent()
      ensures ok ==> View() == RunClient(old(View()), user, [Action.Issue(id, request)])
      ensures !ok ==> View() == old(View()) && (faulty || Next(old(db), user, Action.Issue(id, request)) == None)
    {
      faulty := false;
      ghost var before := View();
      ok := Journal(id, request);
      if ok {
        RunOne(before.db, before.starts, user, Action.Issue(id, request), db);
        starts := NewStarts(starts, db);
      }
    }

    /** A verified contact stays verified. */
    method Import(contact: UserId) returns (ok: bool)
      requires Coherent()
      modifies `db, `starts, `faulty
      ensures Coherent()
      ensures View() == if ok then RunClient(old(View()), user, [Action.Import(contact)]) else old(View())
    {
      ghost var before := View();
      ok := Store(db.(contacts := db.contacts + {contact}));
      if ok {
        RunOne(before.db, before.starts, user, Action.Import(contact), db);
        starts := NewStarts(starts, db);
      }
    }

    // ----- driving the engine -----

    method AnswerWith(id: MessageId, request: Request, response: Response) returns (ok: bool)
      requires Coherent() && id in db.outbox && db.outbox[id].request == request
      modifies `db, `cache, `starts, `faulty
      ensures Coherent()
      ensures ok ==> View() == RunClient(old(View()), user, [Action.Answer(id, response)])
      ensures !ok ==> View() == old(View())
      ensures db.outbox == old(db.outbox) || db.outbox == old(db.outbox) - {id}
    {
      ghost var before := View();
      ok := Complete(id, request, response);
      if ok {
        AnswerOutbox(before.db, user, id, request, response, db);
        RunOne(before.db, before.starts, user, Action.Answer(id, response), db);
        starts := NewStarts(starts, db);
      }
    }

    /** Send one row and complete it with its answer. */
    method SendRow(entry: Entry) returns (ok: bool, ghost trace: seq<Action>)
      requires Coherent() && Listed(db.outbox, entry)
      modifies `db, `cache, `starts, `script, `faulty
      ensures Coherent() && View() == RunClient(old(View()), user, trace) && |script| <= |old(script)|
      ensures db.outbox == old(db.outbox) || db.outbox == old(db.outbox) - {entry.id}
      ensures All(trace, Answering) && (ok ==> |script| < |old(script)| && Answers(trace, [entry]))
    {
      trace := [];
      var response := Ask();
      if response == None { return false, trace; }
      ok := AnswerWith(entry.id, entry.request, response.value);
      if ok {
        trace := [Action.Answer(entry.id, response.value)];
      }
    }

    /** Send a page row by row. */
    method SendPage(page: seq<Entry>) returns (ok: bool, ghost trace: seq<Action>)
      requires Coherent() && AscendsBy(page) && forall i :: 0 <= i < |page| ==> Listed(db.outbox, page[i])
      modifies `db, `cache, `starts, `script, `faulty
      ensures Coherent() && View() == RunClient(old(View()), user, trace) && |script| <= |old(script)|
      ensures ok && page != [] ==> |script| < |old(script)|
      ensures OnlyDrops(old(db.outbox), db.outbox, page)
      ensures All(trace, Answering) && (ok ==> Answers(trace, page))
    {
      trace := [];
      ghost var first := View();
      var i := 0;
      while i < |page|
        invariant 0 <= i <= |page| && Coherent() && View() == RunClient(first, user, trace)
        invariant |script| <= |old(script)| && (i > 0 ==> |script| < |old(script)|)
        invariant OnlyDrops(first.db.outbox, db.outbox, page[..i]) && Answers(trace, page[..i])
      {
        StillListed(first.db.outbox, db.outbox, page, i);
        ghost var outbox, step := db.outbox, [];
        ok, step := SendRow(page[i]);
        RowSent(first, user, trace, outbox, db.outbox, page, i, step, ok);
        if !ok { return false, trace + step; }
        trace := trace + step;
        i := i + 1;
      }
      assert page[..i] == page;
      AnswersAll(trace, page);
      return true, trace;
    }

    /** Send the next page of a walk that has come to `after`. */
    method SendNext(after: nat, ghost first: map<MessageId, OutboxRow>, ghost sent: seq<Entry>)
      returns (ok: bool, page: seq<Entry>, ghost trace: seq<Action>)
      requires Coherent() && OnTrack(first, db.outbox, sent, after)
      modifies `db, `cache, `starts, `script, `faulty
      ensures Coherent() && View() == RunClient(old(View()), user, trace) && |script| <= |old(script)|
      ensures All(trace, Answering) && (ok ==> Answers(trace, page))
      ensures ok && page != [] ==> |script| < |old(script)|
      ensures ok ==> if page == [] then AllSent(first, sent)
                     else OnTrack(first, db.outbox, sent + page, page[|page| - 1].rowid)
    {
      ghost var outbox := db.outbox;
      page := WaitingPage(db.outbox, after);
      ok, trace := SendPage(page);
      if page == [] {
        WalkDone(first, outbox, sent, after);
      } else if ok {
        WalkOn(first, outbox, sent, after, page, db.outbox);
      }
    }

    /** Send what waits, page after page: every row is answered once and in row order. */
    method SendOutbox() returns (ok: bool, ghost sent: seq<Entry>, ghost trace: seq<Action>)
      requires Coherent() && RowidsUnique(db.outbox)
      modifies `db, `cache, `starts, `script, `faulty
      ensures Coherent() && View() == RunClient(old(View()), user, trace) && |script| <= |old(script)|
      ensures All(trace, Answering) && (ok ==> Answers(trace, sent) && AllSent(old(db.outbox), sent))
    {
      sent, trace := [], [];
      WalkStart(db.outbox);
      var after: nat := 0;
      while true
        invariant Coherent() && View() == RunClient(old(View()), user, trace) && |script| <= |old(script)|
        invariant Answers(trace, sent) && OnTrack(old(db.outbox), db.outbox, sent, after)
        decreases |script|
      {
        var page; ghost var step;
        ok, page, step := SendNext(after, old(db.outbox), sent);
        RunMore(old(View()), user, trace, step);
        AnswersAll(trace, sent);
        AllMore(trace, step, Answering);
        if !ok { return false, sent, trace + step; }
        AnswersMore(trace, sent, step, page);
        trace := trace + step;
        if page == [] { return true, sent, trace; }
        sent := sent + page;
        after := page[|page| - 1].rowid;
      }
    }

    /** Resolve the outbox, recover, and build, up to four times. Whatever the relay answers and
        whichever statement fails, the tables end up where a run of single steps leads, with
        everything such a run keeps. */
    method Drive() returns (ok: bool, ghost rounds: seq<Round>)
      requires Coherent() && Sane()
      modifies `db, `cache, `starts, `script, `faulty
      ensures Coherent() && Sane()
      ensures Driven(old(View()), user, rounds, View(), ok) && Ended(rounds, ok)
      ensures ok ==> forall room :: TooLate(old(db), room) ==> Backlog(db, room)
    {
      ok, rounds := DriveRounds();
      RunKept(old(View()), user, StepsOf(rounds));
      forall room | ok && TooLate(old(db), room) ensures Backlog(db, room) {
        LateWaits(old(View()), user, rounds, View(), room);
      }
    }

    /** One round: all answers, then recovery, then building. */
    method DriveRound() returns (built: Option<bool>, ghost round: Round)
      requires Coherent() && RowidsUnique(db.outbox)
      modifies `db, `cache, `starts, `script, `faulty
      ensures Coherent() && View() == RunClient(old(View()), user, Steps(round)) && RoundOk(round)
      ensures built.Some? ==> SendsAll(old(View()), round)
      ensures built.Some? ==> (built.value <==> round.builds != [])
      ensures built.Some? ==> AllTried(db)
    {
      round := Round([], [], [], [], []);
      ghost var sent, answers, stores, tries, follows, builds;
      var ok;
      ok, sent, answers := SendOutbox();
      round := Round(answers, [], [], [], []);
      assert Steps(round) == answers;
      if !ok { return None, round; }
      ok, stores, tries, follows := Synchronize();
      RunMore(old(View()), user, answers, stores + tries + follows);
      round := Round(answers, stores, tries, follows, []);
      assert Steps(round) == answers + (stores + tries + follows);
      if !ok { return None, round; }
      built, builds := BuildAttempts();
      RunMore(old(View()), user, Steps(round), builds);
      round := Round(answers, stores, tries, follows, builds);
    }

    /** At most four rounds, and another one only after something was built. */
    method DriveRounds() returns (ok: bool, ghost rounds: seq<Round>)
      requires Coherent() && RowidsUnique(db.outbox)
      modifies `db, `cache, `starts, `script, `faulty
      ensures Coherent() && Driven(old(View()), user, rounds, View(), ok) && Ended(rounds, ok)
    {
      ok, rounds := true, [];
      ghost var first := View();
      DrivenStart(first, user);
      var n := 0;
      while n < 4
        invariant 0 <= n <= 4 && |rounds| == n && Coherent()
        invariant Driven(first, user, rounds, View(), true) && AllBuilt(rounds)
      {
        ghost var before := View();
        UniqueNow(first, user, rounds, before);
        var built; ghost var round;
        built, round := DriveRound();
        DrivenMore(first, user, rounds, before, round, View(), built);
        rounds := rounds + [round];
        if built != Some(true) { return built != None, rounds; }
        n := n + 1;
      }
    }
  }

  // ----- what the traces of the phases hold -----

  datatype Phase = Answering | Storing | Processing | Following | Building

  predicate Belongs(action: Action, phase: Phase) {
    match phase
    case Answering => action.Answer?
    case Storing => action.Store?
    case Processing => action.Process?
    case Following => action.Receive? || action.Apply?
    case Building => action.Build?
  }

  predicate All(trace: seq<Action>, phase: Phase) { forall i :: 0 <= i < |trace| ==> Belongs(trace[i], phase) }

  lemma AllMore(a: seq<Action>, b: seq<Action>, phase: Phase)
    requires All(a, phase) && All(b, phase)
    ensures All(a + b, phase)
  {}

  /** One round of the engine, phase by phase. */
  datatype Round = Round(
    answers: seq<Action>, stores: seq<Action>, tries: seq<Action>, follows: seq<Action>, builds: seq<Action>)

  /** The round answers every row that waits at its start, once and in row order. */
  ghost predicate SendsAll(client: Client, round: Round) {
    exists sent :: AllSent(client.db.outbox, sent) && Answers(round.answers, sent)
  }

  /** So does every round, except perhaps a last one that fails. */
  ghost predicate RoundsSend(client: Client, user: UserId, rounds: seq<Round>, ok: bool) {
    forall i :: 0 <= i < |rounds| && (ok || i < |rounds| - 1) ==> SendsAt(client, user, rounds, i)
  }

  ghost predicate SendsAt(client: Client, user: UserId, rounds: seq<Round>, i: nat)
    requires i < |rounds|
  {
    SendsAll(RunClient(client, user, StepsOf(rounds[..i])), rounds[i])
  }

  lemma RoundsMore(client: Client, user: UserId, rounds: seq<Round>, round: Round, ok: bool)
    requires RoundsSend(client, user, rounds, true)
    requires ok ==> SendsAll(RunClient(client, user, StepsOf(rounds)), round)
    ensures RoundsSend(client, user, rounds + [round], ok)
  {
    var all := rounds + [round];
    forall i | 0 <= i < |all| && (ok || i < |all| - 1)
      ensures SendsAt(client, user, all, i)
    {
      assert all[..i] == rounds[..i];
      if i == |rounds| {
        assert rounds[..i] == rounds;
      } else {
        assert SendsAt(client, user, rounds, i);
      }
    }
  }

  predicate AllBuilt(rounds: seq<Round>) { forall i :: 0 <= i < |rounds| ==> rounds[i].builds != [] }

  /** Where so many rounds lead, and what they have done: each in order and sending all that
      waits, all but the last building something, and after success every intent tried. */
  ghost predicate Driven(client: Client, user: UserId, rounds: seq<Round>, end: Client, ok: bool) {
    && end == RunClient(client, user, StepsOf(rounds)) && RowidsUnique(end.db.outbox)
    && RoundsSend(client, user, rounds, ok) && (forall i :: 0 <= i < |rounds| ==> RoundOk(rounds[i]))
    && (rounds != [] ==> AllBuilt(rounds[..|rounds| - 1]) && (ok ==> AllTried(end.db)))
  }

  /** At most four rounds, and after success no fewer unless the last one built nothing. */
  predicate Ended(rounds: seq<Round>, ok: bool) {
    |rounds| <= 4 && (ok ==> rounds != [] && (|rounds| == 4 || rounds[|rounds| - 1].builds == []))
  }

  lemma DrivenStart(client: Client, user: UserId)
    requires RowidsUnique(client.db.outbox)
    ensures Driven(client, user, [], client, true)
  {}

  lemma UniqueNow(client: Client, user: UserId, rounds: seq<Round>, end: Client)
    requires Driven(client, user, rounds, end, true)
    ensures RowidsUnique(end.db.outbox)
  {}

  lemma DrivenMore(
    client: Client, user: UserId, rounds: seq<Round>, end: Client, round: Round, end': Client, built: Option<bool>)
    requires Driven(client, user, rounds, end, true) && AllBuilt(rounds) && RoundOk(round)
    requires end' == RunClient(end, user, Steps(round))
    requires built.Some? ==>
               SendsAll(end, round) && AllTried(end'.db) && (built.value <==> round.builds != [])
    ensures Driven(client, user, rounds + [round], end', built.Some?)
    ensures built == Some(true) ==> AllBuilt(rounds + [round])
    ensures built == Some(false) && |rounds| < 4 ==> Ended(rounds + [round], true)
  {
    RunMore(client, user, StepsOf(rounds), Steps(round));
    StepsMore(rounds, round);
    RunUnique(end, user, Steps(round));
    RoundsMore(client, user, rounds, round, built.Some?);
    assert (rounds + [round])[..|rounds|] == rounds;
  }

  /** An intent that came too late has to wait, if the drive that left it there did not fail. */
  lemma LateWaits(client: Client, user: UserId, rounds: seq<Round>, end: Client, room: RoomId)
    requires Disciplined(client.db, user, client.starts) && TooLate(client.db, room)
    requires Driven(client, user, rounds, end, true) && Ended(rounds, true)
    ensures Backlog(end.db, room)
  {
    RunKept(client, user, StepsOf(rounds));
    TooLateForGood(client, user, StepsOf(rounds), room);
    assert Tried(end.db, room);
  }

  predicate RoundOk(r: Round) {
    && All(r.answers, Answering) && All(r.stores, Storing) && All(r.tries, Processing) && All(r.follows, Following)
    && All(r.builds, Building)
  }

  function Steps(r: Round): seq<Action> { r.answers + (r.stores + r.tries + r.follows) + r.builds }

  function StepsOf(rounds: seq<Round>): seq<Action> {
    if rounds == [] then [] else StepsOf(rounds[..|rounds| - 1]) + Steps(rounds[|rounds| - 1])
  }

  lemma StepsMore(rounds: seq<Round>, round: Round)
    ensures StepsOf(rounds + [round]) == StepsOf(rounds) + Steps(round)
  {
    assert (rounds + [round])[..|rounds|] == rounds;
  }

  // ----- pages of the queue -----

  function StoresOf(page: Response): seq<Action>
    requires page.Welcomes?
  {
    if page.welcomes == [] then [] else [Action.Store(page.welcomes)]
  }

  /** Where the cursor stands after a page. */
  function Advanced(page: Response): nat
    requires page.Welcomes?
  {
    if page.welcomes == [] then page.afterCursor else page.welcomes[|page.welcomes| - 1].cursor
  }

  /** Where the cursor stands after the pages. */
  function EndOf(cursor: nat, pages: seq<Response>): nat {
    if pages == [] then cursor
    else
      var last := pages[|pages| - 1];
      if last.Welcomes? && last.welcomes != [] then last.welcomes[|last.welcomes| - 1].cursor
      else EndOf(cursor, pages[..|pages| - 1])
  }

  /** Each page was asked for after the last Welcome of the one before, and only because there
      was more. */
  ghost predicate Chained(cursor: nat, pages: seq<Response>) {
    && (forall i :: 0 <= i < |pages| ==> pages[i].Welcomes? && pages[i].afterCursor == EndOf(cursor, pages[..i]))
    && (forall i :: 0 <= i < |pages| - 1 ==> pages[i].more)
  }

  function StoresOfAll(pages: seq<Response>): seq<Action> {
    if pages == [] then []
    else
      var last := pages[|pages| - 1];
      StoresOfAll(pages[..|pages| - 1]) + (if last.Welcomes? then StoresOf(last) else [])
  }

  /** What fetching the queue has stored, and where the cursor stands now. */
  ghost predicate Fetched(cursor: nat, pages: seq<Response>, trace: seq<Action>, end: nat) {
    All(trace, Storing) && Chained(cursor, pages) && trace == StoresOfAll(pages) && end == EndOf(cursor, pages)
  }

  lemma FetchedMore(cursor: nat, pages: seq<Response>, trace: seq<Action>, end: nat, page: Response)
    requires Fetched(cursor, pages, trace, end) && (pages != [] ==> pages[|pages| - 1].more)
    requires page.Welcomes? && page.afterCursor == end
    ensures Fetched(cursor, pages + [page], trace + StoresOf(page), Advanced(page))
  {
    assert (pages + [page])[..|pages|] == pages;
    ChainedMore(cursor, pages, page);
    AllMore(trace, StoresOf(page), Storing);
  }

  lemma ChainedMore(cursor: nat, pages: seq<Response>, page: Response)
    requires Chained(cursor, pages) && (pages != [] ==> pages[|pages| - 1].more)
    requires page.Welcomes? && page.afterCursor == EndOf(cursor, pages)
    ensures Chained(cursor, pages + [page])
  {
    var longer := pages + [page];
    forall i | 0 <= i < |longer| ensures longer[i].Welcomes? && longer[i].afterCursor == EndOf(cursor, longer[..i]) {
      assert longer[..i] == pages[..i];
      if i == |pages| {
        assert pages[..i] == pages;
      }
    }
  }

  // ----- the rooms of the index -----

  predicate HeadFits(db: Database, head: RoomHead, after: Option<RoomId>) {
    (after.Some? ==> after.value < head.room) && Cursor(db, head.room) <= head.sequence <= I64_MAX
    && NormalizeRoomName(head.name).Some?
  }

  /** The room is left alone for a reason, caught up, or stalled. */
  predicate SyncedTo(db: Database, room: RoomId, head: nat) {
    Unresolved(db, room) || !HasGroup(db, room) || Cursor(db, room) >= head || Stalled(db, room)
  }

  /** The room's turn was over after so many steps. */
  ghost predicate TurnOver(client: Client, user: UserId, trace: seq<Action>, head: RoomHead, end: nat) {
    end <= |trace| && SyncedTo(RunClient(client, user, trace[..end]).db, head.room, head.sequence)
  }

  /** Every room of the list had its turn. */
  ghost predicate Visited(client: Client, user: UserId, trace: seq<Action>, heads: seq<RoomHead>, ends: seq<nat>) {
    |ends| == |heads| && forall i :: 0 <= i < |ends| ==> TurnOver(client, user, trace, heads[i], ends[i])
  }

  /** The rooms of an index that had their turn, in order. */
  ghost predicate Turned(client: Client, user: UserId, trace: seq<Action>, start: Option<RoomId>,
                         rooms: seq<RoomHead>, after: Option<RoomId>, ends: seq<nat>)
  {
    && All(trace, Following) && HeadsFollow(start, rooms) && after == Last(start, rooms)
    && Visited(client, user, trace, rooms, ends)
  }

  /** One more head: the run goes on, and after success its turn is over. */
  lemma HeadTurn(client: Client, user: UserId, trace: seq<Action>, start: Option<RoomId>, rooms: seq<RoomHead>,
                 i: nat, after: Option<RoomId>, ends: seq<nat>, db: Database, step: seq<Action>, ok: bool)
    requires i < |rooms| && Turned(client, user, trace, start, rooms[..i], after, ends) && All(step, Following)
    requires ok ==> HeadFits(db, rooms[i], after)
                    && SyncedTo(RunClient(RunClient(client, user, trace), user, step).db, rooms[i].room,
                                rooms[i].sequence)
    ensures RunClient(client, user, trace + step) == RunClient(RunClient(client, user, trace), user, step)
    ensures All(trace + step, Following)
    ensures ok ==> Turned(client, user, trace + step, start, rooms[..i + 1], Some(rooms[i].room),
                          ends + [|trace + step|])
  {
    RunMore(client, user, trace, step);
    AllMore(trace, step, Following);
    if ok {
      TurnedMore(client, user, trace, start, rooms, i, after, ends, db, step);
    }
  }

  lemma TurnedMore(client: Client, user: UserId, trace: seq<Action>, start: Option<RoomId>, rooms: seq<RoomHead>,
                   i: nat, after: Option<RoomId>, ends: seq<nat>, db: Database, step: seq<Action>)
    requires i < |rooms| && Turned(client, user, trace, start, rooms[..i], after, ends)
    requires All(step, Following) && HeadFits(db, rooms[i], after)
    requires SyncedTo(RunClient(client, user, trace + step).db, rooms[i].room, rooms[i].sequence)
    ensures Turned(client, user, trace + step, start, rooms[..i + 1], Some(rooms[i].room), ends + [|trace + step|])
  {
    AllMore(trace, step, Following);
    HeadFollows(start, rooms, i);
    VisitedMore(client, user, trace, rooms, ends, i, step);
  }

  function Shifted(ends: seq<nat>, n: nat): (shifted: seq<nat>)
    ensures |shifted| == |ends|
  {
    seq<nat>(|ends|, i requires 0 <= i < |ends| => ends[i] + n)
  }

  lemma TurnLonger(client: Client, user: UserId, trace: seq<Action>, head: RoomHead, end: nat, more: seq<Action>)
    requires TurnOver(client, user, trace, head, end)
    ensures TurnOver(client, user, trace + more, head, end)
  {
    assert (trace + more)[..end] == trace[..end];
  }

  lemma VisitedLonger(
    client: Client, user: UserId, trace: seq<Action>, heads: seq<RoomHead>, ends: seq<nat>, more: seq<Action>)
    requires Visited(client, user, trace, heads, ends)
    ensures Visited(client, user, trace + more, heads, ends)
  {
    forall i | 0 <= i < |ends| ensures TurnOver(client, user, trace + more, heads[i], ends[i]) {
      TurnLonger(client, user, trace, heads[i], ends[i], more);
    }
  }

  lemma VisitedMore(client: Client, user: UserId, trace: seq<Action>, rooms: seq<RoomHead>, ends: seq<nat>, i: nat,
                    step: seq<Action>)
    requires i < |rooms| && Visited(client, user, trace, rooms[..i], ends)
    requires SyncedTo(RunClient(client, user, trace + step).db, rooms[i].room, rooms[i].sequence)
    ensures Visited(client, user, trace + step, rooms[..i + 1], ends + [|trace + step|])
  {
    VisitedLonger(client, user, trace, rooms[..i], ends, step);
    var all := trace + step;
    assert all[..|all|] == all;
    assert TurnOver(client, user, all, rooms[i], |all|);
  }

  lemma VisitedJoin(client: Client, user: UserId, trace: seq<Action>, heads: seq<RoomHead>, ends: seq<nat>,
                    mid: Client, step: seq<Action>, rooms: seq<RoomHead>, marks: seq<nat>)
    requires Visited(client, user, trace, heads, ends) && mid == RunClient(client, user, trace)
    requires Visited(mid, user, step, rooms, marks)
    ensures Visited(client, user, trace + step, heads + rooms, ends + Shifted(marks, |trace|))
  {
    VisitedLonger(client, user, trace, heads, ends, step);
    VisitedLater(client, user, trace, mid, step, rooms, marks);
    VisitedConcat(client, user, trace + step, heads, ends, rooms, Shifted(marks, |trace|));
  }

  lemma TurnLater(client: Client, user: UserId, trace: seq<Action>, mid: Client, step: seq<Action>, head: RoomHead,
                  mark: nat, end: nat)
    requires mid == RunClient(client, user, trace) && TurnOver(mid, user, step, head, mark) && end == mark + |trace|
    ensures TurnOver(client, user, trace + step, head, end)
  {
    RunMore(client, user, trace, step[..mark]);
    assert (trace + step)[..end] == trace + step[..mark];
  }

  lemma LaterAt(client: Client, user: UserId, trace: seq<Action>, mid: Client, step: seq<Action>,
                rooms: seq<RoomHead>, marks: seq<nat>, i: nat)
    requires mid == RunClient(client, user, trace) && Visited(mid, user, step, rooms, marks) && i < |marks|
    ensures TurnOver(client, user, trace + step, rooms[i], Shifted(marks, |trace|)[i])
  {
    TurnLater(client, user, trace, mid, step, rooms[i], marks[i], Shifted(marks, |trace|)[i]);
  }

  lemma VisitedLater(client: Client, user: UserId, trace: seq<Action>, mid: Client, step: seq<Action>,
                     rooms: seq<RoomHead>, marks: seq<nat>)
    requires mid == RunClient(client, user, trace) && Visited(mid, user, step, rooms, marks)
    ensures Visited(client, user, trace + step, rooms, Shifted(marks, |trace|))
  {
    forall i | 0 <= i < |marks|
      ensures TurnOver(client, user, trace + step, rooms[i], Shifted(marks, |trace|)[i])
    {
      LaterAt(client, user, trace, mid, step, rooms, marks, i);
    }
  }

  lemma VisitedConcat(client: Client, user: UserId, trace: seq<Action>, a: seq<RoomHead>, aEnds: seq<nat>,
                      b: seq<RoomHead>, bEnds: seq<nat>)
    requires Visited(client, user, trace, a, aEnds) && Visited(client, user, trace, b, bEnds)
    ensures Visited(client, user, trace, a + b, aEnds + bEnds)
  {}

  lemma {:induction false} HeadsJoin(start: Option<RoomId>, a: seq<RoomHead>, b: seq<RoomHead>)
    requires HeadsFollow(start, a) && HeadsFollow(Last(start, a), b)
    ensures HeadsFollow(start, a + b) && Last(start, a + b) == Last(Last(start, a), b)
    decreases |b|
  {
    if b == [] {
      assert a + b == a;
    } else {
      var init := b[..|b| - 1];
      HeadsJoin(start, a, init);
      assert (a + b)[..|a + b| - 1] == a + init;
    }
  }

  /** The rooms of a page stand after a room, in increasing order, with usable heads and names. */
  predicate HeadsFollow(start: Option<RoomId>, rooms: seq<RoomHead>) {
    rooms != [] ==>
      var head, before := rooms[|rooms| - 1], rooms[..|rooms| - 1];
      && HeadsFollow(start, before) && (Last(start, before).Some? ==> Last(start, before).value < head.room)
      && head.sequence <= I64_MAX && NormalizeRoomName(head.name).Some?
  }

  function Last(start: Option<RoomId>, rooms: seq<RoomHead>): Option<RoomId> {
    if rooms == [] then start else Some(rooms[|rooms| - 1].room)
  }

  lemma HeadFollows(start: Option<RoomId>, rooms: seq<RoomHead>, i: nat)
    requires i < |rooms| && HeadsFollow(start, rooms[..i])
    requires Last(start, rooms[..i]).Some? ==> Last(start, rooms[..i]).value < rooms[i].room
    requires rooms[i].sequence <= I64_MAX && NormalizeRoomName(rooms[i].name).Some?
    ensures HeadsFollow(start, rooms[..i + 1]) && Last(start, rooms[..i + 1]) == Some(rooms[i].room)
  {
    assert rooms[..i + 1][..i] == rooms[..i];
  }

  function Unattempted(intents: map<RoomId, Intent>): set<RoomId> {
    set room | room in intents && intents[room].attempt.None?
  }

  /** The rooms still to build have no attempt; all others were tried. */
  ghost predicate ToBuild(db: Database, rooms: set<RoomId>) {
    && (forall room :: room in rooms ==> room in db.intents && db.intents[room].attempt.None?)
    && (forall room :: room in db.intents && room !in rooms ==> Tried(db, room))
  }

  /** Building in one room leaves the other intents alone. */
  ghost predicate BuildsOnly(db: Database, db': Database, room: RoomId) {
    && db'.intents.Keys == db.intents.Keys
    && (forall r :: r in db.intents && r != room ==> db'.intents[r] == db.intents[r])
    && (forall r :: Tried(db, r) ==> Tried(db', r))
  }

  lemma BuiltOne(db: Database, db': Database, rooms: set<RoomId>, room: RoomId)
    requires ToBuild(db, rooms) && BuildsOnly(db, db', room) && room in rooms && Tried(db', room)
    ensures ToBuild(db', rooms - {room})
  {}

  lemma TriedStays(db: Database, db': Database, room: RoomId, id: MessageId)
    requires BuildsAttempt(db, db', room, id)
    ensures Tried(db', room) && forall r :: Tried(db, r) ==> Tried(db', r)
  {
    forall r ensures HasGroup(db, r) <==> HasGroup(db', r) {}
    forall r ensures Backlog(db, r) <==> Backlog(db', r) {}
  }

  lemma DrawnByDiscipline(db: Database, user: UserId, starts: Starts)
    requires Disciplined(db, user, starts)
    ensures AttemptsDrawn(db.intents)
  {
    forall room | room in db.intents && db.intents[room].attempt.Some? ensures db.intents[room].attempt.value.Random? {
      assert AttemptOf(db, room, db.intents[room].attempt.value);
    }
  }

  lemma FinishFrame(db: Database, user: UserId, event: Event, state: RowState, db': Database)
    requires FinishEvent(db, user, event, state) == Some(db')
    ensures db' == Advance(db, event, state).(outbox := db'.outbox)
    ensures forall id :: id in db'.outbox ==> id in db.outbox || id.Receipt?
  {}

  lemma ResolvedStays(db: Database, db': Database, room: RoomId)
    requires AttemptsDrawn(db.intents) && !Unresolved(db, room)
    requires room in db'.intents ==> room in db.intents && db'.intents[room].attempt == db.intents[room].attempt
    requires forall id :: id in db'.outbox ==> id in db.outbox || id.Receipt?
    requires forall id :: id in db.inbox ==> id in db'.inbox
    ensures !Unresolved(db', room)
  {}

  lemma OwnFrame(db: Database, user: UserId, event: Event, db': Database)
    requires ApplyOwn(db, user, event) == Some(db') && HasGroup(db, event.operation.room)
    requires !Unresolved(db, event.operation.room) && AttemptsDrawn(db.intents)
    requires forall room :: room in db.groups && db.groups[room].pending.Some? ==>
               db.groups[room].pending.value.roster <= db.contacts
    ensures forall id :: id in db.inbox ==> id in db'.inbox && db'.inbox[id].event == db.inbox[id].event
    ensures HasGroup(db', event.operation.room) && !Unresolved(db', event.operation.room)
    ensures Cursor(db', event.operation.room) == event.operation.parent + 1
  {
    var db0 := if event.operation.contentType == Commit then ApplyAcceptedCommit(db, event.operation.room).value
               else db;
    FinishFrame(Claim(db0, event), user, event, Applied, db');
    ResolvedStays(db, db', event.operation.room);
  }

  lemma OpenedKnown(db: Database, user: UserId, event: Event, db1: Database, plaintext: Option<seq<byte>>)
    requires ProcessBound(db, user, event) == Opened(db1, plaintext)
    ensures HasGroup(Remember(db1, event, plaintext), event.operation.room)
    ensures Remember(db1, event, plaintext).outbox == db.outbox
  {}

  lemma OtherFrame(db: Database, user: UserId, event: Event, db': Database)
    requires ApplyOther(db, user, event) == Some(db') && HasGroup(db, event.operation.room)
    requires !Unresolved(db, event.operation.room) && AttemptsDrawn(db.intents)
    ensures forall id :: id in db.inbox ==> id in db'.inbox && db'.inbox[id].event == db.inbox[id].event
    ensures HasGroup(db', event.operation.room) && !Unresolved(db', event.operation.room)
    ensures !ProcessBound(db, user, event).FaultBlocked? ==>
              Cursor(db', event.operation.room) == event.operation.parent + 1
  {
    match ProcessBound(db, user, event) {
      case FaultBlocked => ResolvedStays(db, db', event.operation.room);
      case FaultRejected => AfterSettling(db, db, user, event, Refused, db');
      case Opened(db1, plaintext) =>
        OpenedKnown(db, user, event, db1, plaintext);
        OpenedFrame(db, user, event, db1, plaintext);
        AfterSettling(db, Remember(db1, event, plaintext), user, event, Applied, db');
    }
  }

  lemma AfterSettling(db: Database, db2: Database, user: UserId, event: Event, state: RowState, db': Database)
    requires FinishEvent(db2, user, event, state) == Some(db') && HasGroup(db2, event.operation.room)
    requires db2.inbox == db.inbox && db2.intents == db.intents && db2.outbox == db.outbox
    requires !Unresolved(db, event.operation.room) && AttemptsDrawn(db.intents)
    ensures forall id :: id in db.inbox ==> id in db'.inbox && db'.inbox[id].event == db.inbox[id].event
    ensures HasGroup(db', event.operation.room) && !Unresolved(db', event.operation.room)
    ensures Cursor(db', event.operation.room) == event.operation.parent + 1
  {
    FinishFrame(db2, user, event, state, db');
    ResolvedStays(db, db', event.operation.room);
  }

  lemma StalledByFault(db: Database, user: UserId, event: Event, db': Database)
    requires ApplyEvent(db, user, event) == Some(db') && !Moves(db, user, event)
    requires event.id in db.inbox && db.inbox[event.id].event == event
    ensures Stalled(db', event.operation.room)
  {
    assert At(db'.inbox[event.id], event.operation.room, Cursor(db', event.operation.room));
  }

  /** What applying an event leaves as it was. */
  lemma AppliedFrame(db: Database, user: UserId, event: Event, db': Database)
    requires ApplyEvent(db, user, event) == Some(db') && HasGroup(db, event.operation.room)
    requires !Unresolved(db, event.operation.room) && AttemptsDrawn(db.intents)
    requires forall room :: room in db.groups && db.groups[room].pending.Some? ==>
               db.groups[room].pending.value.roster <= db.contacts
    ensures forall id :: id in db.inbox ==> id in db'.inbox && db'.inbox[id].event == db.inbox[id].event
    ensures HasGroup(db', event.operation.room) && !Unresolved(db', event.operation.room)
    ensures Moves(db, user, event) ==> Cursor(db', event.operation.room) == event.operation.parent + 1
  {
    if event.sender == user {
      OwnFrame(db, user, event, db');
    } else {
      OtherFrame(db, user, event, db');
    }
  }

  function OpenWelcomes(welcomes: map<nat, WelcomeEntry>): set<nat> {
    set c | c in welcomes && (welcomes[c].state == Pending || welcomes[c].state == Stuck)
  }

  ghost predicate Answers(trace: seq<Action>, page: seq<Entry>) {
    |trace| == |page| && forall i :: 0 <= i < |trace| ==> trace[i].Answer? && trace[i].id == page[i].id
  }

  lemma StillListed(outbox: map<MessageId, OutboxRow>, outbox': map<MessageId, OutboxRow>, page: seq<Entry>, i: nat)
    requires i < |page| && AscendsBy(page) && forall j :: 0 <= j < |page| ==> Listed(outbox, page[j])
    requires OnlyDrops(outbox, outbox', page[..i])
    ensures Listed(outbox', page[i])
  {
    assert !Has(page[..i], page[i].id);
  }

  lemma DropsMore(outbox: map<MessageId, OutboxRow>, mid: map<MessageId, OutboxRow>, outbox': map<MessageId, OutboxRow>,
                  page: seq<Entry>, i: nat)
    requires i < |page| && OnlyDrops(outbox, mid, page[..i])
    requires outbox' == mid || outbox' == mid - {page[i].id}
    ensures OnlyDrops(outbox, outbox', page[..i + 1]) && OnlyDrops(outbox, outbox', page)
  {
    forall id | Has(page[..i], id) || id == page[i].id ensures Has(page[..i + 1], id) && Has(page, id) {
      var k :| 0 <= k <= i && page[k].id == id;
      assert page[..i + 1][k].id == id;
    }
  }

  /** One more row of a page. */
  lemma RowSent(client: Client, user: UserId, trace: seq<Action>, outbox: map<MessageId, OutboxRow>,
                outbox': map<MessageId, OutboxRow>, page: seq<Entry>, i: nat, step: seq<Action>, ok: bool)
    requires i < |page| && Answers(trace, page[..i]) && All(step, Answering) && (ok ==> Answers(step, [page[i]]))
    requires OnlyDrops(client.db.outbox, outbox, page[..i])
    requires outbox' == outbox || outbox' == outbox - {page[i].id}
    ensures RunClient(client, user, trace + step) == RunClient(RunClient(client, user, trace), user, step)
    ensures All(trace + step, Answering) && (ok ==> Answers(trace + step, page[..i + 1]))
    ensures OnlyDrops(client.db.outbox, outbox', page[..i + 1]) && OnlyDrops(client.db.outbox, outbox', page)
  {
    DropsMore(client.db.outbox, outbox, outbox', page, i);
    RunMore(client, user, trace, step);
    AnswersAll(trace, page[..i]);
    AllMore(trace, step, Answering);
    if ok {
      AnswersMore(trace, page[..i], step, [page[i]]);
      assert page[..i + 1] == page[..i] + [page[i]];
    }
  }

  lemma AnswersAll(trace: seq<Action>, page: seq<Entry>)
    requires Answers(trace, page)
    ensures All(trace, Answering)
  {}

  lemma AnswersMore(trace: seq<Action>, page: seq<Entry>, more: seq<Action>, rest: seq<Entry>)
    requires Answers(trace, page) && Answers(more, rest)
    ensures Answers(trace + more, page + rest)
  {}

  ghost predicate OnTrack(
    first: map<MessageId, OutboxRow>, outbox: map<MessageId, OutboxRow>, sent: seq<Entry>, after: nat)
  {
    RowidsUnique(first) && RowidsUnique(outbox) && WalkedTo(first, outbox, sent, after)
  }

  /** The rows of an outbox, each once and in row order. */
  ghost predicate AllSent(first: map<MessageId, OutboxRow>, sent: seq<Entry>) {
    && AscendsBy(sent) && (forall i :: 0 <= i < |sent| ==> Listed(first, sent[i]))
    && (forall id :: id in first <==> Has(sent, id))
  }

  lemma WalkStart(outbox: map<MessageId, OutboxRow>)
    requires RowidsUnique(outbox)
    ensures OnTrack(outbox, outbox, [], 0)
  {}

  lemma DropsUnique(outbox: map<MessageId, OutboxRow>, outbox': map<MessageId, OutboxRow>, page: seq<Entry>)
    requires RowidsUnique(outbox) && OnlyDrops(outbox, outbox', page)
    ensures RowidsUnique(outbox')
  {}

  /** One page further, in an outbox with unique row identifiers. */
  lemma WalkOn(first: map<MessageId, OutboxRow>, outbox: map<MessageId, OutboxRow>, sent: seq<Entry>, after: nat,
               page: seq<Entry>, outbox': map<MessageId, OutboxRow>)
    requires page != [] && AscendsBy(page) && OnlyDrops(outbox, outbox', page)
    requires forall i :: 0 <= i < |page| ==> Listed(outbox, page[i]) && page[i].rowid > after
    requires OnTrack(first, outbox, sent, after) && Covers(outbox, after, page)
    ensures OnTrack(first, outbox', sent + page, page[|page| - 1].rowid)
  {
    WalkStep(first, outbox, sent, after, page, outbox');
    DropsUnique(outbox, outbox', page);
  }

  lemma WalkDone(first: map<MessageId, OutboxRow>, outbox: map<MessageId, OutboxRow>, sent: seq<Entry>, after: nat)
    requires OnTrack(first, outbox, sent, after) && Covers(outbox, after, [])
    ensures AllSent(first, sent)
  {
    WalkEnd(first, outbox, sent, after);
  }

  ghost predicate Tries(trace: seq<Action>, cursors: seq<nat>) {
    |trace| == |cursors| && forall i :: 0 <= i < |trace| ==> trace[i].Process? && trace[i].cursor == cursors[i]
  }

  lemma OthersOpen(db: Database, user: UserId, cursor: nat, keyAvailable: bool)
    requires cursor in db.welcomes
    ensures var welcomes' := ProcessWelcome(db, user, cursor, keyAvailable).welcomes;
            forall c :: c in OpenWelcomes(db.welcomes) && c != cursor ==> c in OpenWelcomes(welcomes')
  {
    ProcessCases(db, user, cursor, keyAvailable);
    var db' := ProcessWelcome(db, user, cursor, keyAvailable);
    if db' == MarkWelcome(db, cursor, Stuck) {
      OthersKept(db.welcomes, cursor, db'.welcomes);
    } else {
      JoinedWelcomes(db, user, cursor, keyAvailable, db');
      OthersKept(db.welcomes, cursor, db'.welcomes);
    }
  }

  ghost predicate KeepOthers(welcomes: map<nat, WelcomeEntry>, cursor: nat, welcomes': map<nat, WelcomeEntry>) {
    forall c :: c in welcomes && c != cursor ==> c in welcomes' && welcomes'[c] == welcomes[c]
  }

  lemma OthersKept(welcomes: map<nat, WelcomeEntry>, cursor: nat, welcomes': map<nat, WelcomeEntry>)
    requires KeepOthers(welcomes, cursor, welcomes')
    ensures forall c :: c in OpenWelcomes(welcomes) && c != cursor ==> c in OpenWelcomes(welcomes')
  {}

  lemma JoinedWelcomes(db: Database, user: UserId, cursor: nat, keyAvailable: bool, db': Database)
    requires cursor in db.welcomes
    requires JoinRoom(db, user, cursor, db.welcomes[cursor].record, keyAvailable) == Some(db')
    ensures KeepOthers(db.welcomes, cursor, db'.welcomes)
  {}
}
