/** No two messages of a room are encrypted in the same state of its ratchet, whatever the relay does
    and however often an attempt is built again. */
module Ratchets {
  import opened Records
  import opened ClientSpec
  import opened ClientInvariants
  import opened ClientTheorems
  import opened Provenance
  import opened Lineage

  /** Rooms stay, and their ratchets never turn back. */
  ghost predicate MovesOn(db: Database, db': Database) {
    forall room :: room in db.groups ==> room in db'.groups && db.groups[room].ratchet <= db'.groups[room].ratchet
  }

  lemma ConflictMovesOn(db: Database, id: MessageId, operation: Append, db': Database)
    requires CompleteConflict(db, id, operation) == Some(db')
    ensures MovesOn(db, db')
  {}

  lemma RefusalMovesOn(db: Database, id: MessageId, request: Request, db': Database)
    requires CompleteRefusal(db, id, request) == Some(db')
    ensures MovesOn(db, db')
  {}

  lemma AnswerMovesOn(db: Database, user: UserId, starts: Starts, id: MessageId, response: Response, db': Database)
    requires CursorsOk(db, starts) && Next(db, user, Answer(id, response)) == Some(db')
    ensures MovesOn(db, db')
  {
    var request := db.outbox[id].request;
    if response.AppendAccepted? {
      ReceiveIs(db, response.event, db');
    } else if response.HeadConflict? {
      ConflictMovesOn(db, id, request.operation, db');
    } else if response.RoomCreated? {
      CreationCases(db, user, starts, id, response.room);
    } else if response.Rejected? && !IsTransient(response) {
      RefusalMovesOn(db, id, request, db');
    } else if !IsTransient(response) {
      OtherRetires(db, user, id, response, db');
    }
  }

  /** Building a message takes the ratchet one step on. */
  lemma BuildMovesOn(db: Database, user: UserId, room: RoomId, id: MessageId, bytes: Ciphertext, db': Database)
    requires Next(db, user, Build(room, id, bytes)) == Some(db')
    ensures MovesOn(db, db')
    ensures db.intents[room].target.None? && db.intents[room].package.None? ==>
              room in db.groups && room in db'.groups && db.groups[room].ratchet < db'.groups[room].ratchet
  {
    var intent := db.intents[room];
    if intent.package.Some? {
      AddMovesOn(db, user, room, intent, id, bytes, BuildAdd(db, user, room, intent, id, bytes).value);
    } else if intent.target.None? {
      SendMovesOn(db, user, room, intent, id, bytes, BuildSend(db, user, room, intent, id, bytes).value);
    } else {
      assert db'.groups == db.groups;
    }
  }

  lemma SendMovesOn(db: Database, user: UserId, room: RoomId, intent: Intent, id: MessageId, bytes: Ciphertext,
                    db': Database)
    requires BuildSend(db, user, room, intent, id, bytes) == Some(db')
    ensures MovesOn(db, db') && room in db.groups && room in db'.groups
    ensures db.groups[room].ratchet < db'.groups[room].ratchet
  {}

  lemma AddMovesOn(db: Database, user: UserId, room: RoomId, intent: Intent, id: MessageId, bytes: Ciphertext,
                   db': Database)
    requires BuildAdd(db, user, room, intent, id, bytes) == Some(db')
    ensures MovesOn(db, db')
  {}

  lemma JoinMovesOn(db: Database, user: UserId, cursor: nat, keyAvailable: bool, db': Database)
    requires db.groups.Keys == db.cursors.Keys && Next(db, user, Process(cursor, keyAvailable)) == Some(db')
    ensures MovesOn(db, db')
  {
    ProcessJoins(db, user, cursor, keyAvailable, db');
  }

  lemma OtherMovesOn(db: Database, user: UserId, event: Event, db': Database)
    requires ApplyOther(db, user, event) == Some(db') && event.id in db.inbox
    ensures MovesOn(db, db')
  {
    match ProcessBound(db, user, event) {
      case Failure =>
      case FaultBlocked =>
      case FaultRejected => FinishMovesOn(db, db, user, event, Refused, db');
      case Opened(db1, plaintext) =>
        OpenedMovesOn(db, user, event, db1, plaintext);
        RememberFrame(db1, event, plaintext);
        FinishMovesOn(db, Remember(db1, event, plaintext), user, event, Applied, db');
    }
  }

  lemma OpenedMovesOn(db: Database, user: UserId, event: Event, db1: Database, plaintext: Option<seq<byte>>)
    requires ProcessBound(db, user, event) == Opened(db1, plaintext)
    ensures MovesOn(db, db1) && db1.inbox == db.inbox
  {}

  lemma FinishMovesOn(db: Database, db1: Database, user: UserId, event: Event, state: RowState, db': Database)
    requires MovesOn(db, db1) && FinishEvent(db1, user, event, state) == Some(db') && event.id in db1.inbox
    ensures MovesOn(db, db')
  {
    FinishIs(db1, user, event, state, db');
  }

  lemma OwnMovesOn(db: Database, user: UserId, event: Event, db': Database)
    requires ApplyOwn(db, user, event) == Some(db') && event.id in db.inbox
    ensures MovesOn(db, db')
  {
    var applied := if event.operation.contentType == Commit then ApplyAcceptedCommit(db, event.operation.room).value
                   else db;
    FinishIs(Claim(applied, event), user, event, Applied, db');
  }

  lemma StepMovesOn(db: Database, user: UserId, starts: Starts, action: Action, db': Database)
    requires CursorsOk(db, starts) && Next(db, user, action) == Some(db')
    ensures MovesOn(db, db')
  {
    if action.Answer? {
      AnswerMovesOn(db, user, starts, action.id, action.response, db');
    } else if action.Build? {
      BuildMovesOn(db, user, action.room, action.id, action.bytes, db');
    } else if action.Process? {
      JoinMovesOn(db, user, action.cursor, action.keyAvailable, db');
    } else if action.Apply? {
      if action.event.sender == user {
        OwnMovesOn(db, user, action.event, db');
      } else {
        OtherMovesOn(db, user, action.event, db');
      }
    } else {
      QuietGroups(db, user, action, db');
    }
  }

  lemma QuietGroups(db: Database, user: UserId, action: Action, db': Database)
    requires action.Import? || action.Issue? || action.Intend? || action.Receive? || action.Store?
    requires Next(db, user, action) == Some(db')
    ensures db'.groups == db.groups
  {
    if action.Receive? { ReceiveIs(db, action.event, db'); }
  }

  lemma {:induction false} RunMovesOn(client: Client, user: UserId, actions: seq<Action>)
    requires Disciplined(client.db, user, client.starts)
    ensures MovesOn(client.db, RunClient(client, user, actions).db)
    decreases |actions|
  {
    if actions != [] {
      var next := Step(client, user, actions[0]);
      if Next(client.db, user, actions[0]).Some? {
        StepKept(client.db, user, client.starts, actions[0], next.db);
        StepMovesOn(client.db, user, client.starts, actions[0], next.db);
      }
      RunMovesOn(next, user, actions[1..]);
    }
  }

  /** The action builds a message of the room. */
  predicate Encrypts(db: Database, user: UserId, room: RoomId, action: Action) {
    && action.Build? && action.room == room && Next(db, user, action).Some?
    && room in db.intents && db.intents[room].target.None? && db.intents[room].package.None?
    && room in db.groups
  }

  /** Of two messages built in a room, on any run, the later one is encrypted further on. */
  lemma FreshRatchets(user: UserId, actions: seq<Action>, i: nat, j: nat, room: RoomId)
    requires i < j < |actions|
    ensures var first, second := After(user, actions[..i]).db, After(user, actions[..j]).db;
            Encrypts(first, user, room, actions[i]) && Encrypts(second, user, room, actions[j]) ==>
              first.groups[room].ratchet < second.groups[room].ratchet
  {
    var before := After(user, actions[..i]);
    if Encrypts(before.db, user, room, actions[i]) {
      var next := Step(before, user, actions[i]);
      ReachedProven(user, actions[..i]);
      StepKept(before.db, user, before.starts, actions[i], next.db);
      BuildMovesOn(before.db, user, room, actions[i].id, actions[i].bytes, next.db);
      RunMovesOn(next, user, actions[i + 1..j]);
      Between(user, actions, i, j);
    }
  }

  lemma Between(user: UserId, actions: seq<Action>, i: nat, j: nat)
    requires i < j <= |actions|
    ensures After(user, actions[..j])
            == RunClient(Step(After(user, actions[..i]), user, actions[i]), user, actions[i + 1..j])
  {
    var rest := [actions[i]] + actions[i + 1..j];
    assert actions[..j] == actions[..i] + rest;
    RunMore(Client(Fresh(user), map[]), user, actions[..i], rest);
    assert rest[0] == actions[i] && rest[1..] == actions[i + 1..j];
  }
}
