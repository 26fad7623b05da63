/**
  Where a client's groups come from, against any relay: a room is created by the user or entered by
  a Welcome that a verified contact signed for the user, and from then on its group changes exactly
  by the commits the client applies, each made on the group before it.
 */
module Lineage {
  import opened Records
  import opened RoomNames
  import opened ClientSpec
  import opened ClientInvariants
  import opened ClientTheorems
  import opened Provenance

  /** For each room, the groups it has had: the first one, and one after every settled event. */
  type Lines = map<RoomId, seq<Group>>

  function NewLines(lines: Lines, starts: Starts, db: Database): Lines {
    map room | room in db.groups && room in db.cursors && room in starts ::
      if room !in lines then [db.groups[room].group]
      else if |lines[room]| + starts[room] <= db.cursors[room] then lines[room] + [db.groups[room].group]
      else lines[room]
  }

  datatype Trace = Trace(client: Client, lines: Lines)

  function TraceStep(trace: Trace, user: UserId, action: Action): Trace {
    var next := Step(trace.client, user, action);
    Trace(next, NewLines(trace.lines, next.starts, next.db))
  }

  /** A run of a client that remembers the groups. */
  function RunTrace(trace: Trace, user: UserId, actions: seq<Action>): Trace
    decreases |actions|
  {
    if actions == [] then trace else RunTrace(TraceStep(trace, user, actions[0]), user, actions[1..])
  }

  lemma {:induction false} TraceIsRun(trace: Trace, user: UserId, actions: seq<Action>)
    ensures RunTrace(trace, user, actions).client == RunClient(trace.client, user, actions)
    decreases |actions|
  {
    if actions != [] { TraceIsRun(TraceStep(trace, user, actions[0]), user, actions[1..]); }
  }

  // ----- what the groups follow -----

  ghost predicate LinesOk(db: Database, starts: Starts, lines: Lines) {
    lines.Keys == db.groups.Keys && forall room :: room in lines ==> LineOk(db, starts, lines, room)
  }

  /** One group for every place from the start to the cursor, the last of them the current one. */
  ghost predicate LineOk(db: Database, starts: Starts, lines: Lines, room: RoomId)
    requires room in lines && room in db.groups
  {
    && room in db.cursors && room in starts && starts[room] <= db.cursors[room]
    && |lines[room]| == db.cursors[room] - starts[room] + 1
    && lines[room][|lines[room]| - 1] == db.groups[room].group
  }

  /** The group before and after a settled event: it changes exactly by an applied commit, which was
      made on it, by a member unless it is the user's own, and adds somebody new. */
  ghost predicate Follows(starts: Starts, lines: Lines, user: UserId, event: Event, state: RowState) {
    var room, parent := event.operation.room, event.operation.parent;
    && room in lines && room in starts && starts[room] <= parent && parent - starts[room] + 1 < |lines[room]|
    && Changes(lines[room][parent - starts[room]], lines[room][parent - starts[room] + 1], user, event, state)
  }

  predicate Changes(before: Group, after: Group, user: UserId, event: Event, state: RowState) {
    if state == Refused then after == before
    else
      match event.operation.body.content
      case ApplicationMessage(epoch, sender, _, _) =>
        after == before && epoch == before.epoch && (sender != user ==> sender in before.roster)
      case CommitMessage(base, sender, _, added) =>
        && base == before && added !in before.roster && (sender != user ==> sender in before.roster)
        && after == Group(before.epoch + 1, before.roster + {added})
      case _ => false
  }

  ghost predicate RowsFollow(inbox: map<MessageId, InboxRow>, starts: Starts, lines: Lines, user: UserId) {
    forall id :: id in inbox && Settled(inbox[id].state) ==>
      Follows(starts, lines, user, inbox[id].event, inbox[id].state)
  }

  // ----- attempts are made on the current group -----

  /** The append waits for its place: its event has not come back, or not been applied. */
  predicate Waiting(db: Database, user: UserId, id: MessageId) {
    && id in db.outbox && db.outbox[id].request.AppendRoomOperation?
    && (id in db.inbox ==> db.inbox[id].event == Event(id, user, db.outbox[id].request.operation))
  }

  predicate MadeOn(group: Group, operation: Append) {
    match operation.body.content
    case ApplicationMessage(epoch, _, _, _) => epoch == group.epoch
    case CommitMessage(base, _, _, added) => base == group && added !in group.roster
    case _ => false
  }

  ghost predicate Current(db: Database, user: UserId, id: MessageId)
    requires Waiting(db, user, id)
  {
    var operation := db.outbox[id].request.operation;
    && operation.room in db.groups && operation.room in db.cursors
    && operation.parent == db.cursors[operation.room] && MadeOn(db.groups[operation.room].group, operation)
  }

  ghost predicate AttemptsCurrent(db: Database, user: UserId) {
    forall id :: Waiting(db, user, id) ==> Current(db, user, id)
  }

  /** A pending commit is the one the room's attempt asks for. */
  ghost predicate PendingOf(db: Database, room: RoomId)
    requires room in db.groups
  {
    db.groups[room].pending.Some? ==>
      && room in db.intents && db.intents[room].attempt.Some? && db.intents[room].attempt.value in db.outbox
      && var request := db.outbox[db.intents[room].attempt.value].request;
         && request.AppendRoomOperation? && request.operation.contentType == Commit
         && request.operation.body.content.CommitMessage?
         && db.groups[room].pending.value
            == Added(db.groups[room].group, request.operation.body.content.added)
  }

  ghost predicate PendingsTrue(db: Database) { forall room :: room in db.groups ==> PendingOf(db, room) }

  // ----- how a room is entered -----

  /** The Welcome that let the user in: signed for this user by a verified contact in its group. */
  ghost predicate Entered(db: Database, user: UserId, c: nat, room: RoomId, start: nat, base: Group) {
    && c in db.welcomes && db.welcomes[c].state == Applied
    && var welcome := db.welcomes[c].record;
       && welcome.room == room && welcome.sequence == start >= 1 && NormalizeRoomName(welcome.roomName).Some?
       && welcome.inviter in db.contacts && welcome.inviter in base.roster && base.roster <= db.contacts
       && welcome.attachment.body.content == WelcomeMessage(room, base)
       && welcome.attachment.signature
          == Signature(welcome.inviter, Transcript(user, room, welcome.event, start, welcome.attachment.body))
  }

  ghost predicate Origin(db: Database, user: UserId, room: RoomId, start: nat, base: Group) {
    (start == 0 && base == Group(0, {user})) || exists c :: Entered(db, user, c, room, start, base)
  }

  ghost predicate Origins(db: Database, user: UserId, starts: Starts, lines: Lines) {
    && (forall room :: room in lines ==>
          room in starts && lines[room] != [] && Origin(db, user, room, starts[room], lines[room][0]))
    && (forall c :: c in db.welcomes && db.welcomes[c].state == Applied ==>
          var room := db.welcomes[c].record.room;
          room in lines && room in starts && lines[room] != []
          && Entered(db, user, c, room, starts[room], lines[room][0]))
  }

  ghost predicate Descends(db: Database, user: UserId, starts: Starts, lines: Lines) {
    && LinesOk(db, starts, lines) && RowsFollow(db.inbox, starts, lines, user)
    && AttemptsCurrent(db, user) && PendingsTrue(db) && Origins(db, user, starts, lines)
  }

  // ----- a step that applies nothing -----

  /** Rooms keep their cursor and group, and no event is settled. */
  ghost predicate Still(db: Database, db': Database) {
    && (forall room :: room in db.groups ==> room in db'.groups && db'.groups[room].group == db.groups[room].group)
    && (forall room :: room in db.cursors ==> room in db'.cursors && db'.cursors[room] == db.cursors[room])
    && (forall id :: id in db'.inbox && Settled(db'.inbox[id].state) ==>
          id in db.inbox && db'.inbox[id] == db.inbox[id])
  }

  /** The rooms there were keep what is remembered of them. */
  ghost predicate Extends(starts: Starts, lines: Lines, starts': Starts, lines': Lines) {
    && (forall room :: room in starts ==> room in starts' && starts'[room] == starts[room])
    && (forall room :: room in lines ==> room in lines' && lines[room] <= lines'[room])
  }

  ghost predicate KeysOk(db: Database, starts: Starts) {
    && db.groups.Keys == db.cursors.Keys == starts.Keys
    && forall room :: room in starts ==> starts[room] <= db.cursors[room]
  }

  lemma StillLine(db: Database, starts: Starts, lines: Lines, db': Database, room: RoomId)
    requires KeysOk(db, starts) && KeysOk(db', NewStarts(starts, db')) && LinesOk(db, starts, lines)
    requires Still(db, db') && room in db'.groups
    ensures var starts' := NewStarts(starts, db');
            var lines' := NewLines(lines, starts', db');
            && room in lines' && room in starts'
            && (room in db.groups ==> room in starts && starts'[room] == starts[room] && lines'[room] == lines[room])
            && (room !in db.groups ==>
                  starts'[room] == db'.cursors[room] && lines'[room] == [db'.groups[room].group])
  {}

  lemma StillLines(db: Database, starts: Starts, lines: Lines, db': Database, starts': Starts, lines': Lines)
    requires KeysOk(db, starts) && LinesOk(db, starts, lines) && Still(db, db')
    requires starts' == NewStarts(starts, db') && KeysOk(db', starts') && lines' == NewLines(lines, starts', db')
    ensures LinesOk(db', starts', lines') && Extends(starts, lines, starts', lines')
  {
    forall room | room in lines' ensures LineOk(db', starts', lines', room) {
      StillLine(db, starts, lines, db', room);
      if room in lines { assert LineOk(db, starts, lines, room); }
    }
    StillExtends(db, starts, lines, db', starts', lines');
  }

  lemma StillExtends(db: Database, starts: Starts, lines: Lines, db': Database, starts': Starts, lines': Lines)
    requires KeysOk(db, starts) && LinesOk(db, starts, lines) && Still(db, db')
    requires starts' == NewStarts(starts, db') && KeysOk(db', starts') && lines' == NewLines(lines, starts', db')
    ensures Extends(starts, lines, starts', lines')
  {
    forall room | room in lines ensures room in lines' && lines[room] <= lines'[room] {
      StillLine(db, starts, lines, db', room);
    }
  }

  lemma StillRows(db: Database, user: UserId, starts: Starts, lines: Lines, db': Database, starts': Starts,
                  lines': Lines)
    requires RowsFollow(db.inbox, starts, lines, user) && Still(db, db') && Extends(starts, lines, starts', lines')
    ensures RowsFollow(db'.inbox, starts', lines', user)
  {
    forall id | id in db'.inbox && Settled(db'.inbox[id].state)
      ensures Follows(starts', lines', user, db'.inbox[id].event, db'.inbox[id].state)
    {
      assert Follows(starts, lines, user, db.inbox[id].event, db.inbox[id].state);
    }
  }

  lemma StillCore(db: Database, user: UserId, starts: Starts, lines: Lines, db': Database, starts': Starts,
                  lines': Lines)
    requires KeysOk(db, starts) && LinesOk(db, starts, lines) && RowsFollow(db.inbox, starts, lines, user)
    requires starts' == NewStarts(starts, db') && KeysOk(db', starts') && lines' == NewLines(lines, starts', db')
    requires Still(db, db')
    ensures LinesOk(db', starts', lines') && RowsFollow(db'.inbox, starts', lines', user)
    ensures Extends(starts, lines, starts', lines')
  {
    StillLines(db, starts, lines, db', starts', lines');
    StillRows(db, user, starts, lines, db', starts', lines');
  }

  /** No append is new, and no record is replaced. */
  ghost predicate NoNewAppends(db: Database, db': Database) {
    && (forall id :: id in db'.outbox && db'.outbox[id].request.AppendRoomOperation? ==>
          id in db.outbox && db.outbox[id].request == db'.outbox[id].request)
    && (forall id :: id in db.inbox ==> id in db'.inbox && db'.inbox[id].event == db.inbox[id].event)
  }

  lemma StillCurrent(db: Database, user: UserId, db': Database)
    requires AttemptsCurrent(db, user) && Still(db, db') && NoNewAppends(db, db')
    ensures AttemptsCurrent(db', user)
  {
    forall id | Waiting(db', user, id) ensures Current(db', user, id) {
      assert Waiting(db, user, id);
      assert Current(db, user, id);
    }
  }

  /** A pending commit stays with its attempt, or goes. */
  ghost predicate PendingsStay(db: Database, db': Database) {
    forall room :: room in db'.groups && db'.groups[room].pending.Some? ==>
      && room in db.groups && db'.groups[room].group == db.groups[room].group
      && db'.groups[room].pending == db.groups[room].pending
      && (room in db.intents && db.intents[room].attempt.Some? && db.intents[room].attempt.value in db.outbox ==>
            && room in db'.intents && db'.intents[room].attempt == db.intents[room].attempt
            && db.intents[room].attempt.value in db'.outbox
            && db'.outbox[db.intents[room].attempt.value].request
               == db.outbox[db.intents[room].attempt.value].request)
  }

  lemma StayPending(db: Database, db': Database)
    requires PendingsTrue(db) && PendingsStay(db, db')
    ensures PendingsTrue(db')
  {
    forall room | room in db'.groups ensures PendingOf(db', room) {
      if db'.groups[room].pending.Some? { assert PendingOf(db, room); }
    }
  }

  /** The Welcomes that let the user in are the same. */
  ghost predicate SameEntries(db: Database, db': Database) {
    && db.contacts <= db'.contacts
    && (forall c :: c in db.welcomes && db.welcomes[c].state == Applied ==>
          c in db'.welcomes && db'.welcomes[c] == db.welcomes[c])
    && (forall c :: c in db'.welcomes && db'.welcomes[c].state == Applied ==>
          c in db.welcomes && db'.welcomes[c] == db.welcomes[c])
  }

  lemma EntriesStay(db: Database, user: UserId, starts: Starts, lines: Lines, db': Database, starts': Starts,
                    lines': Lines)
    requires Origins(db, user, starts, lines) && SameEntries(db, db') && Extends(starts, lines, starts', lines')
    requires forall room :: room in lines' && room !in lines ==>
               room in starts' && lines'[room] != [] && Origin(db', user, room, starts'[room], lines'[room][0])
    ensures Origins(db', user, starts', lines')
  {
    forall room | room in lines'
      ensures room in starts' && lines'[room] != [] && Origin(db', user, room, starts'[room], lines'[room][0])
    {
      if room in lines { OriginStays(db, user, room, starts[room], lines[room][0], db'); }
    }
    forall c | c in db'.welcomes && db'.welcomes[c].state == Applied
      ensures var room := db'.welcomes[c].record.room;
              room in lines' && room in starts' && lines'[room] != []
              && Entered(db', user, c, room, starts'[room], lines'[room][0])
    {
      var room := db.welcomes[c].record.room;
      assert Entered(db, user, c, room, starts[room], lines[room][0]);
    }
  }

  lemma OriginStays(db: Database, user: UserId, room: RoomId, start: nat, base: Group, db': Database)
    requires Origin(db, user, room, start, base) && SameEntries(db, db')
    ensures Origin(db', user, room, start, base)
  {
    if !(start == 0 && base == Group(0, {user})) {
      var c :| Entered(db, user, c, room, start, base);
      assert Entered(db', user, c, room, start, base);
    }
  }

  /** A step that applies nothing and joins nothing. */
  lemma StillDescends(db: Database, user: UserId, starts: Starts, lines: Lines, db': Database, starts': Starts,
                      lines': Lines)
    requires Descends(db, user, starts, lines) && KeysOk(db, starts)
    requires starts' == NewStarts(starts, db') && KeysOk(db', starts') && lines' == NewLines(lines, starts', db')
    requires Still(db, db') && NoNewAppends(db, db') && PendingsStay(db, db') && SameEntries(db, db')
    requires forall room :: room in db'.groups && room !in db.groups ==>
               db'.cursors[room] == 0 && db'.groups[room].group == Group(0, {user})
    ensures Descends(db', user, starts', lines')
  {
    StillCore(db, user, starts, lines, db', starts', lines');
    StillCurrent(db, user, db');
    StayPending(db, db');
    forall room | room in lines' && room !in lines
      ensures room in starts' && lines'[room] != [] && Origin(db', user, room, starts'[room], lines'[room][0])
    {
      StillLine(db, starts, lines, db', room);
    }
    EntriesStay(db, user, starts, lines, db', starts', lines');
  }

  // ----- receiving, storing, asking -----

  /** A step that leaves groups, cursors and intents alone. */
  ghost predicate Modest(db: Database, db': Database) {
    Still(db, db') && NoNewAppends(db, db') && PendingsStay(db, db') && SameEntries(db, db')
    && db'.groups.Keys == db.groups.Keys
  }

  lemma ReceiveModest(db: Database, event: Event, db': Database)
    requires ReceiveEvent(db, event) == Some(db')
    ensures Modest(db, db')
  {
    ReceiveIs(db, event, db');
    InsertModest(db, event, db');
  }

  lemma InsertModest(db: Database, event: Event, db': Database)
    requires db' == db || (event.id !in db.inbox && db' == db.(inbox := db.inbox[event.id := InboxRow(event, Pending)]))
    ensures Modest(db, db')
  {}

  lemma IssueModest(db: Database, user: UserId, id: MessageId, request: Request, db': Database)
    requires Next(db, user, Issue(id, request)) == Some(db')
    ensures Modest(db, db')
  {}

  lemma IntendModest(db: Database, user: UserId, room: RoomId, intent: Intent, db': Database)
    requires Next(db, user, Intend(room, intent)) == Some(db')
    ensures Modest(db, db')
  {}

  lemma {:induction false} InsertPageAdds(
    welcomes: map<nat, WelcomeEntry>, page: seq<WelcomeDelivery>, welcomes': map<nat, WelcomeEntry>)
    requires InsertPage(welcomes, page) == Some(welcomes')
    ensures forall c :: c in welcomes ==> c in welcomes' && welcomes'[c] == welcomes[c]
    ensures forall c :: c in welcomes' && c !in welcomes ==> welcomes'[c].state == Pending
    decreases |page|
  {
    if page != [] {
      InsertPageAdds(welcomes[page[0].cursor := WelcomeEntry(page[0], Pending)], page[1..], welcomes');
    }
  }

  lemma StoreModest(db: Database, user: UserId, page: seq<WelcomeDelivery>, db': Database)
    requires StorePage(db, user, page) == Some(db')
    ensures Modest(db, db')
  {
    if page != [] { InsertPageAdds(db.welcomes, page, db'.welcomes); }
    assert db' == db.(welcomes := db'.welcomes, welcomeCursor := db'.welcomeCursor);
  }

  lemma MarkModest(db: Database, cursor: nat)
    requires cursor in db.welcomes && db.welcomes[cursor].state != Applied
    ensures Modest(db, MarkWelcome(db, cursor, Stuck))
  {}

  // ----- answers -----

  /** A pending commit of the room that waits for this answer is the one the request asks for. */
  lemma PendingAsked(db: Database, room: RoomId, id: MessageId)
    requires PendingsTrue(db) && AttemptsOk(db) && room in db.groups && db.groups[room].pending.Some?
    requires room in db.intents && db.intents[room].attempt == Some(id) && id in db.outbox
    ensures var request := db.outbox[id].request;
            request.AppendRoomOperation? && request.operation.room == room && request.operation.contentType == Commit
  {
    assert PendingOf(db, room) && AttemptOf(db, room, id);
  }

  ghost predicate Drops(db: Database, id: MessageId, db': Database) {
    && db'.outbox == db.outbox - {id} && db'.inbox == db.inbox && db'.cursors == db.cursors
    && db'.welcomes == db.welcomes && db'.contacts == db.contacts && db'.groups.Keys == db.groups.Keys
    && (forall room :: room in db.groups ==>
          db'.groups[room].group == db.groups[room].group
          && (db'.groups[room].pending == db.groups[room].pending || db'.groups[room].pending.None?))
    && (forall room :: room in db.intents && db.intents[room].attempt != Some(id) ==>
          room in db'.intents && db'.intents[room].attempt == db.intents[room].attempt)
  }

  lemma DropsModest(db: Database, id: MessageId, db': Database)
    requires PendingsTrue(db) && AttemptsOk(db) && Drops(db, id, db')
    requires forall room :: room in db.intents && db.intents[room].attempt == Some(id) && room in db.groups ==>
               db'.groups[room].pending.None?
    ensures Modest(db, db')
  {}

  lemma ConflictIsDrop(db: Database, id: MessageId, operation: Append, db': Database)
    requires CompleteConflict(db, id, operation) == Some(db')
    ensures Drops(db, id, db')
    ensures operation.contentType == Commit ==>
              operation.room in db'.groups && db'.groups[operation.room].pending.None?
  {
    var commit := operation.contentType == Commit;
    var cleared := if commit then DiscardPending(db, operation.room).value else db;
    ClearedIs(db, operation.room, commit, cleared);
    DetachFrees(db.intents, id);
    ClearedDrops(db, operation.room, commit, cleared, id, db');
  }

  lemma ClearedDrops(db: Database, room: RoomId, commit: bool, cleared: Database, id: MessageId, db': Database)
    requires cleared == db.(groups := cleared.groups) && cleared.groups.Keys == db.groups.Keys
    requires forall r :: r in db.groups ==>
               cleared.groups[r] == if commit && r == room then db.groups[r].(pending := None) else db.groups[r]
    requires db' == cleared.(outbox := db.outbox - {id}, intents := db'.intents, history := db'.history)
    requires forall r :: r in db.intents && db.intents[r].attempt != Some(id) ==>
               r in db'.intents && db'.intents[r] == db.intents[r]
    ensures Drops(db, id, db')
    ensures commit && room in db.groups ==> room in db'.groups && db'.groups[room].pending.None?
  {}

  lemma ClearedIs(db: Database, room: RoomId, commit: bool, cleared: Database)
    requires (if commit then DiscardPending(db, room) else Some(db)) == Some(cleared)
    ensures cleared == db.(groups := cleared.groups) && cleared.groups.Keys == db.groups.Keys
    ensures forall r :: r in db.groups ==>
              cleared.groups[r] == if commit && r == room then db.groups[r].(pending := None) else db.groups[r]
    ensures commit ==> room in db.groups
  {}

  lemma DetachFrees(intents: map<RoomId, Intent>, id: MessageId)
    ensures forall room :: room in intents && intents[room].attempt != Some(id) ==>
              && room in Detach(intents, id) && Detach(intents, id)[room] == intents[room]
              && room in DropIntents(intents, id) && DropIntents(intents, id)[room] == intents[room]
  {}

  lemma ConflictDrops(db: Database, id: MessageId, operation: Append, db': Database)
    requires PendingsTrue(db) && AttemptsOk(db)
    requires id in db.outbox && db.outbox[id].request == AppendRoomOperation(operation)
    requires CompleteConflict(db, id, operation) == Some(db')
    ensures Modest(db, db')
  {
    ConflictIsDrop(db, id, operation, db');
    forall room | room in db.intents && db.intents[room].attempt == Some(id) && room in db.groups
      ensures db'.groups[room].pending.None?
    {
      if db.groups[room].pending.Some? { PendingAsked(db, room, id); }
    }
    DropsModest(db, id, db');
  }

  lemma RefusalIsDrop(db: Database, id: MessageId, request: Request, db': Database)
    requires CompleteRefusal(db, id, request) == Some(db')
    ensures Drops(db, id, db')
    ensures request.AppendRoomOperation? && request.operation.contentType == Commit ==>
              request.operation.room in db'.groups && db'.groups[request.operation.room].pending.None?
  {
    DetachFrees(db.intents, id);
    if request.AppendRoomOperation? && request.operation.contentType == Commit {
      var cleared := DiscardPending(db, request.operation.room).value;
      ClearedIs(db, request.operation.room, true, cleared);
      ClearedDrops(db, request.operation.room, true, cleared, id, db');
    } else {
      ClearedDrops(db, 0, false, db, id, db');
    }
  }

  lemma RefusalDropsPending(db: Database, id: MessageId, request: Request, db': Database)
    requires PendingsTrue(db) && AttemptsOk(db) && id in db.outbox && db.outbox[id].request == request
    requires CompleteRefusal(db, id, request) == Some(db')
    ensures Modest(db, db')
  {
    RefusalIsDrop(db, id, request, db');
    forall room | room in db.intents && db.intents[room].attempt == Some(id) && room in db.groups
      ensures db'.groups[room].pending.None?
    {
      if db.groups[room].pending.Some? { PendingAsked(db, room, id); }
    }
    DropsModest(db, id, db');
  }

  /** The answer to a request that is no append. */
  lemma RetireModest(db: Database, id: MessageId, db': Database)
    requires PendingsTrue(db) && AttemptsOk(db) && id in db.outbox && !db.outbox[id].request.AppendRoomOperation?
    requires Drops(db, id, db') && db'.groups == db.groups
    ensures Modest(db, db')
  {
    forall room | room in db.intents && db.intents[room].attempt == Some(id) && room in db.groups
      ensures db'.groups[room].pending.None?
    {
      if db.groups[room].pending.Some? { PendingAsked(db, room, id); }
    }
    DropsModest(db, id, db');
  }

  lemma AnswerModest(db: Database, user: UserId, id: MessageId, response: Response, db': Database)
    requires PendingsTrue(db) && AttemptsOk(db) && Next(db, user, Answer(id, response)) == Some(db')
    requires !response.RoomCreated?
    ensures Modest(db, db')
  {
    var request := db.outbox[id].request;
    if response.AppendAccepted? {
      ReceiveModest(db, response.event, db');
    } else if response.HeadConflict? {
      ConflictDrops(db, id, request.operation, db');
    } else if response.Rejected? && !IsTransient(response) {
      RefusalDropsPending(db, id, request, db');
    } else if !IsTransient(response) {
      OtherRetires(db, user, id, response, db');
      RetireModest(db, id, db');
    }
  }

  lemma OtherRetires(db: Database, user: UserId, id: MessageId, response: Response, db': Database)
    requires id in db.outbox && Complete(db, user, id, db.outbox[id].request, response) == Some(db')
    requires !response.RoomCreated? && !response.AppendAccepted? && !response.HeadConflict? && !response.Rejected?
    ensures !db.outbox[id].request.AppendRoomOperation? && Drops(db, id, db') && db'.groups == db.groups
  {}

  lemma CreationCases(db: Database, user: UserId, starts: Starts, id: MessageId, room: RoomId)
    requires CursorsOk(db, starts)
    ensures CompleteCreation(db, user, id, room)
            == RemoveOutbox(if room in db.groups then db
                            else db.(groups := db.groups[room := GroupState(Group(0, {user}), None, 0)],
                                     cursors := db.cursors[room := 0]), id)
  {}

  /** A room that was not in use appears, without a pending commit. */
  ghost predicate Opens(db: Database, room: RoomId, group: Group, start: nat, db': Database) {
    && room !in db.groups && db'.groups == db.groups[room := GroupState(group, None, 0)]
    && db'.cursors == db.cursors[room := start] && db'.inbox == db.inbox && db'.intents == db.intents
    && db'.contacts == db.contacts
  }

  lemma OpensStill(db: Database, room: RoomId, group: Group, start: nat, db': Database)
    requires Opens(db, room, group, start, db') && db.groups.Keys == db.cursors.Keys
    requires forall id :: id in db'.outbox && id in db.outbox ==> db'.outbox[id] == db.outbox[id]
    requires forall id :: id in db'.outbox && id !in db.outbox ==> !db'.outbox[id].request.AppendRoomOperation?
    requires forall r :: r in db.intents && db.intents[r].attempt.Some? && db.intents[r].attempt.value in db.outbox ==>
               db.intents[r].attempt.value in db'.outbox
    ensures Still(db, db') && NoNewAppends(db, db') && PendingsStay(db, db')
  {}

  /** A created room starts with the user alone, unless it is in use already. */
  lemma CreationStill(db: Database, user: UserId, starts: Starts, id: MessageId, room: RoomId, db': Database)
    requires CursorsOk(db, starts) && PendingsTrue(db) && AttemptsOk(db)
    requires id in db.outbox && !IsAttempt(db.outbox[id].request) && db' == CompleteCreation(db, user, id, room)
    ensures Still(db, db') && NoNewAppends(db, db') && PendingsStay(db, db') && SameEntries(db, db')
    ensures forall r :: r in db'.groups && r !in db.groups ==>
              r in db'.cursors && db'.cursors[r] == 0 && db'.groups[r].group == Group(0, {user})
  {
    NotAttempted(db, id);
    CreationCases(db, user, starts, id, room);
    if room in db.groups {
      RetireModest(db, id, db');
    } else {
      CreationOpens(db, user, id, room, db');
    }
  }

  lemma CreationOpens(db: Database, user: UserId, id: MessageId, room: RoomId, db': Database)
    requires room !in db.groups && db.groups.Keys == db.cursors.Keys
    requires forall r :: r in db.intents ==> db.intents[r].attempt != Some(id)
    requires db' == RemoveOutbox(db.(groups := db.groups[room := GroupState(Group(0, {user}), None, 0)],
                                     cursors := db.cursors[room := 0]), id)
    ensures Still(db, db') && NoNewAppends(db, db') && PendingsStay(db, db') && SameEntries(db, db')
    ensures forall r :: r in db'.groups && r !in db.groups ==>
              r in db'.cursors && db'.cursors[r] == 0 && db'.groups[r].group == Group(0, {user})
  {
    OpensStill(db, room, Group(0, {user}), 0, db');
  }

  // ----- joining -----

  /** The Welcome's group is there, at the Welcome's place, and the Welcome is done with. */
  ghost predicate Joins(db: Database, user: UserId, cursor: nat, db': Database) {
    && cursor in db.welcomes && db.welcomes[cursor].record.attachment.body.content.WelcomeMessage?
    && (var welcome := db.welcomes[cursor].record;
        && Opens(db, welcome.room, welcome.attachment.body.content.group, welcome.sequence, db')
        && Entered(db', user, cursor, welcome.room, welcome.sequence, welcome.attachment.body.content.group))
    && db'.welcomes == db.welcomes[cursor := db.welcomes[cursor].(state := Applied)]
    && (forall id :: id in db.outbox ==> id in db'.outbox && db'.outbox[id] == db.outbox[id])
    && (forall id :: id in db'.outbox && id !in db.outbox ==> !db'.outbox[id].request.AppendRoomOperation?)
  }

  lemma JoinOpens(db: Database, user: UserId, cursor: nat, keyAvailable: bool, db': Database)
    requires cursor in db.welcomes && WelcomeVerified(db, user, db.welcomes[cursor].record)
    requires JoinRoom(db, user, cursor, db.welcomes[cursor].record, keyAvailable) == Some(db')
    requires db.groups.Keys == db.cursors.Keys
    ensures Joins(db, user, cursor, db')
  {}

  lemma JoinOrigins(db: Database, user: UserId, starts: Starts, lines: Lines, cursor: nat, db': Database,
                    starts': Starts, lines': Lines)
    requires Origins(db, user, starts, lines) && Extends(starts, lines, starts', lines')
    requires cursor in db.welcomes && db.welcomes[cursor].state != Applied && db'.contacts == db.contacts
    requires db'.welcomes == db.welcomes[cursor := db.welcomes[cursor].(state := Applied)]
    requires var room := db.welcomes[cursor].record.room;
             && lines'.Keys == lines.Keys + {room} && room in starts' && |lines'[room]| == 1
             && Entered(db', user, cursor, room, starts'[room], lines'[room][0])
    ensures Origins(db', user, starts', lines')
  {
    var room := db.welcomes[cursor].record.room;
    forall r | r in lines'
      ensures r in starts' && lines'[r] != [] && Origin(db', user, r, starts'[r], lines'[r][0])
    {
      if r != room { OriginMarked(db, user, r, starts[r], lines[r][0], cursor, db'); }
    }
    forall c | c in db'.welcomes && db'.welcomes[c].state == Applied
      ensures var r := db'.welcomes[c].record.room;
              r in lines' && r in starts' && lines'[r] != [] && Entered(db', user, c, r, starts'[r], lines'[r][0])
    {
      if c != cursor {
        var r := db.welcomes[c].record.room;
        assert Entered(db, user, c, r, starts[r], lines[r][0]);
      }
    }
  }

  lemma OriginMarked(db: Database, user: UserId, room: RoomId, start: nat, base: Group, cursor: nat, db': Database)
    requires Origin(db, user, room, start, base) && db'.contacts == db.contacts
    requires cursor in db.welcomes && db.welcomes[cursor].state != Applied
    requires db'.welcomes == db.welcomes[cursor := db.welcomes[cursor].(state := Applied)]
    ensures Origin(db', user, room, start, base)
  {
    if !(start == 0 && base == Group(0, {user})) {
      var c :| Entered(db, user, c, room, start, base);
      assert Entered(db', user, c, room, start, base);
    }
  }

  lemma JoinDescends(db: Database, user: UserId, starts: Starts, lines: Lines, cursor: nat, db': Database,
                     starts': Starts, lines': Lines)
    requires Descends(db, user, starts, lines) && KeysOk(db, starts) && AttemptsOk(db)
    requires starts' == NewStarts(starts, db') && KeysOk(db', starts') && lines' == NewLines(lines, starts', db')
    requires Joins(db, user, cursor, db') && db.welcomes[cursor].state != Applied
    ensures Descends(db', user, starts', lines')
  {
    var welcome := db.welcomes[cursor].record;
    OpensStill(db, welcome.room, welcome.attachment.body.content.group, welcome.sequence, db');
    StillCore(db, user, starts, lines, db', starts', lines');
    StillCurrent(db, user, db');
    StayPending(db, db');
    StillLine(db, starts, lines, db', welcome.room);
    JoinOrigins(db, user, starts, lines, cursor, db', starts', lines');
  }

  lemma ProcessDescends(db: Database, user: UserId, starts: Starts, lines: Lines, cursor: nat, db': Database,
                        starts': Starts, lines': Lines)
    requires Descends(db, user, starts, lines) && KeysOk(db, starts) && AttemptsOk(db)
    requires starts' == NewStarts(starts, db') && KeysOk(db', starts') && lines' == NewLines(lines, starts', db')
    requires cursor in db.welcomes && db.welcomes[cursor].state != Applied
    requires db' == MarkWelcome(db, cursor, Stuck) || Joins(db, user, cursor, db')
    ensures Descends(db', user, starts', lines')
  {
    if Joins(db, user, cursor, db') {
      JoinDescends(db, user, starts, lines, cursor, db', starts', lines');
    } else {
      MarkModest(db, cursor);
      StillDescends(db, user, starts, lines, db', starts', lines');
    }
  }

  /** Only a verified Welcome is joined. */
  lemma ProcessJoins(db: Database, user: UserId, cursor: nat, keyAvailable: bool, db': Database)
    requires Next(db, user, Process(cursor, keyAvailable)) == Some(db') && db.groups.Keys == db.cursors.Keys
    ensures cursor in db.welcomes && db.welcomes[cursor].state != Applied
    ensures db' == MarkWelcome(db, cursor, Stuck) || Joins(db, user, cursor, db')
  {
    if db' != MarkWelcome(db, cursor, Stuck) { JoinOpens(db, user, cursor, keyAvailable, db'); }
  }

  // ----- building -----

  /** An append is made on the room's group, and a commit leaves its outcome pending. */
  ghost predicate MadeHere(db: Database, room: RoomId, id: MessageId, db': Database) {
    && room in db.groups && room in db'.groups && id in db'.outbox && db'.welcomes == db.welcomes
    && (db'.outbox[id].request.AppendRoomOperation? ==>
          MadeOn(db.groups[room].group, db'.outbox[id].request.operation))
    && (db'.groups[room].pending.Some? ==>
          && db'.outbox[id].request.AppendRoomOperation?
          && var operation := db'.outbox[id].request.operation;
             && operation.contentType == Commit && operation.body.content.CommitMessage?
             && db'.groups[room].pending.value == Added(db.groups[room].group, operation.body.content.added))
  }

  lemma SendMadeHere(db: Database, user: UserId, room: RoomId, intent: Intent, id: MessageId, bytes: Ciphertext,
                     db': Database)
    requires id !in db.outbox && BuildSend(db, user, room, intent, id, bytes) == Some(db')
    ensures MadeHere(db, room, id, db')
  {}

  lemma AddMadeHere(db: Database, user: UserId, room: RoomId, intent: Intent, id: MessageId, bytes: Ciphertext,
                    db': Database)
    requires id !in db.outbox && BuildAdd(db, user, room, intent, id, bytes) == Some(db')
    ensures MadeHere(db, room, id, db')
  {}

  lemma BuildMadeHere(db: Database, user: UserId, room: RoomId, id: MessageId, bytes: Ciphertext, db': Database)
    requires PendingsTrue(db) && Next(db, user, Build(room, id, bytes)) == Some(db')
    ensures MadeHere(db, room, id, db')
  {
    assert PendingOf(db, room);
    var intent := db.intents[room];
    if intent.target.Some? && intent.package.None? {
      assert db'.groups == db.groups && db'.welcomes == db.welcomes;
    } else if intent.package.Some? {
      AddMadeHere(db, user, room, intent, id, bytes, BuildAdd(db, user, room, intent, id, bytes).value);
    } else {
      SendMadeHere(db, user, room, intent, id, bytes, BuildSend(db, user, room, intent, id, bytes).value);
    }
  }

  lemma BuildDescends(db: Database, user: UserId, starts: Starts, lines: Lines, room: RoomId, id: MessageId,
                      db': Database, lines': Lines)
    requires Descends(db, user, starts, lines) && KeysOk(db, starts) && AttemptsOk(db) && Unseen(db, id)
    requires BuildsAttempt(db, db', room, id) && MadeHere(db, room, id, db')
    requires starts == NewStarts(starts, db') && KeysOk(db', starts) && lines' == NewLines(lines, starts, db')
    ensures Descends(db', user, starts, lines')
  {
    BuildStill(db, room, id, db');
    StillCore(db, user, starts, lines, db', starts, lines');
    BuildCurrent(db, user, room, id, db');
    BuildPendings(db, room, id, db');
    EntriesStay(db, user, starts, lines, db', starts, lines');
  }

  lemma BuildStill(db: Database, room: RoomId, id: MessageId, db': Database)
    requires BuildsAttempt(db, db', room, id) && MadeHere(db, room, id, db')
    ensures Still(db, db') && SameEntries(db, db') && db'.groups.Keys == db.groups.Keys
  {}

  lemma BuildCurrent(db: Database, user: UserId, room: RoomId, id: MessageId, db': Database)
    requires AttemptsCurrent(db, user) && db.groups.Keys == db.cursors.Keys && id !in db.outbox
    requires BuildsAttempt(db, db', room, id) && MadeHere(db, room, id, db')
    ensures AttemptsCurrent(db', user)
  {
    forall other | Waiting(db', user, other) ensures Current(db', user, other) {
      if other != id {
        assert Waiting(db, user, other);
        assert Current(db, user, other);
      }
    }
  }

  lemma BuildPendings(db: Database, room: RoomId, id: MessageId, db': Database)
    requires PendingsTrue(db) && id !in db.outbox
    requires BuildsAttempt(db, db', room, id) && MadeHere(db, room, id, db')
    ensures PendingsTrue(db')
  {
    forall r | r in db'.groups ensures PendingOf(db', r) {
      if r != room { assert PendingOf(db, r); }
    }
  }

  // ----- applying -----

  /** The event is settled: its room's cursor moves past it, and only its room's group may change. */
  ghost predicate Advances(db: Database, event: Event, state: RowState, db': Database) {
    var room := event.operation.room;
    && room in db.groups && room in db.cursors && Settled(state)
    && db'.cursors == db.cursors[room := event.operation.parent + 1]
    && db'.inbox == db.inbox[event.id := InboxRow(event, state)]
    && room in db'.groups && db'.groups == db.groups[room := db'.groups[room]]
    && db'.welcomes == db.welcomes && db'.contacts == db.contacts
    && (forall id :: id in db'.outbox && db'.outbox[id].request.AppendRoomOperation? ==>
          id in db.outbox && db.outbox[id].request == db'.outbox[id].request)
  }

  lemma AdvanceLines(db: Database, starts: Starts, lines: Lines, event: Event, state: RowState, db': Database)
    requires LinesOk(db, starts, lines) && KeysOk(db, starts) && Advances(db, event, state, db')
    requires event.operation.parent == db.cursors[event.operation.room]
    ensures var room, lines' := event.operation.room, NewLines(lines, starts, db');
            lines' == lines[room := lines[room] + [db'.groups[room].group]]
  {
    assert forall room :: room in lines ==> LineOk(db, starts, lines, room);
  }

  lemma AdvanceFollows(db: Database, user: UserId, starts: Starts, lines: Lines, event: Event, state: RowState,
                       db': Database)
    requires LinesOk(db, starts, lines) && RowsFollow(db.inbox, starts, lines, user)
    requires Advances(db, event, state, db') && event.operation.parent == db.cursors[event.operation.room]
    requires Changes(db.groups[event.operation.room].group, db'.groups[event.operation.room].group, user, event, state)
    ensures var room := event.operation.room;
            var lines' := lines[room := lines[room] + [db'.groups[room].group]];
            LinesOk(db', starts, lines') && RowsFollow(db'.inbox, starts, lines', user)
            && Extends(starts, lines, starts, lines')
  {
    var room := event.operation.room;
    var lines' := lines[room := lines[room] + [db'.groups[room].group]];
    assert LineOk(db, starts, lines, room);
    forall r | r in lines' ensures LineOk(db', starts, lines', r) { assert LineOk(db, starts, lines, r); }
    forall id | id in db'.inbox && Settled(db'.inbox[id].state)
      ensures Follows(starts, lines', user, db'.inbox[id].event, db'.inbox[id].state)
    {
      if id != event.id { assert Follows(starts, lines, user, db.inbox[id].event, db.inbox[id].state); }
    }
  }

  /** An append that waits in the room is the event itself. */
  lemma OnlyTheEvent(db: Database, user: UserId, event: Event, id: MessageId)
    requires AttemptsOk(db) && AttemptsCurrent(db, user) && SequencesUnique(db) && Waiting(db, user, id)
    requires !Unresolved(db, event.operation.room) && event.id in db.inbox && db.inbox[event.id].event == event
    requires event.operation.room in db.cursors && event.operation.parent == db.cursors[event.operation.room]
    requires db.outbox[id].request.operation.room == event.operation.room
    ensures id == event.id && event.sender == user
  {
    ResolvedIsQuiet(db, event.operation.room);
    assert Current(db, user, id);
    assert SamePlace(db.inbox[id].event, db.inbox[event.id].event);
  }

  lemma AdvanceCurrent(db: Database, user: UserId, event: Event, state: RowState, db': Database)
    requires AttemptsOk(db) && AttemptsCurrent(db, user) && SequencesUnique(db) && Advances(db, event, state, db')
    requires !Unresolved(db, event.operation.room) && event.id in db.inbox && db.inbox[event.id].event == event
    requires event.operation.parent == db.cursors[event.operation.room]
    requires event.sender == user ==> event.id !in db'.outbox
    ensures AttemptsCurrent(db', user)
  {
    forall id | Waiting(db', user, id) ensures Current(db', user, id) {
      assert Waiting(db, user, id);
      assert Current(db, user, id);
      if db.outbox[id].request.operation.room == event.operation.room { OnlyTheEvent(db, user, event, id); }
    }
  }

  lemma AdvanceDescends(db: Database, user: UserId, starts: Starts, lines: Lines, event: Event, state: RowState,
                        db': Database)
    requires Descends(db, user, starts, lines) && KeysOk(db, starts) && AttemptsOk(db) && SequencesUnique(db)
    requires Advances(db, event, state, db') && PendingsTrue(db')
    requires !Unresolved(db, event.operation.room) && event.id in db.inbox && db.inbox[event.id].event == event
    requires event.operation.parent == db.cursors[event.operation.room]
    requires Changes(db.groups[event.operation.room].group, db'.groups[event.operation.room].group, user, event, state)
    requires event.sender == user ==> event.id !in db'.outbox
    ensures Descends(db', user, starts, NewLines(lines, starts, db'))
  {
    AdvanceLines(db, starts, lines, event, state, db');
    AdvanceFollows(db, user, starts, lines, event, state, db');
    AdvanceCurrent(db, user, event, state, db');
    EntriesStay(db, user, starts, lines, db', starts, NewLines(lines, starts, db'));
  }

  /** What finishing an event does, given what was done to its room's group before. */
  lemma FinishAdvances(db: Database, db1: Database, user: UserId, event: Event, state: RowState, db': Database)
    requires FinishEvent(db1, user, event, state) == Some(db') && Settled(state)
    requires event.id in db.inbox && db.inbox[event.id].event == event
    requires event.operation.room in db.groups && event.operation.room in db.cursors
    requires event.operation.room in db1.groups
             && db1.groups == db.groups[event.operation.room := db1.groups[event.operation.room]]
    requires db1.inbox == db.inbox && db1.cursors == db.cursors && db1.contacts == db.contacts
             && db1.welcomes == db.welcomes
    requires forall id :: id in db1.outbox ==> id in db.outbox && db1.outbox[id] == db.outbox[id]
    ensures Advances(db, event, state, db') && db'.groups == db1.groups && db'.intents == db1.intents
    ensures forall id :: id in db1.outbox ==> id in db'.outbox && db'.outbox[id] == db1.outbox[id]
    ensures forall id :: id in db'.outbox && id !in db1.outbox ==> id.Receipt?
  {
    FinishIs(db1, user, event, state, db');
  }

  lemma FinishIs(db: Database, user: UserId, event: Event, state: RowState, db': Database)
    requires FinishEvent(db, user, event, state) == Some(db') && event.id in db.inbox
    ensures db' == db.(inbox := db.inbox[event.id := db.inbox[event.id].(state := state)], outbox := db'.outbox,
                       cursors := db.cursors[event.operation.room := event.operation.parent + 1])
    ensures forall id :: id in db.outbox ==> id in db'.outbox && db'.outbox[id] == db.outbox[id]
    ensures forall id :: id in db'.outbox && id !in db.outbox ==> id.Receipt? && db'.outbox[id].request.Acknowledge?
  {}

  lemma OpenedChanges(db: Database, user: UserId, event: Event, db1: Database, plaintext: Option<seq<byte>>)
    requires ProcessBound(db, user, event) == Opened(db1, plaintext)
    ensures var room := event.operation.room;
            && room in db.groups && room in db1.groups && db1.groups == db.groups[room := db1.groups[room]]
            && Changes(db.groups[room].group, db1.groups[room].group, user, event, Applied)
            && (db1.groups[room].pending.Some? ==>
                  db1.groups[room].group == db.groups[room].group
                  && db1.groups[room].pending == db.groups[room].pending)
  {}

  lemma RememberFrame(db: Database, event: Event, plaintext: Option<seq<byte>>)
    ensures var db1 := Remember(db, event, plaintext);
            db1 == db.(history := db1.history)
  {}

  /** Somebody else's event that is settled. */
  lemma SettledDescends(db: Database, user: UserId, starts: Starts, lines: Lines, event: Event, state: RowState,
                        db1: Database, db': Database)
    requires Descends(db, user, starts, lines) && KeysOk(db, starts) && AttemptsOk(db) && SequencesUnique(db)
    requires !Unresolved(db, event.operation.room) && event.id in db.inbox && db.inbox[event.id].event == event
    requires event.operation.room in db.cursors && event.operation.parent == db.cursors[event.operation.room]
    requires event.sender != user && Settled(state)
    requires event.operation.room in db1.groups
             && db1.groups == db.groups[event.operation.room := db1.groups[event.operation.room]]
    requires db1 == db.(groups := db1.groups, history := db1.history)
    requires Changes(db.groups[event.operation.room].group, db1.groups[event.operation.room].group, user, event, state)
    requires db1.groups[event.operation.room].pending.Some? ==>
               db1.groups[event.operation.room].group == db.groups[event.operation.room].group
               && db1.groups[event.operation.room].pending == db.groups[event.operation.room].pending
    requires FinishEvent(db1, user, event, state) == Some(db')
    ensures Descends(db', user, starts, NewLines(lines, starts, db'))
  {
    FinishAdvances(db, db1, user, event, state, db');
    SettledPendings(db, event, db');
    AdvanceDescends(db, user, starts, lines, event, state, db');
  }

  lemma SettledPendings(db: Database, event: Event, db': Database)
    requires PendingsTrue(db) && event.operation.room in db.groups && event.operation.room in db'.groups
    requires db'.groups == db.groups[event.operation.room := db'.groups[event.operation.room]]
    requires db'.intents == db.intents
    requires db'.groups[event.operation.room].pending.Some? ==>
               db'.groups[event.operation.room].group == db.groups[event.operation.room].group
               && db'.groups[event.operation.room].pending == db.groups[event.operation.room].pending
    requires forall id :: id in db.outbox ==> id in db'.outbox && db'.outbox[id] == db.outbox[id]
    ensures PendingsTrue(db')
  {
    StayPending(db, db');
  }

  lemma StuckModest(db: Database, starts: Starts, event: Event)
    requires InboxOk(db, starts) && event.id in db.inbox && db.inbox[event.id].event == event
    requires Cursor(db, event.operation.room) == event.operation.parent
    ensures Modest(db, db.(inbox := MarkRow(db.inbox, event.id, Stuck)))
  {
    assert RowPlaced(db, starts, db.inbox[event.id]);
  }

  lemma OtherDescends(db: Database, user: UserId, starts: Starts, lines: Lines, event: Event, db': Database)
    requires Descends(db, user, starts, lines) && KeysOk(db, starts) && AttemptsOk(db) && SequencesUnique(db)
    requires !Unresolved(db, event.operation.room) && event.id in db.inbox && db.inbox[event.id].event == event
    requires event.operation.room in db.cursors && event.operation.parent == db.cursors[event.operation.room]
    requires event.sender != user && ApplyOther(db, user, event) == Some(db') && InboxOk(db, starts)
    requires starts == NewStarts(starts, db') && KeysOk(db', starts)
    ensures Descends(db', user, starts, NewLines(lines, starts, db'))
  {
    if ProcessBound(db, user, event).FaultBlocked? {
      StuckModest(db, starts, event);
      StillDescends(db, user, starts, lines, db', starts, NewLines(lines, starts, db'));
    } else {
      PassedDescends(db, user, starts, lines, event, db');
    }
  }

  lemma PassedDescends(db: Database, user: UserId, starts: Starts, lines: Lines, event: Event, db': Database)
    requires Descends(db, user, starts, lines) && KeysOk(db, starts) && AttemptsOk(db) && SequencesUnique(db)
    requires !Unresolved(db, event.operation.room) && event.id in db.inbox && db.inbox[event.id].event == event
    requires event.operation.room in db.cursors && event.operation.parent == db.cursors[event.operation.room]
    requires event.sender != user && ApplyOther(db, user, event) == Some(db')
    requires !ProcessBound(db, user, event).FaultBlocked?
    ensures Descends(db', user, starts, NewLines(lines, starts, db'))
  {
    match ProcessBound(db, user, event) {
      case Failure =>
      case FaultRejected => SettledDescends(db, user, starts, lines, event, Refused, db, db');
      case Opened(db1, plaintext) =>
        OpenedGenuine(db, user, event, db1, plaintext);
        OpenedChanges(db, user, event, db1, plaintext);
        RememberFrame(db1, event, plaintext);
        SettledDescends(db, user, starts, lines, event, Applied, Remember(db1, event, plaintext), db');
    }
  }

  /** The user's own event: its pending commit becomes the group. */
  lemma OwnChanges(db: Database, user: UserId, event: Event, applied: Database)
    requires AttemptsSound(db, user) && AttemptsOk(db) && Faithful(db, user)
    requires event.sender == user && event.id in db.inbox && db.inbox[event.id].event == event
    requires event.id in db.outbox && db.outbox[event.id].request == AppendRoomOperation(event.operation)
    requires (if event.operation.contentType == Commit then ApplyAcceptedCommit(db, event.operation.room) else Some(db))
             == Some(applied)
    ensures var room := event.operation.room;
            && room in db.groups && room in applied.groups && applied == db.(groups := applied.groups)
            && applied.groups == db.groups[room := applied.groups[room]] && applied.groups[room].pending.None?
            && Changes(db.groups[room].group, applied.groups[room].group, user, event, Applied)
            && room in db.intents && db.intents[room].attempt == Some(event.id)
  {
    var room := event.operation.room;
    OutboxGenuine(db, user, event.id);
    assert Owned(db, event.id);
    var r :| AttemptOf(db, r, event.id);
    assert Waiting(db, user, event.id);
    assert Current(db, user, event.id);
    assert PendingOf(db, room);
  }

  ghost predicate AttemptsSound(db: Database, user: UserId) { AttemptsCurrent(db, user) && PendingsTrue(db) }

  lemma OwnPendings(db: Database, event: Event, db': Database)
    requires PendingsTrue(db) && AttemptsDistinct(db) && event.operation.room in db.intents
    requires db.intents[event.operation.room].attempt == Some(event.id)
    requires event.operation.room in db'.groups && db'.groups[event.operation.room].pending.None?
    requires db'.groups == db.groups[event.operation.room := db'.groups[event.operation.room]]
    requires db'.intents == DropIntents(db.intents, event.id)
    requires forall id :: id in db.outbox && id != event.id ==> id in db'.outbox && db'.outbox[id] == db.outbox[id]
    ensures PendingsTrue(db')
  {
    forall room | room in db'.groups ensures PendingOf(db', room) {
      if room != event.operation.room { assert PendingOf(db, room); }
    }
  }

  lemma OwnAdvances(db: Database, user: UserId, event: Event, db': Database)
    requires AttemptsSound(db, user) && AttemptsOk(db) && AttemptsDistinct(db) && Faithful(db, user)
    requires event.sender == user && event.id in db.inbox && db.inbox[event.id].event == event
    requires event.operation.room in db.cursors && ApplyOwn(db, user, event) == Some(db')
    ensures Advances(db, event, Applied, db') && PendingsTrue(db') && event.id !in db'.outbox
    ensures Changes(db.groups[event.operation.room].group, db'.groups[event.operation.room].group, user, event, Applied)
  {
    var applied := if event.operation.contentType == Commit then ApplyAcceptedCommit(db, event.operation.room).value
                   else db;
    OwnChanges(db, user, event, applied);
    ClaimIs(db, applied, event);
    FinishAdvances(db, Claim(applied, event), user, event, Applied, db');
    OwnPendings(db, event, db');
  }

  lemma OwnDescends(db: Database, user: UserId, starts: Starts, lines: Lines, event: Event, db': Database)
    requires Descends(db, user, starts, lines) && KeysOk(db, starts) && AttemptsOk(db) && SequencesUnique(db)
    requires AttemptsDistinct(db) && Faithful(db, user)
    requires !Unresolved(db, event.operation.room) && event.id in db.inbox && db.inbox[event.id].event == event
    requires event.operation.room in db.cursors && event.operation.parent == db.cursors[event.operation.room]
    requires event.sender == user && ApplyOwn(db, user, event) == Some(db')
    ensures Descends(db', user, starts, NewLines(lines, starts, db'))
  {
    OwnAdvances(db, user, event, db');
    AdvanceDescends(db, user, starts, lines, event, Applied, db');
  }

  // ----- every run -----

  lemma Keys(db: Database, starts: Starts)
    requires CursorsOk(db, starts)
    ensures KeysOk(db, starts)
  {}

  lemma ModestDescends(db: Database, user: UserId, starts: Starts, lines: Lines, db': Database)
    requires Descends(db, user, starts, lines) && Modest(db, db')
    requires CursorsOk(db, starts) && CursorsOk(db', NewStarts(starts, db'))
    ensures Descends(db', user, NewStarts(starts, db'), NewLines(lines, NewStarts(starts, db'), db'))
  {
    Keys(db, starts);
    Keys(db', NewStarts(starts, db'));
    StillDescends(db, user, starts, lines, db', NewStarts(starts, db'), NewLines(lines, NewStarts(starts, db'), db'));
  }

  lemma CreationDescends(db: Database, user: UserId, starts: Starts, lines: Lines, id: MessageId, room: RoomId,
                         db': Database)
    requires Descends(db, user, starts, lines) && CursorsOk(db, starts) && AttemptsOk(db)
    requires id in db.outbox && !IsAttempt(db.outbox[id].request) && db' == CompleteCreation(db, user, id, room)
    requires CursorsOk(db', NewStarts(starts, db'))
    ensures Descends(db', user, NewStarts(starts, db'), NewLines(lines, NewStarts(starts, db'), db'))
  {
    CreationStill(db, user, starts, id, room, db');
    Keys(db, starts);
    Keys(db', NewStarts(starts, db'));
    StillDescends(db, user, starts, lines, db', NewStarts(starts, db'), NewLines(lines, NewStarts(starts, db'), db'));
  }

  lemma AnswerDescends(db: Database, user: UserId, starts: Starts, lines: Lines, id: MessageId, response: Response,
                       db': Database)
    requires Descends(db, user, starts, lines) && CursorsOk(db, starts) && AttemptsOk(db)
    requires Next(db, user, Answer(id, response)) == Some(db') && CursorsOk(db', NewStarts(starts, db'))
    ensures Descends(db', user, NewStarts(starts, db'), NewLines(lines, NewStarts(starts, db'), db'))
  {
    if response.RoomCreated? {
      AnswerCreates(db, user, id, response, db');
      CreationDescends(db, user, starts, lines, id, response.room, db');
    } else {
      AnswerModest(db, user, id, response, db');
      ModestDescends(db, user, starts, lines, db');
    }
  }

  lemma AnswerCreates(db: Database, user: UserId, id: MessageId, response: Response, db': Database)
    requires Next(db, user, Answer(id, response)) == Some(db') && response.RoomCreated?
    ensures id in db.outbox && !IsAttempt(db.outbox[id].request)
    ensures db' == CompleteCreation(db, user, id, response.room)
  {}

  lemma ApplyReady(db: Database, user: UserId, starts: Starts, event: Event, db': Database)
    requires Disciplined(db, user, starts) && Proven(db, user)
    requires Next(db, user, Apply(event)) == Some(db') && ClientOk(db', starts)
    ensures NewStarts(starts, db') == starts && KeysOk(db, starts) && KeysOk(db', starts)
    ensures AttemptsOk(db) && SequencesUnique(db) && AttemptsDistinct(db) && Faithful(db, user)
    ensures InboxOk(db, starts)
    ensures !Unresolved(db, event.operation.room) && event.id in db.inbox && db.inbox[event.id].event == event
    ensures event.operation.room in db.cursors && event.operation.parent == db.cursors[event.operation.room]
    ensures (if event.sender == user then ApplyOwn(db, user, event) else ApplyOther(db, user, event)) == Some(db')
  {
    StartsSame(db', starts);
    Keys(db, starts);
    Keys(db', starts);
  }

  lemma ApplyDescends(db: Database, user: UserId, starts: Starts, lines: Lines, event: Event, db': Database)
    requires Descends(db, user, starts, lines) && Disciplined(db, user, starts) && Proven(db, user)
    requires Next(db, user, Apply(event)) == Some(db') && ClientOk(db', starts)
    ensures Descends(db', user, NewStarts(starts, db'), NewLines(lines, NewStarts(starts, db'), db'))
  {
    ApplyReady(db, user, starts, event, db');
    if event.sender == user {
      OwnDescends(db, user, starts, lines, event, db');
    } else {
      OtherDescends(db, user, starts, lines, event, db');
    }
  }

  lemma BuildStepDescends(db: Database, user: UserId, starts: Starts, lines: Lines, room: RoomId, id: MessageId,
                          bytes: Ciphertext, db': Database)
    requires Descends(db, user, starts, lines) && Disciplined(db, user, starts)
    requires Next(db, user, Build(room, id, bytes)) == Some(db') && ClientOk(db', starts)
    ensures Descends(db', user, NewStarts(starts, db'), NewLines(lines, NewStarts(starts, db'), db'))
  {
    StartsSame(db', starts);
    Keys(db, starts);
    Keys(db', starts);
    BuildShape(db, user, room, id, bytes);
    BuildMadeHere(db, user, room, id, bytes, db');
    BuildDescends(db, user, starts, lines, room, id, db', NewLines(lines, starts, db'));
  }

  lemma QuietModest(db: Database, user: UserId, action: Action, db': Database)
    requires action.Import? || action.Issue? || action.Intend? || action.Receive? || action.Store?
    requires Next(db, user, action) == Some(db')
    ensures Modest(db, db')
  {
    match action {
      case Issue(id, request) => IssueModest(db, user, id, request, db');
      case Intend(room, intent) => IntendModest(db, user, room, intent, db');
      case Receive(event) => ReceiveModest(db, event, db');
      case Store(page) => StoreModest(db, user, page, db');
      case Import(contact) =>
    }
  }

  lemma StepDescends(db: Database, user: UserId, starts: Starts, lines: Lines, action: Action, db': Database)
    requires Descends(db, user, starts, lines) && Disciplined(db, user, starts) && Proven(db, user)
    requires Next(db, user, action) == Some(db') && Disciplined(db', user, NewStarts(starts, db'))
    ensures Descends(db', user, NewStarts(starts, db'), NewLines(lines, NewStarts(starts, db'), db'))
  {
    if action.Answer? {
      AnswerDescends(db, user, starts, lines, action.id, action.response, db');
    } else if action.Build? {
      BuildStep(db, user, starts, action.room, action.id, action.bytes, db');
      BuildStepDescends(db, user, starts, lines, action.room, action.id, action.bytes, db');
    } else if action.Apply? {
      ApplyStep(db, user, starts, action.event, db');
      ApplyDescends(db, user, starts, lines, action.event, db');
    } else if action.Process? {
      Keys(db, starts);
      Keys(db', NewStarts(starts, db'));
      ProcessJoins(db, user, action.cursor, action.keyAvailable, db');
      ProcessDescends(db, user, starts, lines, action.cursor, db', NewStarts(starts, db'),
                      NewLines(lines, NewStarts(starts, db'), db'));
    } else {
      QuietModest(db, user, action, db');
      ModestDescends(db, user, starts, lines, db');
    }
  }

  lemma {:induction false} RunDescends(trace: Trace, user: UserId, actions: seq<Action>)
    requires Disciplined(trace.client.db, user, trace.client.starts) && Proven(trace.client.db, user)
    requires Descends(trace.client.db, user, trace.client.starts, trace.lines)
    ensures var after := RunTrace(trace, user, actions);
            Disciplined(after.client.db, user, after.client.starts)
            && Descends(after.client.db, user, after.client.starts, after.lines)
    decreases |actions|
  {
    if actions != [] {
      TraceStepDescends(trace, user, actions[0]);
      RunDescends(TraceStep(trace, user, actions[0]), user, actions[1..]);
    }
  }

  lemma TraceStepDescends(trace: Trace, user: UserId, action: Action)
    requires Disciplined(trace.client.db, user, trace.client.starts) && Proven(trace.client.db, user)
    requires Descends(trace.client.db, user, trace.client.starts, trace.lines)
    ensures var next := TraceStep(trace, user, action);
            && Disciplined(next.client.db, user, next.client.starts) && Proven(next.client.db, user)
            && Descends(next.client.db, user, next.client.starts, next.lines)
  {
    var db, starts := trace.client.db, trace.client.starts;
    match Next(db, user, action) {
      case None => LinesSame(db, starts, trace.lines);
      case Some(db') =>
        StepKept(db, user, starts, action, db');
        StepProven(db, user, starts, action, db');
        StepDescends(db, user, starts, trace.lines, action, db');
    }
  }

  lemma LinesSame(db: Database, starts: Starts, lines: Lines)
    requires LinesOk(db, starts, lines)
    ensures NewLines(lines, starts, db) == lines
  {
    forall room | room in lines ensures room in db.cursors && room in starts { assert LineOk(db, starts, lines, room); }
  }

  /** A new client has no rooms. */
  function Beginning(user: UserId): Trace { Trace(Client(Fresh(user), map[]), map[]) }

  lemma ReachedDescends(user: UserId, actions: seq<Action>)
    ensures var trace := RunTrace(Beginning(user), user, actions);
            && trace.client == After(user, actions)
            && Disciplined(trace.client.db, user, trace.client.starts)
            && Descends(trace.client.db, user, trace.client.starts, trace.lines)
  {
    ClientStart(user);
    RunDescends(Beginning(user), user, actions);
    TraceIsRun(Beginning(user), user, actions);
  }

  /** A group follows the applied commits: whatever the relay hands over, a room has had one group
      for every place from its start to its cursor, the last of them the current one. A settled
      event changed the group exactly if it is an applied commit, which was made on the group before
      it and added one new member; an applied message was of the epoch of its place; and nobody but
      the user and the members of the group at that place had anything applied. */
  lemma GroupsFollowCommits(user: UserId, actions: seq<Action>, id: MessageId)
    ensures var trace := RunTrace(Beginning(user), user, actions);
            var db, starts, lines := trace.client.db, trace.client.starts, trace.lines;
            && trace.client == After(user, actions)
            && LinesOk(db, starts, lines)
            && (id in db.inbox && Settled(db.inbox[id].state) ==>
                  Follows(starts, lines, user, db.inbox[id].event, db.inbox[id].state))
  {
    ReachedDescends(user, actions);
  }

  /** Every room in use was created by the user, who was alone in it, or entered by a Welcome that a
      verified contact in its group signed for this user, this room and this place; and every
      Welcome that was applied let the user into its room there. */
  lemma RoomsAreEntered(user: UserId, actions: seq<Action>, room: RoomId, c: nat)
    ensures var trace := RunTrace(Beginning(user), user, actions);
            var db, starts, lines := trace.client.db, trace.client.starts, trace.lines;
            && trace.client == After(user, actions)
            && (room in db.groups ==>
                  room in starts && room in lines && lines[room] != []
                  && Origin(db, user, room, starts[room], lines[room][0]))
            && (c in db.welcomes && db.welcomes[c].state == Applied ==>
                  var entered := db.welcomes[c].record.room;
                  && entered in lines && entered in starts && lines[entered] != []
                  && Entered(db, user, c, entered, starts[entered], lines[entered][0]))
  {
    ReachedDescends(user, actions);
  }
}
