/** What ties a client's database to the relay's log, part by part. */
module Sync {
  import opened Records
  import opened RelaySpec
  import opened RelayInvariants
  import opened ClientSpec
  import opened Honest
  import opened LogFacts
  import opened World

  // ----- where identifiers come from -----

  /** A random identifier belongs to the one request it was drawn for; a receipt's identifier
      spells the receipt out. */
  predicate Issued(issued: map<MessageId, Message>, message: Message) {
    match message.id
    case Random(_) => message.id in issued && issued[message.id] == message
    case Receipt(user, events, welcomes) => message.user == user && message.request == Acknowledge(events, welcomes)
  }

  predicate OutboxIssued(issued: map<MessageId, Message>, user: UserId, outbox: map<MessageId, OutboxRow>) {
    forall id :: id in outbox ==> Issued(issued, Message(user, id, outbox[id].request))
  }

  predicate JournalIssued(issued: map<MessageId, Message>, journal: seq<JournalRow>) {
    forall i :: 0 <= i < |journal| ==>
      Issued(issued, Message(journal[i].user, journal[i].id, journal[i].request))
  }

  // ----- one client against the log -----

  /** The group is the one the log leads to at the cursor, and the user is a member. */
  ghost predicate GroupsTrue(t: Tables, user: UserId, cursors: map<RoomId, nat>, groups: map<RoomId, GroupState>) {
    forall room :: room in groups && room in cursors ==>
      && room in t.rooms && cursors[room] <= |Log(t, room)|
      && groups[room].group == GroupAt(t, room, cursors[room])
      && user in groups[room].group.roster
  }

  /** Every append waiting in the outbox was built on the log up to the cursor. */
  ghost predicate AppendsTrue(t: Tables, user: UserId, cursors: map<RoomId, nat>, outbox: map<MessageId, OutboxRow>) {
    forall id :: id in outbox && outbox[id].request.AppendRoomOperation? ==>
      AppendTrue(t, user, cursors, id, outbox[id].request.operation)
  }

  ghost predicate AppendTrue(t: Tables, user: UserId, cursors: map<RoomId, nat>, id: MessageId, operation: Append) {
    operation.room in cursors && operation.parent == cursors[operation.room] && HonestAppend(t, user, id, operation)
  }

  /** The group that the room's outstanding commit leads to, if its attempt is a commit. */
  function Outstanding(intents: map<RoomId, Intent>, outbox: map<MessageId, OutboxRow>, room: RoomId): Option<Group> {
    if room in intents && intents[room].attempt.Some? && intents[room].attempt.value in outbox
       && outbox[intents[room].attempt.value].request.AppendRoomOperation?
       && outbox[intents[room].attempt.value].request.operation.body.content.CommitMessage?
    then
      var content := outbox[intents[room].attempt.value].request.operation.body.content;
      Some(Added(content.base, content.added))
    else None
  }

  /** The MLS group holds a pending commit exactly when the room's attempt is one. */
  ghost predicate PendingTrue(
    intents: map<RoomId, Intent>, outbox: map<MessageId, OutboxRow>, groups: map<RoomId, GroupState>)
  {
    forall room :: room in groups ==> groups[room].pending == Outstanding(intents, outbox, room)
  }

  /** Every received event is the log's, and none is ever skipped. */
  ghost predicate InboxTrue(t: Tables, inbox: map<MessageId, InboxRow>) {
    forall id :: id in inbox ==> InLog(t, inbox[id].event) && inbox[id].state != Refused
  }

  /** An own event that is not applied yet still has its exact request in the outbox. */
  ghost predicate OwnWaiting(t: Tables, user: UserId, cursors: map<RoomId, nat>, outbox: map<MessageId, OutboxRow>) {
    forall event :: InLog(t, event) && event.sender == user && !Passed(cursors, event) ==> Waiting(outbox, event)
  }

  predicate Passed(cursors: map<RoomId, nat>, event: Event) {
    event.operation.room in cursors && event.operation.parent < cursors[event.operation.room]
  }

  predicate Waiting(outbox: map<MessageId, OutboxRow>, event: Event) {
    event.id in outbox && outbox[event.id].request == AppendRoomOperation(event.operation)
  }

  predicate PackagesTrue(intents: map<RoomId, Intent>) {
    forall room :: room in intents && intents[room].package.Some? ==>
      && intents[room].target.Some?
      && intents[room].package.value.content == KeyPackageMessage(intents[room].target.value)
  }

  /** The Welcome is the relay's row of that cursor, addressed to the user. */
  ghost predicate Delivered(t: Tables, user: UserId, welcome: WelcomeDelivery) {
    && 1 <= welcome.cursor <= |t.welcomes|
    && t.welcomes[welcome.cursor - 1].recipient == user
    && welcome == t.welcomes[welcome.cursor - 1].record.(cursor := welcome.cursor)
  }

  predicate Addressed(t: Tables, user: UserId, cursor: nat) {
    1 <= cursor <= |t.welcomes| && t.welcomes[cursor - 1].recipient == user
  }

  /** The stored Welcomes are the relay's queue for the user up to the Welcome cursor. */
  ghost predicate WelcomesTrue(t: Tables, user: UserId, welcomes: map<nat, WelcomeEntry>, cursor: nat) {
    && cursor <= |t.welcomes|
    && (forall c: nat :: c in welcomes <==> c <= cursor && Addressed(t, user, c))
    && (forall c :: c in welcomes ==> welcomes[c].record.cursor == c && Delivered(t, user, welcomes[c].record))
  }

  ghost predicate Synced(t: Tables, user: UserId, db: Database) {
    && GroupsTrue(t, user, db.cursors, db.groups)
    && AppendsTrue(t, user, db.cursors, db.outbox)
    && PendingTrue(db.intents, db.outbox, db.groups)
    && InboxTrue(t, db.inbox)
    && OwnWaiting(t, user, db.cursors, db.outbox)
    && PackagesTrue(db.intents)
    && WelcomesTrue(t, user, db.welcomes, db.welcomeCursor)
  }

  // ----- the relay and its answers -----

  /** Only results of durable requests are journaled, and a room belongs to the user whose
      request created it. */
  ghost predicate ResultTrue(t: Tables, row: JournalRow) {
    && IsDurable(row.request) && !row.response.RoomEvents? && !row.response.Welcomes?
    && (row.response.RoomCreated? ==> row.response.room in t.rooms && t.rooms[row.response.room].creator == row.user)
  }

  ghost predicate ResultsTrue(t: Tables) { forall i :: 0 <= i < |t.journal| ==> ResultTrue(t, t.journal[i]) }

  /** A page of Welcomes is a complete stretch of the user's queue. */
  ghost predicate PageTrue(t: Tables, user: UserId, after: nat, page: seq<WelcomeDelivery>) {
    && (forall i :: 0 <= i < |page| ==> Delivered(t, user, page[i]) && after < page[i].cursor)
    && (forall i, j :: 0 <= i < j < |page| ==> page[i].cursor < page[j].cursor)
    && (page != [] ==>
          forall c: nat :: after < c <= page[|page| - 1].cursor && Addressed(t, user, c) ==> OnPage(page, c))
  }

  ghost predicate OnPage(page: seq<WelcomeDelivery>, cursor: nat) {
    exists i :: 0 <= i < |page| && page[i].cursor == cursor
  }

  /** What an answer says is still true: results are journaled, pages are parts of the logs. */
  ghost predicate AnswerTrue(t: Tables, message: Message, response: Response) {
    && (IsDurable(message.request) && !message.request.Acknowledge? && !IsTransient(response) ==>
          Journaled(t, JournalRow(message.user, message.id, message.request, response)))
    && (response.RoomEvents? ==> EventsTrue(t, response.events))
    && (response.Welcomes? ==> PageTrue(t, message.user, response.afterCursor, response.welcomes))
  }

  ghost predicate EventsTrue(t: Tables, events: seq<Event>) {
    forall i :: 0 <= i < |events| ==> InLog(t, events[i])
  }

  ghost predicate AnswersTrue(t: Tables, answers: set<Answered>) {
    forall answer :: answer in answers ==> AnswerTrue(t, answer.message, answer.response)
  }

  /** An append is in its sender's outbox or has a journaled result. */
  ghost predicate InFlight(w: World, message: Message) {
    || (message.user in w.clients && message.id in w.clients[message.user].db.outbox)
    || Lookup(w.relay.journal, message.user, message.id).Some?
  }

  ghost predicate AppendsInFlight(w: World) {
    forall id :: id in w.issued && w.issued[id].request.AppendRoomOperation? ==>
      id.Random? && w.issued[id].id == id && InFlight(w, w.issued[id])
  }
}
