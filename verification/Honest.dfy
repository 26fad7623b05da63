/** What the log of an honest run looks like: every event was built by a member on the group
    that the events before it lead to. */
module Honest {
  import opened Records
  import opened RelaySpec
  import opened RelayInvariants
  import opened ClientSpec

  /** The group after an event. */
  function After1(group: Group, event: Event): Group {
    if event.operation.contentType == Commit && event.operation.body.content.CommitMessage?
    then Added(group, event.operation.body.content.added) else group
  }

  /** The group that a log leads to from the one its creator made. */
  function Fold(creator: UserId, log: seq<Event>): Group {
    if log == [] then Group(0, {creator})
    else After1(Fold(creator, log[..|log| - 1]), log[|log| - 1])
  }

  /** The group after the first n events of a room. */
  function GroupAt(t: Tables, room: RoomId, n: nat): Group
    requires room in t.rooms && n <= |Log(t, room)|
  {
    Fold(t.rooms[room].creator, Log(t, room)[..n])
  }

  lemma GroupAtNext(t: Tables, room: RoomId, n: nat)
    requires room in t.rooms && n < |Log(t, room)|
    ensures GroupAt(t, room, n + 1) == After1(GroupAt(t, room, n), Log(t, room)[n])
  {
    assert Log(t, room)[..n + 1][..n] == Log(t, room)[..n];
  }

  /** A Welcome for the added member, signed by the committer, with the group after the commit. */
  predicate HonestAttachment(user: UserId, id: MessageId, operation: Append, base: Group, added: UserId) {
    && operation.welcome.Some?
    && var attachment := operation.welcome.value;
       && attachment.recipient == added
       && attachment.body.content == WelcomeMessage(operation.room, Added(base, added))
       && attachment.signature
          == Signature(user, Transcript(added, operation.room, id, operation.parent + 1, attachment.body))
  }

  /** The operation was built by a member on exactly this group. */
  predicate BuiltOn(user: UserId, id: MessageId, operation: Append, base: Group) {
    && user in base.roster
    && operation.epoch == base.epoch
    && match operation.body.content
       case ApplicationMessage(epoch, sender, binding, _) =>
         && operation.contentType == Application && epoch == base.epoch && sender == user
         && binding == Binding(operation.room, id, operation.parent) && operation.welcome.None?
       case CommitMessage(group, sender, binding, added) =>
         && operation.contentType == Commit && group == base && sender == user
         && binding == Binding(operation.room, id, operation.parent)
         && added !in base.roster && HonestAttachment(user, id, operation, base, added)
       case _ => false
  }

  /** The operation was built on the log up to its parent. */
  ghost predicate HonestAppend(t: Tables, user: UserId, id: MessageId, operation: Append) {
    && operation.room in t.rooms
    && operation.parent <= |Log(t, operation.room)|
    && BuiltOn(user, id, operation, GroupAt(t, operation.room, operation.parent))
  }

  ghost predicate HonestEvent(t: Tables, room: RoomId, k: nat)
    requires k < |Log(t, room)|
  {
    var event := Log(t, room)[k];
    event.operation.room == room && event.operation.parent == k
    && HonestAppend(t, event.sender, event.id, event.operation)
  }

  ghost predicate HonestLogs(t: Tables) {
    && (forall room :: Log(t, room) != [] ==> room in t.rooms)
    && (forall room, k :: 0 <= k < |Log(t, room)| ==> HonestEvent(t, room, k))
  }

  // ----- growth -----

  /** Everything the relay has promised stays: rooms, logs, results and Welcomes only grow. */
  ghost predicate Extends(t: Tables, t': Tables) {
    && (forall room :: room in t.rooms ==> room in t'.rooms && t'.rooms[room] == t.rooms[room])
    && (forall room :: Log(t, room) <= Log(t', room))
    && t.journal <= t'.journal
    && t.welcomes <= t'.welcomes
  }

  lemma GroupAtStable(t: Tables, t': Tables, room: RoomId, n: nat)
    requires Extends(t, t') && room in t.rooms && n <= |Log(t, room)|
    ensures room in t'.rooms && n <= |Log(t', room)| && GroupAt(t', room, n) == GroupAt(t, room, n)
  {
    assert Log(t, room) <= Log(t', room);
    assert Log(t', room)[..n] == Log(t, room)[..n];
  }

  lemma HonestAppendStable(t: Tables, t': Tables, user: UserId, id: MessageId, operation: Append)
    requires Extends(t, t') && HonestAppend(t, user, id, operation)
    ensures HonestAppend(t', user, id, operation)
  {
    GroupAtStable(t, t', operation.room, operation.parent);
  }

  lemma LogAppend(t: Tables, t': Tables, row: EventRow, room: RoomId)
    requires t'.events == t.events + [row]
    ensures Log(t', room) == Log(t, room) + (if row.room == room then [row.event] else [])
  {
    RowsOfAppend(t.events, row, room);
  }

  lemma EffectExtends(t: Tables, t': Tables, limits: Limits, call: Call, reply: Response)
    requires Effect(t, t', limits, call, reply)
    ensures Extends(t, t')
    ensures EventAppended(t, t', call, reply) ==>
              forall room :: Log(t', room)
                == Log(t, room) + (if room == call.request.operation.room then [reply.event] else [])
    ensures !EventAppended(t, t', call, reply) ==> t'.events == t.events && t'.welcomes == t.welcomes
  {
    if EventAppended(t, t', call, reply) {
      var row := EventRow(call.request.operation.room, call.request.operation.parent + 1, reply.event);
      assert Data(t').events == t.events + [row] && Data(t').rooms == t.rooms;
      forall room ensures Log(t', room) == Log(t, room) + (if row.room == room then [row.event] else []) {
        LogAppend(t, t', row, room);
      }
      assert t.welcomes <= Data(t').welcomes;
    } else if t' != t {
      assert Data(t').events == t.events && Data(t').welcomes == t.welcomes;
      assert forall room :: room in t.rooms ==> room in Data(t').rooms && Data(t').rooms[room] == t.rooms[room];
      assert forall room :: Log(t', room) == Log(t, room);
    }
  }
}
