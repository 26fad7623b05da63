/** A client stays in step with the log while others extend it. */
module SyncGrowth {
  import opened Records
  import opened RelaySpec
  import opened RelayInvariants
  import opened RelayTheorems
  import opened Replay
  import opened ClientSpec
  import opened Honest
  import opened LogFacts
  import opened World
  import opened Sync

  lemma InLogStable(t: Tables, t': Tables, event: Event)
    requires Extends(t, t') && InLog(t, event)
    ensures InLog(t', event)
  {
    assert Log(t, event.operation.room) <= Log(t', event.operation.room);
  }

  lemma GroupsStable(t: Tables, t': Tables, user: UserId, cursors: map<RoomId, nat>, groups: map<RoomId, GroupState>)
    requires Extends(t, t') && GroupsTrue(t, user, cursors, groups)
    ensures GroupsTrue(t', user, cursors, groups)
  {
    forall room | room in groups && room in cursors
      ensures room in t'.rooms && cursors[room] <= |Log(t', room)|
              && groups[room].group == GroupAt(t', room, cursors[room])
    {
      GroupAtStable(t, t', room, cursors[room]);
    }
  }

  lemma AppendsStable(t: Tables, t': Tables, user: UserId, cursors: map<RoomId, nat>, outbox: map<MessageId, OutboxRow>)
    requires Extends(t, t') && AppendsTrue(t, user, cursors, outbox)
    ensures AppendsTrue(t', user, cursors, outbox)
  {
    forall id | id in outbox && outbox[id].request.AppendRoomOperation?
      ensures AppendTrue(t', user, cursors, id, outbox[id].request.operation)
    {
      assert AppendTrue(t, user, cursors, id, outbox[id].request.operation);
      HonestAppendStable(t, t', user, id, outbox[id].request.operation);
    }
  }

  lemma InboxStable(t: Tables, t': Tables, inbox: map<MessageId, InboxRow>)
    requires Extends(t, t') && InboxTrue(t, inbox)
    ensures InboxTrue(t', inbox)
  {
    forall id | id in inbox ensures InLog(t', inbox[id].event) {
      InLogStable(t, t', inbox[id].event);
    }
  }

  lemma WelcomesStable(t: Tables, t': Tables, user: UserId, welcomes: map<nat, WelcomeEntry>, cursor: nat)
    requires Extends(t, t') && WelcomesTrue(t, user, welcomes, cursor)
    ensures WelcomesTrue(t', user, welcomes, cursor)
  {
    forall c: nat ensures c in welcomes <==> c <= cursor && Addressed(t', user, c) {
      assert c in welcomes <==> c <= cursor && Addressed(t, user, c);
    }
    forall c | c in welcomes ensures Delivered(t', user, welcomes[c].record) {
      assert Delivered(t, user, welcomes[c].record);
    }
  }

  /** The only new event of a log is one whose request its sender still holds. */
  ghost predicate GrowsBy(t: Tables, t': Tables, user: UserId, outbox: map<MessageId, OutboxRow>) {
    forall event :: InLog(t', event) && !InLog(t, event) && event.sender == user ==> Waiting(outbox, event)
  }

  lemma SyncedStable(t: Tables, t': Tables, user: UserId, db: Database)
    requires Extends(t, t') && GrowsBy(t, t', user, db.outbox) && Synced(t, user, db)
    ensures Synced(t', user, db)
  {
    GroupsStable(t, t', user, db.cursors, db.groups);
    AppendsStable(t, t', user, db.cursors, db.outbox);
    InboxStable(t, t', db.inbox);
    WelcomesStable(t, t', user, db.welcomes, db.welcomeCursor);
    OwnWaitingStable(t, t', user, db.cursors, db.outbox);
  }

  lemma OwnWaitingStable(
    t: Tables, t': Tables, user: UserId, cursors: map<RoomId, nat>, outbox: map<MessageId, OutboxRow>)
    requires GrowsBy(t, t', user, outbox) && OwnWaiting(t, user, cursors, outbox)
    ensures OwnWaiting(t', user, cursors, outbox)
  {}

  lemma JournaledStable(t: Tables, t': Tables, row: JournalRow)
    requires t.journal <= t'.journal && JournalOk(t'.journal) && Journaled(t, row)
    ensures Journaled(t', row)
  {
    LookupStays(t.journal, t'.journal, row.user, row.id);
  }

  lemma PageStable(t: Tables, t': Tables, user: UserId, after: nat, page: seq<WelcomeDelivery>)
    requires Extends(t, t') && PageTrue(t, user, after, page)
    ensures PageTrue(t', user, after, page)
  {
    forall i | 0 <= i < |page| ensures Delivered(t', user, page[i]) {
      assert Delivered(t, user, page[i]);
    }
    if page != [] {
      assert Delivered(t, user, page[|page| - 1]);
      forall c: nat | after < c <= page[|page| - 1].cursor && Addressed(t', user, c) ensures OnPage(page, c) {
        assert Addressed(t, user, c);
      }
    }
  }

  lemma AnswerStable(t: Tables, t': Tables, message: Message, response: Response)
    requires Extends(t, t') && JournalOk(t'.journal) && AnswerTrue(t, message, response)
    ensures AnswerTrue(t', message, response)
  {
    if response.RoomEvents? {
      forall i | 0 <= i < |response.events| ensures InLog(t', response.events[i]) {
        InLogStable(t, t', response.events[i]);
      }
    } else if response.Welcomes? {
      PageStable(t, t', message.user, response.afterCursor, response.welcomes);
    }
    if IsDurable(message.request) && !message.request.Acknowledge? && !IsTransient(response) {
      JournaledStable(t, t', JournalRow(message.user, message.id, message.request, response));
    }
  }

  lemma AnswersStable(t: Tables, t': Tables, answers: set<Answered>)
    requires Extends(t, t') && JournalOk(t'.journal) && AnswersTrue(t, answers)
    ensures AnswersTrue(t', answers)
  {
    forall answer | answer in answers ensures AnswerTrue(t', answer.message, answer.response) {
      AnswerStable(t, t', answer.message, answer.response);
    }
  }

  lemma ResultsKept(t: Tables, t': Tables, limits: Limits, call: Call, reply: Response)
    requires ResultsTrue(t) && Effect(t, t', limits, call, reply)
    ensures ResultsTrue(t')
  {
    if t' != t {
      assert Data(t').rooms == t'.rooms;
      forall i | 0 <= i < |t'.journal| ensures ResultTrue(t', t'.journal[i]) {
        if i < |t.journal| { assert ResultTrue(t, t.journal[i]); }
      }
    }
  }

  // ----- what the relay answers -----

  lemma {:induction false} RowsAfterIn(rows: seq<EventRow>, after: nat)
    ensures forall i :: 0 <= i < |RowsAfter(rows, after)| ==> RowsAfter(rows, after)[i] in rows
  {
    if rows != [] {
      RowsAfterIn(rows[1..], after);
    }
  }

  lemma FetchTrue(t: Tables, user: UserId, room: RoomId, after: nat)
    requires LogOk(t)
    ensures var outcome := ExecuteFetch(t, user, room, after);
            outcome.response.RoomEvents? ==> EventsTrue(t, outcome.response.events)
  {
    var outcome := ExecuteFetch(t, user, room, after);
    if outcome.response.RoomEvents? {
      var rows := RowsAfter(RowsOf(t.events, room), after);
      RowsAfterIn(RowsOf(t.events, room), after);
      forall i | 0 <= i < |outcome.response.events| ensures InLog(t, outcome.response.events[i]) {
        assert First(rows, 101)[i] == rows[i];
        var k :| 0 <= k < |RowsOf(t.events, room)| && RowsOf(t.events, room)[k] == rows[i];
        var j := RowsOfFinds(t.events, room, k);
        RowInLog(t, j);
      }
    }
  }

  lemma RowDelivered(t: Tables, user: UserId, after: nat, i: nat)
    requires forall k :: 0 <= k < |t.welcomes| ==> t.welcomes[k].cursor == k + 1
    requires i < |WelcomesAfter(t.welcomes, user, after)|
    ensures var row := WelcomesAfter(t.welcomes, user, after)[i];
            Delivered(t, user, row.record.(cursor := row.cursor)) && after < row.cursor
  {
    WelcomesAfterExact(t.welcomes, user, after);
    assert WelcomesAfter(t.welcomes, user, after)[i] in t.welcomes;
  }

  lemma RowOnPage(t: Tables, user: UserId, after: nat, taken: nat, c: nat)
    requires forall k :: 0 <= k < |t.welcomes| ==> t.welcomes[k].cursor == k + 1
    requires 0 < taken <= |WelcomesAfter(t.welcomes, user, after)|
    requires after < c <= WelcomesAfter(t.welcomes, user, after)[taken - 1].cursor && Addressed(t, user, c)
    ensures OnPage(DeliveriesOf(WelcomesAfter(t.welcomes, user, after)[..taken]), c)
  {
    var rows := WelcomesAfter(t.welcomes, user, after);
    WelcomesAfterExact(t.welcomes, user, after);
    assert t.welcomes[c - 1] in rows;
    var k :| 0 <= k < |rows| && rows[k] == t.welcomes[c - 1];
    assert k < taken;
    assert DeliveriesOf(rows[..taken])[k].cursor == c;
  }

  lemma PageOfRows(t: Tables, user: UserId, after: nat, taken: nat)
    requires forall i :: 0 <= i < |t.welcomes| ==> t.welcomes[i].cursor == i + 1
    requires taken <= |WelcomesAfter(t.welcomes, user, after)|
    ensures PageTrue(t, user, after, DeliveriesOf(WelcomesAfter(t.welcomes, user, after)[..taken]))
  {
    var rows := WelcomesAfter(t.welcomes, user, after);
    var page := DeliveriesOf(rows[..taken]);
    forall i | 0 <= i < |page| ensures Delivered(t, user, page[i]) && after < page[i].cursor {
      RowDelivered(t, user, after, i);
    }
    forall i, j | 0 <= i < j < |page| ensures page[i].cursor < page[j].cursor {
      WelcomesAfterExact(t.welcomes, user, after);
    }
    if page != [] {
      forall c: nat | after < c <= page[|page| - 1].cursor && Addressed(t, user, c) ensures OnPage(page, c) {
        RowOnPage(t, user, after, taken, c);
      }
    }
  }

  lemma WelcomesAnswerTrue(t: Tables, user: UserId, after: nat)
    requires WelcomesOk(t)
    ensures var outcome := ExecuteWelcomes(t, user, after);
            outcome.response.Welcomes? ==>
              outcome.response.afterCursor == after && PageTrue(t, user, after, outcome.response.welcomes)
  {
    CursorsCount(t.rooms, t.events);
    if after <= I64_MAX {
      var all := WelcomesAfter(t.welcomes, user, after);
      var rows := First(all, 101);
      var taken := Taken(WelcomeRowSizes(rows), 0, 0);
      assert rows[..taken] == all[..taken];
      PageOfRows(t, user, after, taken);
    }
  }
}
