/** How the journal, the logs and the Welcome queue of a relay refer to each other. */
module LogFacts {
  import opened Records
  import opened RelaySpec
  import opened RelayInvariants

  /** The event stands in the log of its room, at the place its parent gives it. */
  ghost predicate InLog(t: Tables, event: Event) {
    var log := Log(t, event.operation.room);
    event.operation.parent < |log| && log[event.operation.parent] == event
  }

  function AcceptedAs(event: Event): JournalRow {
    JournalRow(event.sender, event.id, AppendRoomOperation(event.operation), AppendAccepted(event))
  }

  /** The journal holds this result for this request. */
  ghost predicate Journaled(t: Tables, row: JournalRow) { Lookup(t.journal, row.user, row.id) == Some(row) }

  lemma LookupIs(journal: seq<JournalRow>, i: nat)
    requires JournalOk(journal) && i < |journal|
    ensures Lookup(journal, journal[i].user, journal[i].id) == Some(journal[i])
  {
    var user, id := journal[i].user, journal[i].id;
    LookupFinds(journal, user, id);
    assert Lookup(journal, user, id).Some?;
    var j :| 0 <= j < |journal| && journal[j] == Lookup(journal, user, id).value;
  }

  lemma {:induction false} RowsOfPrefix(events: seq<EventRow>, i: nat, room: RoomId)
    requires i <= |events|
    ensures RowsOf(events[..i], room) <= RowsOf(events, room)
  {
    if i < |events| {
      var init := events[..|events| - 1];
      RowsOfPrefix(init, i, room);
      assert init[..i] == events[..i];
    } else {
      assert events[..i] == events;
    }
  }

  lemma RowInLog(t: Tables, i: nat)
    requires LogOk(t) && i < |t.events|
    ensures InLog(t, t.events[i].event)
  {
    var row := t.events[i];
    assert RowOk(t, i);
    assert t.events[..i + 1] == t.events[..i] + [row];
    RowsOfAppend(t.events[..i], row, row.room);
    RowsOfPrefix(t.events, i + 1, row.room);
  }

  lemma {:induction false} RowsOfFinds(events: seq<EventRow>, room: RoomId, k: nat) returns (i: nat)
    requires k < |RowsOf(events, room)|
    ensures i < |events| && events[i] == RowsOf(events, room)[k]
  {
    var init := events[..|events| - 1];
    if k < |RowsOf(init, room)| {
      i := RowsOfFinds(init, room, k);
    } else {
      i := |events| - 1;
    }
  }

  lemma {:induction false} AcceptedFinds(journal: seq<JournalRow>, k: nat) returns (i: nat)
    requires k < |AcceptedEvents(journal)|
    ensures i < |journal| && journal[i].response == AppendAccepted(AcceptedEvents(journal)[k])
  {
    var init := journal[..|journal| - 1];
    if k < |AcceptedEvents(init)| {
      i := AcceptedFinds(init, k);
    } else {
      i := |journal| - 1;
    }
  }

  lemma {:induction false} AcceptedHas(journal: seq<JournalRow>, i: nat) returns (k: nat)
    requires i < |journal| && journal[i].response.AppendAccepted?
    ensures k < |AcceptedEvents(journal)| && AcceptedEvents(journal)[k] == journal[i].response.event
  {
    var init := journal[..|journal| - 1];
    if i < |init| {
      k := AcceptedHas(init, i);
    } else {
      k := |AcceptedEvents(init)|;
    }
  }

  /** Every event of a log is the journaled result of exactly its sender's request. */
  lemma LogJournaled(t: Tables, event: Event)
    requires JournalOk(t.journal) && AcceptedOk(t) && InLog(t, event)
    ensures Journaled(t, AcceptedAs(event))
  {
    var i := RowsOfFinds(t.events, event.operation.room, event.operation.parent);
    assert EventsOf(t.events)[i] == event;
    var j := AcceptedFinds(t.journal, i);
    assert AcceptedRow(t.journal[j]);
    LookupIs(t.journal, j);
  }

  /** Every journaled acceptance stands in the log. */
  lemma JournaledInLog(t: Tables, row: JournalRow)
    requires JournalOk(t.journal) && AcceptedOk(t) && LogOk(t) && Journaled(t, row) && row.response.AppendAccepted?
    ensures InLog(t, row.response.event) && row == AcceptedAs(row.response.event)
  {
    LookupFinds(t.journal, row.user, row.id);
    var i :| 0 <= i < |t.journal| && t.journal[i] == row;
    assert AcceptedRow(t.journal[i]);
    var k := AcceptedHas(t.journal, i);
    assert EventsOf(t.events)[k] == row.response.event;
    RowInLog(t, k);
  }

  /** A Welcome row is what the event it names published. */
  ghost predicate Publishes(event: Event, row: WelcomeRow) {
    && event.operation.welcome.Some?
    && row.recipient == event.operation.welcome.value.recipient
    && row.record.attachment == event.operation.welcome.value
    && row.record.room == event.operation.room
    && row.record.sequence == event.operation.parent + 1
    && row.record.event == event.id
    && row.record.inviter == event.sender
  }

  lemma {:induction false} WelcomeFinds(rooms: map<RoomId, Room>, events: seq<EventRow>, c: nat) returns (i: nat)
    requires Dense(events) && c < |WelcomeRowsOf(rooms, events)|
    ensures i < |events| && Publishes(events[i].event, WelcomeRowsOf(rooms, events)[c])
  {
    var init := events[..|events| - 1];
    DensePrefix(events);
    if c < |WelcomeRowsOf(rooms, init)| {
      i := WelcomeFinds(rooms, init, c);
    } else {
      i := |events| - 1;
    }
  }

  lemma WelcomePublished(t: Tables, c: nat) returns (event: Event)
    requires LogOk(t) && WelcomesOk(t) && c < |t.welcomes|
    ensures InLog(t, event) && Publishes(event, t.welcomes[c])
  {
    LogIsDense(t);
    var i := WelcomeFinds(t.rooms, t.events, c);
    RowInLog(t, i);
    event := t.events[i].event;
  }

  ghost predicate Ascending(rows: seq<WelcomeRow>) {
    forall i, j :: 0 <= i < j < |rows| ==> rows[i].cursor < rows[j].cursor
  }

  /** The query returns exactly the user's rows after the cursor, in order. */
  lemma {:induction false} WelcomesAfterExact(rows: seq<WelcomeRow>, user: UserId, after: nat)
    requires Ascending(rows)
    ensures var r := WelcomesAfter(rows, user, after);
            && Ascending(r)
            && (forall i :: 0 <= i < |r| ==> r[i] in rows && r[i].recipient == user && r[i].cursor > after)
            && (forall i :: 0 <= i < |rows| && rows[i].recipient == user && rows[i].cursor > after ==> rows[i] in r)
  {
    if rows != [] {
      WelcomesAfterExact(rows[1..], user, after);
      var r := WelcomesAfter(rows[1..], user, after);
      forall i | 0 <= i < |r| ensures rows[0].cursor < r[i].cursor {
        var j :| 0 <= j < |rows[1..]| && rows[1..][j] == r[i];
      }
    }
  }
}
