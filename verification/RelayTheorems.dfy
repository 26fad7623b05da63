/** The relay's promises over whole runs. */
module RelayTheorems {
  import opened Records
  import opened RelaySpec
  import opened RelayInvariants

  /** Ordered logs: in every run each room's log is numbered 1..head without gaps, event
      identifiers are globally unique, the log is the journal's accepted appends one to one
      and in order, the Welcome queue is exactly what the events published, numbered from
      one, and a room's subscribers are its creator and the Welcome recipients. */
  lemma OrderedLogs(limits: Limits, calls: seq<Call>, room: RoomId, user: UserId)
    ensures Ordered(Run(EMPTY, limits, calls), room, user)
  {
    RelayInvariant(EMPTY, limits, calls);
    RelayIsOrdered(Run(EMPTY, limits, calls), limits, room, user);
  }

  ghost predicate Ordered(t: Tables, room: RoomId, user: UserId) {
    && Head(t.events, room) == |Log(t, room)|
    && (forall k :: 0 <= k < |Log(t, room)| ==>
          Log(t, room)[k].operation.parent == k && RowsOf(t.events, room)[k].sequence == k + 1)
    && (forall i, j :: 0 <= i < j < |t.events| ==> t.events[i].event.id != t.events[j].event.id)
    && AcceptedEvents(t.journal) == EventsOf(t.events)
    && t.welcomes == WelcomeRowsOf(t.rooms, t.events)
    && (forall i :: 0 <= i < |t.welcomes| ==> t.welcomes[i].cursor == i + 1)
    && (Subscribed(t, room, user) <==>
          (room in t.rooms && t.rooms[room].creator == user) || Welcomed(t, room, user))
  }

  lemma RelayIsOrdered(t: Tables, limits: Limits, room: RoomId, user: UserId)
    requires RelayOk(t, limits)
    ensures Ordered(t, room, user)
  {
    LogSequences(t, room);
    CursorsCount(t.rooms, t.events);
  }

  lemma {:induction false} CursorsCount(rooms: map<RoomId, Room>, events: seq<EventRow>)
    ensures forall i :: 0 <= i < |WelcomeRowsOf(rooms, events)| ==> WelcomeRowsOf(rooms, events)[i].cursor == i + 1
  {
    if events != [] {
      CursorsCount(rooms, events[..|events| - 1]);
    }
  }

  /** Key packages are conserved: what a user published is, in order, what reservations
      handed out followed by what is still in the pool of at most 64. */
  lemma PackagesConserved(limits: Limits, calls: seq<Call>, user: UserId)
    ensures var t := Run(EMPTY, limits, calls);
            && Published(t.journal, user) == HandedOut(t.journal, user) + Pool(t.packages, user)
            && |Pool(t.packages, user)| <= 64
  {
    RelayInvariant(EMPTY, limits, calls);
    assert Conserved(Run(EMPTY, limits, calls), user);
  }

  /** Ledgers are conserved and capped. A cap equal to the largest 64-bit integer is no
      cap: the saturating test cannot fail then. */
  lemma LedgersConserved(limits: Limits, calls: seq<Call>, user: UserId, room: RoomId)
    ensures var t := Run(EMPTY, limits, calls);
            && Used(t.usageSender, user) == SenderCharges(t.journal, user)
            && Used(t.usageRoom, room) == RoomCharges(t.journal, room)
            && (limits.sender < U64_MAX ==> Used(t.usageSender, user) <= limits.sender)
            && (limits.room < U64_MAX ==> Used(t.usageRoom, room) <= limits.room)
  {
    RelayInvariant(EMPTY, limits, calls);
  }

  /** Two receipts have a record in common. */
  ghost predicate Overlap(a: Request, b: Request)
    requires a.Acknowledge? && b.Acknowledge?
  {
    || (exists i, j :: 0 <= i < |a.events| && 0 <= j < |b.events| && a.events[i] == b.events[j])
    || (exists i, j :: 0 <= i < |a.welcomes| && 0 <= j < |b.welcomes| && a.welcomes[i] == b.welcomes[j])
  }

  lemma OneReceiptPerRecord(journal: seq<JournalRow>, i: nat, j: nat)
    requires JournalOk(journal) && ReceiptsOk(journal)
    requires i < |journal| && j < |journal| && journal[i].user == journal[j].user
    requires journal[i].request.Acknowledge? && journal[j].request.Acknowledge?
    requires Overlap(journal[i].request, journal[j].request)
    ensures i == j
  {
    var a, b := journal[i].request, journal[j].request;
    if k, l :| 0 <= k < |a.events| && 0 <= l < |b.events| && a.events[k] == b.events[l] {
      assert a.events == b.events && a.welcomes == [] && b.welcomes == [];
    } else {
      assert a.welcomes == b.welcomes && a.events == [] && b.events == [];
    }
    assert journal[i].id == journal[j].id;
  }

  /** Receipts bypass admission, but one record leaves at most one journal entry per user,
      and no journaled receipt covers more than one record. */
  lemma ReceiptsBounded(limits: Limits, calls: seq<Call>)
    ensures var journal := Run(EMPTY, limits, calls).journal;
            forall i, j ::
              (0 <= i < |journal| && 0 <= j < |journal| && journal[i].user == journal[j].user
               && journal[i].request.Acknowledge? && journal[j].request.Acknowledge?
               && Overlap(journal[i].request, journal[j].request)) ==> i == j
  {
    RelayInvariant(EMPTY, limits, calls);
    var journal := Run(EMPTY, limits, calls).journal;
    forall i, j | 0 <= i < |journal| && 0 <= j < |journal| && journal[i].user == journal[j].user
                  && journal[i].request.Acknowledge? && journal[j].request.Acknowledge?
                  && Overlap(journal[i].request, journal[j].request)
      ensures i == j
    {
      OneReceiptPerRecord(journal, i, j);
    }
  }

  // ----- the sliding window -----

  /** Allocations of a recipient with a time in the window (start, start + 3600]. */
  function InWindow(rows: seq<Allocation>, recipient: UserId, requester: Option<UserId>, start: int): nat {
    if rows == [] then 0
    else
      var last := rows[|rows| - 1];
      InWindow(rows[..|rows| - 1], recipient, requester, start)
      + (if last.recipient == recipient && start < last.at <= start + 3600
            && (requester.Some? ==> last.requester == requester.value) then 1 else 0)
  }

  lemma {:induction false} WindowWithinCount(
    rows: seq<Allocation>, recipient: UserId, requester: Option<UserId>, start: int, after: int)
    requires after <= start
    ensures InWindow(rows, recipient, requester, start) <= AllocationsAfter(rows, recipient, requester, after)
  {
    if rows != [] {
      WindowWithinCount(rows[..|rows| - 1], recipient, requester, start, after);
    }
  }

  ghost predicate WindowOk(rows: seq<Allocation>) {
    forall recipient: UserId, requester: UserId, start: int ::
      InWindow(rows, recipient, None, start) <= 16 && InWindow(rows, recipient, Some(requester), start) <= 4
  }

  lemma InWindowAppend(rows: seq<Allocation>, row: Allocation, recipient: UserId, requester: Option<UserId>, start: int)
    ensures InWindow(rows + [row], recipient, requester, start)
            == InWindow(rows, recipient, requester, start)
               + (if row.recipient == recipient && start < row.at <= start + 3600
                     && (requester.Some? ==> row.requester == requester.value) then 1 else 0)
  {
    assert (rows + [row])[..|rows|] == rows;
  }

  lemma AllocationKeepsWindow(
    rows: seq<Allocation>, recipient: UserId, requester: UserId, checkedAt: int, allocatedAt: int)
    requires WindowOk(rows) && RateAllows(rows, recipient, requester, checkedAt)
    requires checkedAt <= allocatedAt
    ensures WindowOk(rows + [Allocation(requester, recipient, allocatedAt)])
  {
    var row := Allocation(requester, recipient, allocatedAt);
    forall r: UserId, q: UserId, start: int
      ensures InWindow(rows + [row], r, None, start) <= 16
      ensures InWindow(rows + [row], r, Some(q), start) <= 4
    {
      InWindowAppend(rows, row, r, None, start);
      InWindowAppend(rows, row, r, Some(q), start);
      if start < row.at <= start + 3600 && row.recipient == r {
        WindowWithinCount(rows, r, None, start, checkedAt - 3600);
        WindowWithinCount(rows, r, Some(requester), start, checkedAt - 3600);
      }
    }
  }

  /** Allocations grow only by a reservation that the window allows. */
  lemma EffectAllocates(t: Tables, t': Tables, limits: Limits, call: Call, reply: Response)
    requires Effect(t, t', limits, call, reply)
    ensures t'.allocations == t.allocations
            || (call.request.ReserveKeyPackage?
                && RateAllows(t.allocations, call.request.recipient, call.user, call.env.checkedAt)
                && t'.allocations == t.allocations
                                     + [Allocation(call.user, call.request.recipient, call.env.allocatedAt)])
  {
    assert Data(t').allocations == t'.allocations;
  }

  lemma WindowKept(t: Tables, t': Tables, limits: Limits, call: Call, reply: Response)
    requires WindowOk(t.allocations) && Effect(t, t', limits, call, reply)
    requires call.env.checkedAt <= call.env.allocatedAt
    ensures WindowOk(t'.allocations)
  {
    EffectAllocates(t, t', limits, call, reply);
    if t'.allocations != t.allocations {
      AllocationKeepsWindow(t.allocations, call.request.recipient, call.user, call.env.checkedAt, call.env.allocatedAt);
    }
  }

  ghost predicate ClockSteadyWithinCalls(calls: seq<Call>) {
    forall i :: 0 <= i < |calls| ==> calls[i].env.checkedAt <= calls[i].env.allocatedAt
  }

  /** Whatever the clock does between transactions, no window of 3600 seconds holds more
      than 16 allocations of a recipient or 4 of a requester-recipient pair. */
  lemma {:induction false} SlidingWindow(t: Tables, limits: Limits, calls: seq<Call>)
    requires LogOk(t) && WindowOk(t.allocations) && ClockSteadyWithinCalls(calls)
    ensures WindowOk(Run(t, limits, calls).allocations)
    decreases |calls|
  {
    if calls != [] {
      var t' := After(t, limits, calls[0]);
      DeliverEffect(t, limits, calls[0]);
      WindowKept(t, t', limits, calls[0], Reply(t, limits, calls[0]));
      LogKept(t, t', limits, calls[0], Reply(t, limits, calls[0]));
      SlidingWindow(t', limits, calls[1..]);
    }
  }

  /** The test the relay makes before it allocates. */
  predicate RateAllows(rows: seq<Allocation>, recipient: UserId, requester: UserId, checkedAt: int) {
    && AllocationsAfter(rows, recipient, None, checkedAt - 3600) < 16
    && AllocationsAfter(rows, recipient, Some(requester), checkedAt - 3600) < 4
  }
}
