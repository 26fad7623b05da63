/**
  When Welcome pages can be sent. A page is cut by the sizes of its stored records, whose
  cursor is still zero, so the cursors filled in afterwards can push it over one message
  (crates/grotto-relay/src/delivery.rs). This happens from the 203rd Welcome on.
 */
module WelcomePages {
  import opened Records
  import opened Sizes
  import opened RoomNames
  import opened RelaySpec
  import opened RelayInvariants
  import opened LogFacts
  import opened Pages

  // ----- a run that publishes 203 Welcomes for one user -----

  const ENV := Environment(7, 0, 0, 0, 0, 0x1_0000_0000)
  const COUNT: nat := 203

  function Filler(n: nat): (b: seq<byte>)
    ensures |b| == n
  {
    seq(n, i => 0)
  }

  /** A full page of small Welcomes, a page that ends at cursor 127, and a page of 76. */
  function Length(k: nat): nat {
    if k < 100 then 1 else if k < 127 then 28800 else if k < 202 then 10211 else 10251
  }

  function AttachmentAt(k: nat): WelcomeAttachment {
    var body := Blob(Filler(Length(k)), Malformed);
    WelcomeAttachment(2, body, Signature(1, Transcript(2, 7, Random(k + 1), k + 1, body)))
  }

  function OperationAt(k: nat): Append {
    Append(7, k, k, Commit, Blob(Filler(1), Malformed), Some(AttachmentAt(k)))
  }

  function RowAt(k: nat): WelcomeRow {
    WelcomeRow(k + 1, 2, WelcomeDelivery("r", 0, Random(k + 1), 7, k + 1, 1, AttachmentAt(k)))
  }

  const CREATION := Call(1, Random(0), CreateRoom("r"), ENV)

  function AppendCall(k: nat): Call { Call(1, Random(k + 1), AppendRoomOperation(OperationAt(k)), ENV) }

  function Calls(n: nat): (calls: seq<Call>)
    ensures |calls| == n + 1
  {
    if n == 0 then [CREATION] else Calls(n - 1) + [AppendCall(n - 1)]
  }

  lemma {:induction false} CallsAreWords(n: nat)
    requires n <= COUNT
    ensures forall i :: 0 <= i < |Calls(n)| ==> Words(Calls(n)[i].request)
  {
    if n > 0 { CallsAreWords(n - 1); }
  }

  // ----- the tables after n appends -----

  ghost predicate Events(events: seq<EventRow>, n: nat) {
    && |events| == n && Head(events, 7) == n
    && forall i :: 0 <= i < n ==> events[i].event.id == Random(i + 1) && events[i].sequence == i + 1
  }

  ghost predicate Rows(welcomes: seq<WelcomeRow>, n: nat) {
    |welcomes| == n && forall i :: 0 <= i < n ==> welcomes[i] == RowAt(i)
  }

  ghost predicate Unused(journal: seq<JournalRow>, n: nat) {
    forall i :: 0 <= i < |journal| ==> journal[i].id.Random? && journal[i].id.bits <= n
  }

  ghost predicate Spent(t: Tables, n: nat) {
    Used(t.usageSender, 1) <= 20000 + 110000 * n && Used(t.usageRoom, 7) <= 110000 * n
  }

  ghost predicate Built(t: Tables, n: nat) {
    && t.rooms == map[7 := Room("r", 1)] && (7, 1) in t.subscribers
    && Events(t.events, n) && Rows(t.welcomes, n)
    && Unused(t.journal, n) && Spent(t, n)
  }

  lemma NameIs()
    ensures NormalizeRoomName("r") == Some("r")
  {
    assert "r"[..1] == "r";
    assert !IsWhitespace('r') && !IsControl('r');
  }

  lemma Created()
    ensures Built(After(EMPTY, DEFAULT_LIMITS, CREATION), 0)
  {
    NameIs();
    assert RequestSize(CREATION.request) == 3;
    assert Charge(CREATION.request) == 16393;
    assert RoomsCreatedBy(EMPTY.rooms, 1) == {};
  }

  lemma Sized(k: nat)
    requires k < COUNT
    ensures RequestSize(AppendRoomOperation(OperationAt(k))) <= 28910
    ensures Charge(AppendRoomOperation(OperationAt(k))) <= 110000
  {
    assert VarintSize(k) <= 2;
    VarintSizeOfWord(Length(k));
  }

  lemma Inserted(t: Tables, n: nat)
    requires Built(t, n) && n < COUNT
    ensures ExecuteAppend(t, 1, Random(n + 1), OperationAt(n))
            == Done(Insert(t, Event(Random(n + 1), 1, OperationAt(n)), n + 1),
                    AppendAccepted(Event(Random(n + 1), 1, OperationAt(n))))
    ensures ResponseSize(AppendAccepted(Event(Random(n + 1), 1, OperationAt(n)))) <= MAX_PAYLOAD
  {
    Sized(n);
    VarintSizeOfWord(n + 1);
    assert Utf8Size("r") == 1;
    assert VarintSize(Length(n)) <= 3 by { VarintSizeOfWord(Length(n)); }
  }

  lemma NotYet(journal: seq<JournalRow>, n: nat)
    requires Unused(journal, n)
    ensures Lookup(journal, 1, Random(n + 1)).None?
  {
    LookupFinds(journal, 1, Random(n + 1));
  }

  lemma HeadNext(events: seq<EventRow>, n: nat, event: Event)
    requires Events(events, n) && event.id == Random(n + 1)
    ensures Events(events + [EventRow(7, n + 1, event)], n + 1)
  {
    var longer := events + [EventRow(7, n + 1, event)];
    assert longer[..|events|] == events;
  }

  lemma Admitted(t: Tables, n: nat)
    requires Spent(t, n) && n < COUNT
    ensures Admit(t, DEFAULT_LIMITS, 1, AppendRoomOperation(OperationAt(n)), ENV)
  {
    Sized(n);
  }

  lemma Appended(t: Tables, n: nat)
    requires Built(t, n) && n < COUNT
    ensures Built(After(t, DEFAULT_LIMITS, AppendCall(n)), n + 1)
  {
    var call := AppendCall(n);
    var event := Event(Random(n + 1), 1, OperationAt(n));
    Sized(n);
    Inserted(t, n);
    NotYet(t.journal, n);
    HeadNext(t.events, n, event);
    Admitted(t, n);
    var t' := After(t, DEFAULT_LIMITS, call);
    assert t'.welcomes == t.welcomes + [RowAt(n)];
  }

  lemma {:induction false} AllBuilt(n: nat)
    requires n <= COUNT
    ensures Built(Run(EMPTY, DEFAULT_LIMITS, Calls(n)), n)
  {
    if n == 0 {
      Created();
      assert Calls(0)[1..] == [];
      assert Run(EMPTY, DEFAULT_LIMITS, Calls(0)) == Run(After(EMPTY, DEFAULT_LIMITS, CREATION), DEFAULT_LIMITS, []);
    } else {
      AllBuilt(n - 1);
      RunLast(EMPTY, DEFAULT_LIMITS, Calls(n - 1), AppendCall(n - 1));
      Appended(Run(EMPTY, DEFAULT_LIMITS, Calls(n - 1)), n - 1);
    }
  }

  // ----- its three pages -----

  lemma {:induction false} AfterCursor(rows: seq<WelcomeRow>, first: nat, after: nat)
    requires forall i :: 0 <= i < |rows| ==> rows[i].recipient == 2 && rows[i].cursor == first + i + 1
    requires first <= after <= first + |rows|
    ensures WelcomesAfter(rows, 2, after) == rows[after - first..]
  {
    if rows != [] {
      if after == first {
        LaterOnes(rows, after);
      } else {
        AfterCursor(rows[1..], first + 1, after);
      }
    }
  }

  lemma {:induction false} LaterOnes(rows: seq<WelcomeRow>, after: nat)
    requires forall i :: 0 <= i < |rows| ==> rows[i].recipient == 2 && rows[i].cursor > after
    ensures WelcomesAfter(rows, 2, after) == rows
  {
    if rows != [] { LaterOnes(rows[1..], after); }
  }

  /** The cut-off, from where it stops. */
  lemma {:induction false} TakenExactly(sizes: seq<nat>, count: nat, bytes: nat, n: nat)
    requires n <= |sizes| && count + n <= PAGE_SIZE && bytes + Total(sizes[..n]) <= MAX_PAYLOAD - 96
    requires n == |sizes| || count + n == PAGE_SIZE || bytes + Total(sizes[..n]) + sizes[n] > MAX_PAYLOAD - 96
    ensures Taken(sizes, count, bytes) == n
  {
    if n > 0 {
      assert sizes[..n][1..] == sizes[1..][..n - 1];
      TakenExactly(sizes[1..], count + 1, bytes + sizes[0], n - 1);
    } else {
      assert sizes[..0] == [];
    }
  }

  lemma {:induction false} TotalUniform(sizes: seq<nat>, size: nat)
    requires forall i :: 0 <= i < |sizes| ==> sizes[i] == size
    ensures Total(sizes) == |sizes| * size
  {
    if sizes != [] {
      TotalUniform(sizes[1..], size);
    }
  }

  lemma {:induction false} TotalAppend(a: seq<nat>, b: seq<nat>)
    ensures Total(a + b) == Total(a) + Total(b)
  {
    if a == [] {
      assert a + b == b;
    } else {
      assert (a + b)[1..] == a[1..] + b;
      TotalAppend(a[1..], b);
    }
  }

  function RowSize(k: nat): nat { if k < 100 then 134 else if k < 127 then 28935 else if k < 202 then 10346 else 10386 }

  lemma SizeAt(k: nat)
    requires k < COUNT
    ensures WelcomeSize(RowAt(k).record) == RowSize(k)
  {
    assert Utf8Size("r") == 1;
    assert VarintSize(k + 1) == if k < 127 then 1 else 2;
    assert VarintSize(1) == 1 && VarintSize(28800) == 3 && VarintSize(10211) == 2 && VarintSize(10251) == 2;
  }

  /** The sizes of the rows after a cursor, and what a page counts for the first of them. */
  function SizesAfter(t: Tables, after: nat): (sizes: seq<nat>)
    requires after <= |t.welcomes|
  {
    WelcomeRowSizes(t.welcomes[after..])
  }

  function Counted(t: Tables, after: nat, n: nat): nat
    requires after + n <= |t.welcomes|
  {
    Total(SizesAfter(t, after)[..n])
  }

  lemma RowsSized(t: Tables, after: nat)
    requires Built(t, COUNT) && after <= COUNT
    ensures |SizesAfter(t, after)| == COUNT - after
    ensures forall i :: 0 <= i < COUNT - after ==> SizesAfter(t, after)[i] == RowSize(after + i)
  {
    var rows := t.welcomes[after..];
    forall i | 0 <= i < |rows| ensures WelcomeSize(rows[i].record) == RowSize(after + i) {
      assert rows[i] == RowAt(after + i);
      SizeAt(after + i);
    }
  }

  /** All rows are for the same user, and their cursors count. */
  ghost predicate Numbered(rows: seq<WelcomeRow>) {
    forall i :: 0 <= i < |rows| ==> rows[i].recipient == 2 && rows[i].cursor == i + 1
  }

  /** The page after a cursor stops after `n` rows. */
  ghost predicate Stops(t: Tables, after: nat, n: nat)
    requires after + n <= |t.welcomes|
  {
    && n <= PAGE_SIZE && Counted(t, after, n) <= MAX_PAYLOAD - 96
    && (after + n == |t.welcomes| || n == PAGE_SIZE
        || Counted(t, after, n) + SizesAfter(t, after)[n] > MAX_PAYLOAD - 96)
  }

  lemma PrefixSizes(rows: seq<WelcomeRow>, n: nat)
    requires n <= |rows|
    ensures WelcomeRowSizes(rows[..n]) == WelcomeRowSizes(rows)[..n]
  {}

  lemma TakenRows(t: Tables, after: nat, n: nat)
    requires after + n <= |t.welcomes| && Stops(t, after, n)
    ensures Taken(WelcomeRowSizes(First(t.welcomes[after..], 101)), 0, 0) == n
  {
    var all := t.welcomes[after..];
    var m := if |all| <= 101 then |all| else 101;
    assert First(all, 101) == all[..m];
    PrefixSizes(all, m);
    assert SizesAfter(t, after)[..m][..n] == SizesAfter(t, after)[..n];
    TakenExactly(SizesAfter(t, after)[..m], 0, 0, n);
  }

  lemma PageOf(t: Tables, after: nat, n: nat)
    requires Numbered(t.welcomes) && after + n <= |t.welcomes| <= I64_MAX && Stops(t, after, n)
    ensures ExecuteWelcomes(t, 2, after).response
            == Welcomes(after, DeliveriesOf(t.welcomes[after..after + n]), after + n < |t.welcomes|)
    ensures WelcomeRowSizes(t.welcomes[after..after + n]) == SizesAfter(t, after)[..n]
  {
    AfterCursor(t.welcomes, 0, after);
    TakenRows(t, after, n);
    var all := t.welcomes[after..];
    assert First(all, 101)[..n] == all[..n] == t.welcomes[after..after + n];
    PrefixSizes(all, n);
  }

  lemma UniformSum(t: Tables, after: nat, n: nat, size: nat)
    requires Built(t, COUNT) && after + n <= |t.welcomes|
    requires forall i :: 0 <= i < n ==> SizesAfter(t, after)[i] == size
    ensures Counted(t, after, n) == n * size
  {
    TotalUniform(SizesAfter(t, after)[..n], size);
  }

  lemma LastSum(t: Tables, after: nat, n: nat)
    requires after + n < |t.welcomes|
    ensures Counted(t, after, n + 1) == Counted(t, after, n) + SizesAfter(t, after)[n]
  {
    var sizes := SizesAfter(t, after);
    assert sizes[..n + 1] == sizes[..n] + [sizes[n]];
    TotalAppend(sizes[..n], [sizes[n]]);
    assert Total([sizes[n]]) == sizes[n] + Total([]);
  }

  lemma FirstStop(t: Tables)
    requires Built(t, COUNT)
    ensures |t.welcomes| == COUNT && Stops(t, 0, 100)
  {
    RowsSized(t, 0);
    UniformSum(t, 0, 100, 134);
  }

  lemma SecondStop(t: Tables)
    requires Built(t, COUNT)
    ensures |t.welcomes| == COUNT && Stops(t, 100, 27)
  {
    RowsSized(t, 100);
    UniformSum(t, 100, 27, 28935);
  }

  lemma ThirdStop(t: Tables)
    requires Built(t, COUNT)
    ensures |t.welcomes| == COUNT && Stops(t, 127, 76) && Counted(t, 127, 76) == MAX_PAYLOAD - 96
  {
    RowsSized(t, 127);
    UniformSum(t, 127, 75, 10346);
    LastSum(t, 127, 75);
  }

  lemma Queue(t: Tables)
    requires Built(t, COUNT)
    ensures Uncounted(t.welcomes) && Ascending(t.welcomes) && Numbered(t.welcomes) && |t.welcomes| == COUNT
  {
    forall i | 0 <= i < COUNT
      ensures t.welcomes[i].recipient == 2 && t.welcomes[i].cursor == i + 1 && t.welcomes[i].record.cursor == 0
    {
      assert t.welcomes[i] == RowAt(i);
    }
  }

  lemma {:induction false} TwoByteCursors(rows: seq<WelcomeRow>)
    requires forall i :: 0 <= i < |rows| ==> 0x80 <= rows[i].cursor < 0x4000
    ensures CursorBytes(rows) == |rows|
  {
    if rows != [] {
      TwoByteCursors(rows[1..]);
      assert VarintSize(rows[0].cursor) == 2;
    }
  }

  ghost predicate Walkable(t: Tables) {
    LogOk(t) && WelcomesOk(t) && RecordsOk(t) && Numbered(t.welcomes) && |t.welcomes| == COUNT
  }

  /** A walk over a page stops with the walk after it. */
  lemma StopsEarlier(t: Tables, after: nat, n: nat)
    requires Walkable(t) && 0 < n && after + n < COUNT && Stops(t, after, n) && QueueWalk(t, 2, after + n) == None
    ensures QueueWalk(t, 2, after) == None
  {
    PageOf(t, after, n);
    LastCursor(t.welcomes, after, n);
  }

  lemma LastCursor(rows: seq<WelcomeRow>, after: nat, n: nat)
    requires Numbered(rows) && 0 < n && after + n <= |rows|
    ensures DeliveriesOf(rows[after..after + n])[n - 1].cursor == after + n
  {
    assert rows[after..after + n][n - 1] == rows[after + n - 1];
  }

  /** The last page is one byte too long. */
  lemma LastPage(t: Tables)
    requires Built(t, COUNT)
    ensures 17 + ResponseSize(ExecuteWelcomes(t, 2, 127).response) == MAX_PAYLOAD + 1
  {
    Queue(t);
    ThirdStop(t);
    PageOf(t, 127, 76);
    LastSize(t.welcomes[127..127 + 76]);
  }

  lemma LastSize(rows: seq<WelcomeRow>)
    requires Uncounted(rows) && |rows| == 76 && forall i :: 0 <= i < |rows| ==> rows[i].cursor == 128 + i
    ensures 17 + ResponseSize(Welcomes(127, DeliveriesOf(rows), false)) == 97 + Total(WelcomeRowSizes(rows))
  {
    TwoByteCursors(rows);
    WelcomePageSize(127, rows, false);
  }

  lemma NoLastPage(t: Tables)
    requires Walkable(t) && !PageFits(ExecuteWelcomes(t, 2, 127).response)
    ensures QueueWalk(t, 2, 127) == None
  {}

  lemma NoWalk(t: Tables)
    requires Built(t, COUNT) && Walkable(t)
    ensures QueueWalk(t, 2, 0) == None
  {
    LastPage(t);
    NoLastPage(t);
    SecondStop(t);
    StopsEarlier(t, 100, 27);
    FirstStop(t);
    StopsEarlier(t, 0, 100);
  }

  /** The page after a cursor can be sent and ends at another cursor, with more to come. */
  ghost predicate LeadsTo(t: Tables, after: nat, next: nat) {
    var page := ExecuteWelcomes(t, 2, after).response;
    PageFits(page) && page.Welcomes? && page.more && page.welcomes != []
    && page.welcomes[|page.welcomes| - 1].cursor == next
  }

  lemma EarlyFits(t: Tables, after: nat, n: nat)
    requires Built(t, COUNT) && 0 < n && after + n <= 127 <= |t.welcomes| && Stops(t, after, n)
    ensures LeadsTo(t, after, after + n)
  {
    Queue(t);
    PageOf(t, after, n);
    EarlySize(after, t.welcomes[after..after + n]);
  }

  lemma EarlySize(after: nat, rows: seq<WelcomeRow>)
    requires Uncounted(rows) && 0 < |rows| <= PAGE_SIZE && after + |rows| <= 127
    requires forall i :: 0 <= i < |rows| ==> rows[i].cursor == after + i + 1
    ensures 17 + ResponseSize(Welcomes(after, DeliveriesOf(rows), true)) == 21 + Total(WelcomeRowSizes(rows))
    ensures DeliveriesOf(rows)[|rows| - 1].cursor == after + |rows|
  {
    CursorBytesBound(rows, after, 127);
    WelcomePageSize(after, rows, true);
  }

  lemma FirstPages(t: Tables)
    requires Built(t, COUNT)
    ensures LeadsTo(t, 0, 100) && LeadsTo(t, 100, 127)
  {
    FirstStop(t);
    EarlyFits(t, 0, 100);
    SecondStop(t);
    EarlyFits(t, 100, 27);
  }

  lemma RunComplete(n: nat)
    requires n == COUNT
    ensures Built(Run(EMPTY, DEFAULT_LIMITS, Calls(n)), n) && Walkable(Run(EMPTY, DEFAULT_LIMITS, Calls(n)))
  {
    AllBuilt(n);
    CallsAreWords(n);
    RecordsInvariant(EMPTY, DEFAULT_LIMITS, Calls(n));
    Queue(Run(EMPTY, DEFAULT_LIMITS, Calls(n)));
  }

  /** With 203 Welcomes the walk of their recipient can stop for good: two pages lead to cursor
      127, and the page after it is one the relay builds and cannot send, whenever it is asked. */
  lemma WalkStops(n: nat)
    requires n == COUNT
    ensures var t := Run(EMPTY, DEFAULT_LIMITS, Calls(n));
            && Walkable(t) && LeadsTo(t, 0, 100) && LeadsTo(t, 100, 127)
            && !PageFits(ExecuteWelcomes(t, 2, 127).response) && QueueWalk(t, 2, 0) == None
  {
    RunComplete(n);
    var t := Run(EMPTY, DEFAULT_LIMITS, Calls(n));
    FirstPages(t);
    LastPage(t);
    NoWalk(t);
  }

  // ----- the exact condition -----

  ghost predicate OffTheWire(calls: seq<Call>) { forall i :: 0 <= i < |calls| ==> Words(calls[i].request) }

  /** Every page of every relay that has published at most `n` Welcomes can be sent. */
  ghost predicate PagesFit(n: nat) {
    forall limits: Limits, calls: seq<Call>, user: UserId, after: nat ::
      OffTheWire(calls) && |Run(EMPTY, limits, calls).welcomes| <= n ==>
      PageFits(ExecuteWelcomes(Run(EMPTY, limits, calls), user, after).response)
  }

  ghost predicate WalkWorks(t: Tables, user: UserId) {
    && LogOk(t) && WelcomesOk(t) && RecordsOk(t) && |t.welcomes| <= I64_MAX
    && QueueWalk(t, user, 0) == Some(DeliveriesOf(WelcomesAfter(t.welcomes, user, 0)))
  }

  /** Every walk over such a queue reads all of it. */
  ghost predicate WalksWork(n: nat) {
    forall limits: Limits, calls: seq<Call>, user: UserId ::
      OffTheWire(calls) && |Run(EMPTY, limits, calls).welcomes| <= n ==>
      WalkWorks(Run(EMPTY, limits, calls), user)
  }

  lemma SafePages(n: nat)
    requires n <= SAFE_WELCOMES
    ensures PagesFit(n)
  {
    forall limits: Limits, calls: seq<Call>, user: UserId, after: nat
      | OffTheWire(calls) && |Run(EMPTY, limits, calls).welcomes| <= n
      ensures PageFits(ExecuteWelcomes(Run(EMPTY, limits, calls), user, after).response)
    {
      SafePage(limits, calls, user, after);
    }
  }

  lemma SafePage(limits: Limits, calls: seq<Call>, user: UserId, after: nat)
    requires OffTheWire(calls) && |Run(EMPTY, limits, calls).welcomes| <= SAFE_WELCOMES
    ensures PageFits(ExecuteWelcomes(Run(EMPTY, limits, calls), user, after).response)
  {
    RunSound(limits, calls);
    AnyPageFits(Run(EMPTY, limits, calls), user, after);
  }

  ghost predicate Sound(t: Tables) { LogOk(t) && WelcomesOk(t) && RecordsOk(t) }

  lemma RunSound(limits: Limits, calls: seq<Call>)
    requires OffTheWire(calls)
    ensures Sound(Run(EMPTY, limits, calls))
  {
    RecordsInvariant(EMPTY, limits, calls);
  }

  lemma AnyPageFits(t: Tables, user: UserId, after: nat)
    requires Sound(t) && |t.welcomes| <= SAFE_WELCOMES
    ensures PageFits(ExecuteWelcomes(t, user, after).response)
  {
    if after <= I64_MAX {
      WelcomePageFits(t, user, after);
    }
  }

  lemma SafeWalks(n: nat)
    requires n <= SAFE_WELCOMES
    ensures WalksWork(n)
  {
    forall limits: Limits, calls: seq<Call>, user: UserId
      | OffTheWire(calls) && |Run(EMPTY, limits, calls).welcomes| <= n
      ensures WalkWorks(Run(EMPTY, limits, calls), user)
    {
      SafeWalk(limits, calls, user);
    }
  }

  lemma SafeWalk(limits: Limits, calls: seq<Call>, user: UserId)
    requires OffTheWire(calls) && |Run(EMPTY, limits, calls).welcomes| <= SAFE_WELCOMES
    ensures WalkWorks(Run(EMPTY, limits, calls), user)
  {
    RecordsInvariant(EMPTY, limits, calls);
    QueueWalkComplete(Run(EMPTY, limits, calls), user, 0);
  }

  /** Welcome pages can always be sent, and walks over them complete, if and only if at most
      202 Welcomes have been published. */
  lemma WelcomePagesExact(n: nat)
    ensures PagesFit(n) <==> n <= SAFE_WELCOMES
    ensures WalksWork(n) <==> n <= SAFE_WELCOMES
  {
    if n <= SAFE_WELCOMES {
      SafePages(n);
      SafeWalks(n);
    } else {
      var count := COUNT;
      WalkStops(count);
      CallsAreWords(count);
      assert OffTheWire(Calls(count));
      var t := Run(EMPTY, DEFAULT_LIMITS, Calls(count));
      assert |t.welcomes| <= n;
      assert !PageFits(ExecuteWelcomes(t, 2, 127).response);
      assert !WalkWorks(t, 2);
    }
  }
}
