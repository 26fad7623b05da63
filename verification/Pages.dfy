/** Recovery pages: they make progress, fit one message, and walking them visits everything. */
module Pages {
  import opened Records
  import opened Sizes
  import opened RoomNames
  import opened SortedSets
  import opened RelaySpec
  import opened RelayInvariants
  import opened RelayTheorems
  import opened LogFacts

  // ----- sizes of accepted records -----

  /** The integers of a request fit the 64-bit fields of the wire format. */
  predicate Words(request: Request) {
    request.AppendRoomOperation? ==> request.operation.parent <= U64_MAX && request.operation.epoch <= U64_MAX
  }

  /** What every accepted event satisfies. */
  predicate Accepted(event: Event) { !AppendInvalid(event.operation) && event.operation.epoch <= U64_MAX }

  ghost predicate RecordsOk(t: Tables) {
    && (forall i :: 0 <= i < |t.events| ==> Accepted(t.events[i].event))
    && (forall room :: room in t.rooms ==> Utf8Size(t.rooms[room].name) <= 400)
  }

  lemma {:induction false} Utf8Bound(name: string)
    ensures Utf8Size(name) <= 4 * |name|
  {
    if name != "" { Utf8Bound(name[1..]); }
  }

  lemma NameBound(name: string)
    requires NormalizeRoomName(name).Some?
    ensures Utf8Size(NormalizeRoomName(name).value) <= 400
  {
    Utf8Bound(NormalizeRoomName(name).value);
  }

  lemma RecordsKept(t: Tables, t': Tables, limits: Limits, call: Call, reply: Response)
    requires RecordsOk(t) && Words(call.request) && Effect(t, t', limits, call, reply)
    ensures RecordsOk(t')
  {
    if t' != t {
      assert Data(t').events == t'.events && Data(t').rooms == t'.rooms;
      if RoomMade(t, t', call, reply) { NameBound(call.request.name); }
    }
  }

  lemma {:induction false} RecordsInvariant(t: Tables, limits: Limits, calls: seq<Call>)
    requires RelayOk(t, limits) && RecordsOk(t) && forall i :: 0 <= i < |calls| ==> Words(calls[i].request)
    ensures RelayOk(Run(t, limits, calls), limits) && RecordsOk(Run(t, limits, calls))
    decreases |calls|
  {
    if calls != [] {
      DeliverEffect(t, limits, calls[0]);
      RelayKept(t, limits, calls[0]);
      RecordsKept(t, After(t, limits, calls[0]), limits, calls[0], Reply(t, limits, calls[0]));
      RecordsInvariant(After(t, limits, calls[0]), limits, calls[1..]);
    }
  }

  lemma BlobBound(length: nat)
    requires length <= MAX_MLS_BLOB_BYTES
    ensures BytesSize(length) <= length + 3
  {
    VarintSizeOfWord(length);
  }

  lemma ParentBound(parent: nat)
    requires parent < I64_MAX
    ensures VarintSize(parent) <= 9
  {
    assert Power128(3) == 0x20_0000;
    assert Power128(6) == 0x400_0000_0000;
    assert Power128(9) == 0x20_0000 * 0x400_0000_0000;
    VarintSizeBound(parent, 9);
  }

  /** The record around the blobs takes at most 155 bytes, which the reserve of 256 covers
      even with the page margin of 96. */
  lemma EventBound(event: Event)
    requires Accepted(event)
    ensures EventSize(event) <= MAX_PAYLOAD - 96
  {
    ParentBound(event.operation.parent);
    VarintSizeOfWord(event.operation.epoch);
    BlobBound(|event.operation.body.bytes|);
    if event.operation.welcome.Some? { BlobBound(|event.operation.welcome.value.body.bytes|); }
  }

  // ----- the cut-off -----

  lemma {:induction false} TakenLimits(sizes: seq<nat>, count: nat, bytes: nat)
    requires count <= PAGE_SIZE
    ensures count + Taken(sizes, count, bytes) <= PAGE_SIZE
    ensures sizes != [] && count < PAGE_SIZE && bytes + sizes[0] <= MAX_PAYLOAD - 96 ==> Taken(sizes, count, bytes) > 0
  {
    if sizes != [] && count != PAGE_SIZE && bytes + sizes[0] <= MAX_PAYLOAD - 96 {
      TakenLimits(sizes[1..], count + 1, bytes + sizes[0]);
    }
  }

  function Total(sizes: seq<nat>): nat { if sizes == [] then 0 else sizes[0] + Total(sizes[1..]) }

  lemma {:induction false} TakenTotal(sizes: seq<nat>, count: nat, bytes: nat)
    requires bytes <= MAX_PAYLOAD - 96
    ensures bytes + Total(sizes[..Taken(sizes, count, bytes)]) <= MAX_PAYLOAD - 96
  {
    if Taken(sizes, count, bytes) > 0 {
      TakenTotal(sizes[1..], count + 1, bytes + sizes[0]);
      var n := Taken(sizes[1..], count + 1, bytes + sizes[0]);
      assert sizes[..n + 1][1..] == sizes[1..][..n];
    }
  }

  /** Every row after `after` is in range for the page of the first 101 rows. */
  lemma FirstPage<T>(all: seq<T>, taken: nat)
    requires taken <= |First(all, 101)| && taken <= PAGE_SIZE
    ensures First(all, 101)[..taken] == all[..taken]
    ensures taken < |First(all, 101)| <==> taken < |all|
  {}

  // ----- room events -----

  lemma {:induction false} RowsAfterSuffix(rows: seq<EventRow>, first: nat, after: nat)
    requires forall k :: 0 <= k < |rows| ==> rows[k].sequence == first + k + 1
    requires first <= after <= first + |rows|
    ensures RowsAfter(rows, after) == rows[after - first..]
  {
    if rows != [] {
      if after == first {
        RowsAfterAll(rows, after);
      } else {
        RowsAfterSuffix(rows[1..], first + 1, after);
      }
    }
  }

  lemma {:induction false} RowsAfterAll(rows: seq<EventRow>, after: nat)
    requires forall k :: 0 <= k < |rows| ==> rows[k].sequence > after
    ensures RowsAfter(rows, after) == rows
  {
    if rows != [] { RowsAfterAll(rows[1..], after); }
  }

  lemma {:induction false} TotalOfEvents(rows: seq<EventRow>)
    ensures EventsSize(EventsOf(rows)) == Total(RowSizes(rows))
  {
    if rows != [] {
      assert EventsOf(rows)[1..] == EventsOf(rows[1..]);
      assert RowSizes(rows)[1..] == RowSizes(rows[1..]);
      TotalOfEvents(rows[1..]);
    }
  }

  /** A page of room events: a non-empty stretch of the log right after the asked sequence, of
      at most 100 events, that says exactly whether more remain and fits one message. */
  ghost predicate GoodPage(t: Tables, room: RoomId, after: nat, response: Response)
    requires after <= |Log(t, room)|
  {
    && response.RoomEvents? && response.room == room && response.afterSequence == after
    && |response.events| <= PAGE_SIZE
    && after + |response.events| <= |Log(t, room)|
    && response.events == Log(t, room)[after..after + |response.events|]
    && (after < |Log(t, room)| ==> response.events != [])
    && (response.more <==> after + |response.events| < |Log(t, room)|)
    && 17 + ResponseSize(response) <= MAX_PAYLOAD
  }

  lemma PageMessageFits(room: RoomId, after: nat, rows: seq<EventRow>, more: bool)
    requires after <= I64_MAX && |rows| <= PAGE_SIZE && Total(RowSizes(rows)) <= MAX_PAYLOAD - 96
    ensures 17 + ResponseSize(RoomEvents(room, after, EventsOf(rows), more)) <= MAX_PAYLOAD
  {
    TotalOfEvents(rows);
    VarintSizeOfWord(after);
    VarintSizeOfWord(|rows|);
  }

  /** What the loop of a fetch takes from all rows there are. */
  lemma PageOfRows(all: seq<EventRow>)
    requires all != [] ==> EventSize(all[0].event) <= MAX_PAYLOAD - 96
    ensures var rows := First(all, 101);
            var taken := Taken(RowSizes(rows), 0, 0);
            && taken <= PAGE_SIZE && taken <= |all| && rows[..taken] == all[..taken]
            && (taken < |rows| <==> taken < |all|)
            && (all != [] ==> taken > 0)
            && Total(RowSizes(rows[..taken])) <= MAX_PAYLOAD - 96
  {
    var rows := First(all, 101);
    var taken := Taken(RowSizes(rows), 0, 0);
    TakenLimits(RowSizes(rows), 0, 0);
    FirstPage(all, taken);
    TakenTotal(RowSizes(rows), 0, 0);
    assert RowSizes(rows)[..taken] == RowSizes(rows[..taken]);
  }

  lemma RowsAfterIs(t: Tables, room: RoomId, after: nat)
    requires LogOk(t) && after <= |Log(t, room)|
    ensures RowsAfter(RowsOf(t.events, room), after) == RowsOf(t.events, room)[after..]
    ensures after < |Log(t, room)| ==> RowsOf(t.events, room)[after] in t.events
  {
    LogIsDense(t);
    RowsAreDense(t.events, room);
    RowsAfterSuffix(RowsOf(t.events, room), 0, after);
  }

  /** The event a page would start with fits. */
  ghost predicate StartFits(t: Tables, room: RoomId, after: nat) {
    after < |Log(t, room)| ==> Accepted(Log(t, room)[after])
  }

  lemma StartsFit(t: Tables, room: RoomId, after: nat)
    requires LogOk(t) && RecordsOk(t) && after <= |Log(t, room)|
    ensures StartFits(t, room, after)
  {
    RowsAfterIs(t, room, after);
  }

  /** The rows a fetch looks at, and how many of them it takes. */
  lemma FetchedRows(t: Tables, room: RoomId, after: nat)
    requires LogOk(t) && after <= |Log(t, room)| && StartFits(t, room, after)
    ensures var rows := First(RowsAfter(RowsOf(t.events, room), after), 101);
            var taken := Taken(RowSizes(rows), 0, 0);
            && taken <= PAGE_SIZE && after + taken <= |Log(t, room)|
            && rows[..taken] == RowsOf(t.events, room)[after..after + taken]
            && (taken < |rows| <==> after + taken < |Log(t, room)|)
            && (after < |Log(t, room)| ==> taken > 0)
            && Total(RowSizes(rows[..taken])) <= MAX_PAYLOAD - 96
  {
    var log := RowsOf(t.events, room);
    RowsAfterIs(t, room, after);
    if after < |log| { EventBound(log[after].event); }
    PageOfRows(log[after..]);
  }

  lemma FetchGood(t: Tables, user: UserId, room: RoomId, after: nat)
    requires LogOk(t) && StartFits(t, room, after)
    requires Subscribed(t, room, user) && after <= |Log(t, room)| && after <= I64_MAX
    ensures GoodPage(t, room, after, ExecuteFetch(t, user, room, after).response)
  {
    FetchedRows(t, room, after);
    var rows := First(RowsAfter(RowsOf(t.events, room), after), 101);
    var taken := Taken(RowSizes(rows), 0, 0);
    PageMessageFits(room, after, rows[..taken], taken < |rows|);
    assert EventsOf(RowsOf(t.events, room))[after..after + taken]
           == EventsOf(RowsOf(t.events, room)[after..after + taken]);
  }

  /** Page progress and size, after every run of requests off the wire: a subscriber who asks
      for the events after any sequence gets the next page of the log. */
  lemma PageProgress(limits: Limits, calls: seq<Call>, user: UserId, room: RoomId, after: nat)
    requires forall i :: 0 <= i < |calls| ==> Words(calls[i].request)
    ensures var t := Run(EMPTY, limits, calls);
            Subscribed(t, room, user) && after <= |Log(t, room)| && after <= I64_MAX ==>
              GoodPage(t, room, after, ExecuteFetch(t, user, room, after).response)
  {
    RecordsInvariant(EMPTY, limits, calls);
    var t := Run(EMPTY, limits, calls);
    if Subscribed(t, room, user) && after <= |Log(t, room)| && after <= I64_MAX {
      StartsFit(t, room, after);
      FetchGood(t, user, room, after);
    }
  }

  // ----- walking the log -----

  /** Fetch page after page until the relay says that nothing remains. */
  function EventWalk(t: Tables, user: UserId, room: RoomId, after: nat): seq<Event>
    requires LogOk(t) && RecordsOk(t) && Subscribed(t, room, user) && after <= |Log(t, room)| <= I64_MAX
    decreases |Log(t, room)| - after
  {
    var page := ExecuteFetch(t, user, room, after).response;
    StartsFit(t, room, after);
    FetchGood(t, user, room, after);
    page.events + (if page.more then EventWalk(t, user, room, after + |page.events|) else [])
  }

  /** A page and the rest of the log after it. */
  lemma PageThenRest(t: Tables, user: UserId, room: RoomId, after: nat)
    requires LogOk(t) && RecordsOk(t) && Subscribed(t, room, user) && after <= |Log(t, room)| <= I64_MAX
    ensures var page, log := ExecuteFetch(t, user, room, after).response, Log(t, room);
            && page.RoomEvents? && after + |page.events| <= |log|
            && log[after..] == page.events + log[after + |page.events|..]
            && (if page.more then page.events != [] else log[after..] == page.events)
  {
    StartsFit(t, room, after);
    FetchGood(t, user, room, after);
    JoinSlices(Log(t, room), after, after + |ExecuteFetch(t, user, room, after).response.events|);
  }

  /** The walk reads the rest of the log, every event once and in order. */
  lemma {:induction false} EventWalkComplete(t: Tables, user: UserId, room: RoomId, after: nat)
    requires LogOk(t) && RecordsOk(t) && Subscribed(t, room, user) && after <= |Log(t, room)| <= I64_MAX
    ensures EventWalk(t, user, room, after) == Log(t, room)[after..]
    decreases |Log(t, room)| - after
  {
    PageThenRest(t, user, room, after);
    var page := ExecuteFetch(t, user, room, after).response;
    if page.more {
      EventWalkComplete(t, user, room, after + |page.events|);
    }
  }

  lemma JoinSlices<T>(s: seq<T>, i: nat, j: nat)
    requires i <= j <= |s|
    ensures s[i..] == s[i..j] + s[j..] && s[|s|..] == []
  {}

  // ----- walking the room index -----

  lemma IndexRest(t: Tables, user: UserId, after: Option<RoomId>, last: RoomId)
    requires last in IndexedRooms(t, user, after)
    ensures IndexedRooms(t, user, Some(last)) == set room | room in IndexedRooms(t, user, after) && room > last
    ensures |IndexedRooms(t, user, Some(last))| < |IndexedRooms(t, user, after)|
  {
    Smaller(IndexedRooms(t, user, Some(last)), IndexedRooms(t, user, after), last);
  }

  lemma HeadsConcat(t: Tables, a: seq<RoomId>, b: seq<RoomId>)
    ensures IndexHeads(t, a + b) == IndexHeads(t, a) + IndexHeads(t, b)
  {}

  lemma FirstRoomsAre(t: Tables, user: UserId, after: Option<RoomId>, ids: seq<RoomId>)
    requires Lists(ids, IndexedRooms(t, user, after))
    ensures FirstRooms(t, user, after) == First(ids, 101)
  {
    OneListing(ids, IndexedRooms(t, user, after));
  }

  /** A page of the index is the first hundred rooms after the given one; `more` is exact. */
  lemma IndexPage(t: Tables, user: UserId, after: Option<RoomId>, ids: seq<RoomId>)
    requires Lists(ids, IndexedRooms(t, user, after))
    ensures ExecuteIndex(t, user, after).response == RoomIndex(IndexHeads(t, First(ids, PAGE_SIZE)), |ids| > PAGE_SIZE)
  {
    FirstRoomsAre(t, user, after, ids);
    PageOfMore(ids);
    ListedRooms(t, user, after, ids);
  }

  /** One row beyond a page tells whether there is more. */
  lemma PageOfMore(ids: seq<RoomId>)
    ensures First(First(ids, 101), PAGE_SIZE) == First(ids, PAGE_SIZE)
    ensures |First(ids, 101)| > PAGE_SIZE <==> |ids| > PAGE_SIZE
  {}

  lemma ListedRooms(t: Tables, user: UserId, after: Option<RoomId>, ids: seq<RoomId>)
    requires Lists(ids, IndexedRooms(t, user, after))
    ensures forall i :: 0 <= i < |First(ids, PAGE_SIZE)| ==> First(ids, PAGE_SIZE)[i] in t.rooms
  {
    forall i | 0 <= i < |First(ids, PAGE_SIZE)| ensures First(ids, PAGE_SIZE)[i] in t.rooms {
      assert ids[i] in ids;
    }
  }

  lemma IndexGoesOn(t: Tables, user: UserId, after: Option<RoomId>)
    ensures var page := ExecuteIndex(t, user, after).response;
            page.RoomIndex?
            && (page.more ==>
                  page.rooms != []
                  && |IndexedRooms(t, user, Some(page.rooms[|page.rooms| - 1].room))| < |IndexedRooms(t, user, after)|)
  {
    var ids := Sorted(IndexedRooms(t, user, after));
    SortedLists(IndexedRooms(t, user, after));
    IndexPage(t, user, after, ids);
    if |ids| > PAGE_SIZE {
      LastIn(ids, IndexedRooms(t, user, after), ids[..PAGE_SIZE]);
      IndexRest(t, user, after, ids[PAGE_SIZE - 1]);
    }
  }

  /** Ask for the index page after page, from the last room of each. */
  function IndexWalk(t: Tables, user: UserId, after: Option<RoomId>): seq<RoomHead>
    decreases |IndexedRooms(t, user, after)|
  {
    var page := ExecuteIndex(t, user, after).response;
    IndexGoesOn(t, user, after);
    if !page.more then page.rooms else page.rooms + IndexWalk(t, user, Some(page.rooms[|page.rooms| - 1].room))
  }

  /** The walk lists every room the user is subscribed to, once and in increasing order. */
  lemma {:induction false} IndexWalkComplete(t: Tables, user: UserId, after: Option<RoomId>, ids: seq<RoomId>)
    requires Lists(ids, IndexedRooms(t, user, after))
    ensures IndexWalk(t, user, after) == IndexHeads(t, ids)
    decreases |IndexedRooms(t, user, after)|
  {
    IndexPage(t, user, after, ids);
    IndexGoesOn(t, user, after);
    if |ids| > PAGE_SIZE {
      var page, last := ids[..PAGE_SIZE], ids[PAGE_SIZE - 1];
      LastIn(ids, IndexedRooms(t, user, after), page);
      IndexRest(t, user, after, last);
      var others := PageAndRest(ids, IndexedRooms(t, user, after), page, IndexedRooms(t, user, Some(last)));
      IndexWalkComplete(t, user, Some(last), others);
      HeadsConcat(t, page, others);
    }
  }

  // ----- walking the Welcome queue -----

  lemma WelcomeBound(name: string, event: Event, sequence: nat)
    requires Utf8Size(name) <= 400 && Accepted(event) && event.operation.welcome.Some? && sequence <= I64_MAX
    ensures WelcomeSize(WelcomeDelivery(name, 0, event.id, event.operation.room, sequence, event.sender,
                                        event.operation.welcome.value)) <= MAX_PAYLOAD - 96
  {
    VarintSizeOfWord(Utf8Size(name));
    VarintSizeOfWord(sequence);
    BlobBound(|event.operation.welcome.value.body.bytes|);
  }

  ghost predicate WelcomesFit(rows: seq<WelcomeRow>) {
    forall i :: 0 <= i < |rows| ==> WelcomeSize(rows[i].record) <= MAX_PAYLOAD - 96
  }

  lemma {:induction false} QueueFits(rooms: map<RoomId, Room>, events: seq<EventRow>)
    requires forall room :: room in rooms ==> Utf8Size(rooms[room].name) <= 400
    requires forall i :: 0 <= i < |events| ==>
               Accepted(events[i].event) && events[i].room == events[i].event.operation.room
               && events[i].sequence <= I64_MAX
    ensures WelcomesFit(WelcomeRowsOf(rooms, events))
  {
    if events != [] {
      QueueFits(rooms, events[..|events| - 1]);
      var last := events[|events| - 1];
      if last.event.operation.welcome.Some? {
        WelcomeBound(NameOf(rooms, last.room), last.event, last.sequence);
      }
    }
  }

  lemma QueueOk(t: Tables)
    requires LogOk(t) && WelcomesOk(t) && RecordsOk(t)
    ensures WelcomesFit(t.welcomes) && Ascending(t.welcomes)
  {
    forall i | 0 <= i < |t.events|
      ensures t.events[i].room == t.events[i].event.operation.room && t.events[i].sequence <= I64_MAX
    {
      assert RowOk(t, i) && Accepted(t.events[i].event);
    }
    QueueFits(t.rooms, t.events);
    CursorsCount(t.rooms, t.events);
  }

  lemma {:induction false} LaterSame(rows: seq<WelcomeRow>, user: UserId, a: nat, b: nat)
    requires forall i :: 0 <= i < |rows| ==> rows[i].cursor > a && rows[i].cursor > b
    ensures WelcomesAfter(rows, user, a) == WelcomesAfter(rows, user, b)
  {
    if rows != [] { LaterSame(rows[1..], user, a, b); }
  }

  /** Asking again from the last cursor of a page gives exactly the rest. */
  lemma {:induction false} QueueCut(rows: seq<WelcomeRow>, user: UserId, after: nat, n: nat)
    requires Ascending(rows) && 0 < n <= |WelcomesAfter(rows, user, after)|
    ensures var all := WelcomesAfter(rows, user, after);
            WelcomesAfter(rows, user, all[n - 1].cursor) == all[n..]
  {
    WelcomesAfterExact(rows, user, after);
    var all := WelcomesAfter(rows, user, after);
    assert Ascending(rows[1..]);
    if rows[0].recipient == user && rows[0].cursor > after {
      var rest := WelcomesAfter(rows[1..], user, after);
      assert all == [rows[0]] + rest;
      if n == 1 {
        LaterSame(rows[1..], user, rows[0].cursor, after);
      } else {
        QueueCut(rows[1..], user, after, n - 1);
        assert all[n..] == rest[n - 1..] && all[n - 1] == rest[n - 2];
      }
    } else {
      QueueCut(rows[1..], user, after, n);
    }
  }

  lemma QueuePage(all: seq<WelcomeRow>)
    requires WelcomesFit(all)
    ensures var rows := First(all, 101);
            var taken := Taken(WelcomeRowSizes(rows), 0, 0);
            taken <= |all| && rows[..taken] == all[..taken] && (taken < |rows| <==> taken < |all|)
            && (all != [] ==> taken > 0)
  {
    var rows := First(all, 101);
    var taken := Taken(WelcomeRowSizes(rows), 0, 0);
    TakenLimits(WelcomeRowSizes(rows), 0, 0);
    FirstPage(all, taken);
  }

  lemma FetchedWelcomes(t: Tables, user: UserId, after: nat)
    requires LogOk(t) && WelcomesOk(t) && RecordsOk(t) && after <= I64_MAX
    ensures var page := ExecuteWelcomes(t, user, after).response;
            var all := WelcomesAfter(t.welcomes, user, after);
            && page.Welcomes? && |page.welcomes| <= |all| && page.welcomes == DeliveriesOf(all[..|page.welcomes|])
            && (page.more <==> |page.welcomes| < |all|)
            && (all != [] ==> page.welcomes != [])
  {
    QueueOk(t);
    var all := WelcomesAfter(t.welcomes, user, after);
    WelcomesAfterExact(t.welcomes, user, after);
    forall i | 0 <= i < |all| ensures WelcomeSize(all[i].record) <= MAX_PAYLOAD - 96 {
      assert all[i] in t.welcomes;
    }
    QueuePage(all);
  }

  lemma QueueRest(t: Tables, user: UserId, after: nat, n: nat)
    requires LogOk(t) && WelcomesOk(t) && RecordsOk(t) && |t.welcomes| <= I64_MAX
    requires 0 < n <= |WelcomesAfter(t.welcomes, user, after)|
    ensures var all := WelcomesAfter(t.welcomes, user, after);
            WelcomesAfter(t.welcomes, user, all[n - 1].cursor) == all[n..] && all[n - 1].cursor <= I64_MAX
  {
    QueueOk(t);
    QueueCut(t.welcomes, user, after, n);
    WelcomesAfterExact(t.welcomes, user, after);
    CursorsCount(t.rooms, t.events);
    assert WelcomesAfter(t.welcomes, user, after)[n - 1] in t.welcomes;
  }

  // ----- which Welcome pages can be sent -----

  /** The relay can send the response: with its envelope it fits one message. */
  predicate PageFits(response: Response) { 17 + ResponseSize(response) <= MAX_PAYLOAD }

  /** What the cursors add to the sizes that the page was cut by. */
  function CursorBytes(rows: seq<WelcomeRow>): nat {
    if rows == [] then 0 else VarintSize(rows[0].cursor) - 1 + CursorBytes(rows[1..])
  }

  ghost predicate Uncounted(rows: seq<WelcomeRow>) { forall i :: 0 <= i < |rows| ==> rows[i].record.cursor == 0 }

  lemma {:induction false} QueueUncounted(rooms: map<RoomId, Room>, events: seq<EventRow>)
    ensures Uncounted(WelcomeRowsOf(rooms, events))
  {
    if events != [] { QueueUncounted(rooms, events[..|events| - 1]); }
  }

  /** The bytes of the delivered records are the counted ones and those of the cursors. */
  lemma {:induction false} DeliveredSize(rows: seq<WelcomeRow>)
    requires Uncounted(rows)
    ensures WelcomesSize(DeliveriesOf(rows)) == Total(WelcomeRowSizes(rows)) + CursorBytes(rows)
  {
    if rows != [] {
      DeliveredSize(rows[1..]);
      assert DeliveriesOf(rows)[1..] == DeliveriesOf(rows[1..]);
      assert WelcomeRowSizes(rows)[1..] == WelcomeRowSizes(rows[1..]);
    }
  }

  /** The exact size of a page: the margin of 96 bytes has to pay for the envelope, the cursor
      the page was asked with, and the cursors of its records. */
  lemma WelcomePageSize(after: nat, rows: seq<WelcomeRow>, more: bool)
    requires Uncounted(rows) && |rows| <= PAGE_SIZE
    ensures 17 + ResponseSize(Welcomes(after, DeliveriesOf(rows), more))
            == 20 + VarintSize(after) + Total(WelcomeRowSizes(rows)) + CursorBytes(rows)
  {
    DeliveredSize(rows);
  }

  /** Cursors below 16384 take one more byte each from 128 on. */
  lemma {:induction false} CursorBytesBound(rows: seq<WelcomeRow>, after: nat, last: nat)
    requires Ascending(rows) && after <= last < 0x4000
    requires forall i :: 0 <= i < |rows| ==> after < rows[i].cursor <= last
    ensures CursorBytes(rows) <= if last <= 127 then 0 else if after <= 127 then last - 127 else last - after
  {
    if rows != [] {
      var c := rows[0].cursor;
      assert Ascending(rows[1..]);
      assert forall i :: 1 <= i < |rows| ==> rows[0].cursor < rows[i].cursor;
      CursorBytesBound(rows[1..], c, last);
      assert VarintSize(c) == if c < 0x80 then 1 else 2;
    }
  }

  /** The rows of a page, what was counted for them, and where their cursors lie. */
  lemma WelcomePageRows(t: Tables, user: UserId, after: nat) returns (rows: seq<WelcomeRow>)
    requires LogOk(t) && WelcomesOk(t) && RecordsOk(t) && after <= I64_MAX
    ensures var page := ExecuteWelcomes(t, user, after).response;
            page.Welcomes? && page.afterCursor == after && page.welcomes == DeliveriesOf(rows)
    ensures Uncounted(rows) && |rows| <= PAGE_SIZE && Ascending(rows)
    ensures Total(WelcomeRowSizes(rows)) <= MAX_PAYLOAD - 96
    ensures forall i :: 0 <= i < |rows| ==> after < rows[i].cursor <= |t.welcomes|
  {
    var all := WelcomesAfter(t.welcomes, user, after);
    var some := First(all, 101);
    var taken := Taken(WelcomeRowSizes(some), 0, 0);
    rows := some[..taken];
    QueueOk(t);
    WelcomesAfterExact(t.welcomes, user, after);
    QueueUncounted(t.rooms, t.events);
    CursorsCount(t.rooms, t.events);
    TakenLimits(WelcomeRowSizes(some), 0, 0);
    TakenTotal(WelcomeRowSizes(some), 0, 0);
    assert WelcomeRowSizes(rows) == WelcomeRowSizes(some)[..taken];
    QueueStart(t, all, after, rows);
  }

  lemma QueueStart(t: Tables, all: seq<WelcomeRow>, after: nat, rows: seq<WelcomeRow>)
    requires rows <= all && Uncounted(t.welcomes)
    requires forall i :: 0 <= i < |all| ==> all[i] in t.welcomes && after < all[i].cursor <= |t.welcomes|
    ensures Uncounted(rows) && forall i :: 0 <= i < |rows| ==> after < rows[i].cursor <= |t.welcomes|
  {
    forall i | 0 <= i < |rows| ensures rows[i].record.cursor == 0 && after < rows[i].cursor <= |t.welcomes| {
      assert rows[i] == all[i] && all[i] in t.welcomes;
    }
  }

  /** As many Welcomes as a relay can have published and still send every page: with one more,
      76 cursors of two bytes can stand in one page. */
  const SAFE_WELCOMES: nat := 202

  lemma WelcomePageFits(t: Tables, user: UserId, after: nat)
    requires LogOk(t) && WelcomesOk(t) && RecordsOk(t) && after <= I64_MAX && |t.welcomes| <= SAFE_WELCOMES
    ensures PageFits(ExecuteWelcomes(t, user, after).response)
  {
    var rows := WelcomePageRows(t, user, after);
    WelcomePageSize(after, rows, ExecuteWelcomes(t, user, after).response.more);
    VarintSizeOfWord(after);
    if rows != [] {
      assert after < rows[0].cursor;
      CursorBytesBound(rows, after, |t.welcomes|);
      assert VarintSize(after) == if after < 0x80 then 1 else 2;
    }
  }

  /** Ask for the queue page after page; a page that does not fit is never sent, and the walk
      ends there with nothing. */
  function QueueWalk(t: Tables, user: UserId, after: nat): Option<seq<WelcomeDelivery>>
    requires LogOk(t) && WelcomesOk(t) && RecordsOk(t) && |t.welcomes| <= I64_MAX && after <= I64_MAX
    decreases |WelcomesAfter(t.welcomes, user, after)|
  {
    var page := ExecuteWelcomes(t, user, after).response;
    FetchedWelcomes(t, user, after);
    if !PageFits(page) then None
    else if !page.more then Some(page.welcomes)
    else
      QueueRest(t, user, after, |page.welcomes|);
      match QueueWalk(t, user, page.welcomes[|page.welcomes| - 1].cursor)
      case None => None
      case Some(rest) => Some(page.welcomes + rest)
  }

  /** A walk that gets every page has read the user's whole queue, once and in order. */
  lemma {:induction false} QueueWalkSound(t: Tables, user: UserId, after: nat)
    requires LogOk(t) && WelcomesOk(t) && RecordsOk(t) && |t.welcomes| <= I64_MAX && after <= I64_MAX
    ensures QueueWalk(t, user, after).Some? ==>
              QueueWalk(t, user, after).value == DeliveriesOf(WelcomesAfter(t.welcomes, user, after))
    decreases |WelcomesAfter(t.welcomes, user, after)|
  {
    FetchedWelcomes(t, user, after);
    var page := ExecuteWelcomes(t, user, after).response;
    var all := WelcomesAfter(t.welcomes, user, after);
    if page.more {
      var n := |page.welcomes|;
      QueueRest(t, user, after, n);
      QueueWalkSound(t, user, all[n - 1].cursor);
      DeliveriesConcat(all[..n], all[n..]);
      assert all == all[..n] + all[n..];
    } else {
      assert all[..|all|] == all;
    }
  }

  lemma {:induction false} QueueWalkFits(t: Tables, user: UserId, after: nat)
    requires LogOk(t) && WelcomesOk(t) && RecordsOk(t) && |t.welcomes| <= SAFE_WELCOMES && after <= I64_MAX
    ensures QueueWalk(t, user, after).Some?
    decreases |WelcomesAfter(t.welcomes, user, after)|
  {
    FetchedWelcomes(t, user, after);
    WelcomePageFits(t, user, after);
    var page := ExecuteWelcomes(t, user, after).response;
    if page.more {
      QueueRest(t, user, after, |page.welcomes|);
      QueueWalkFits(t, user, page.welcomes[|page.welcomes| - 1].cursor);
    }
  }

  /** With at most 202 Welcomes published, the walk reads the user's whole queue after a cursor. */
  lemma QueueWalkComplete(t: Tables, user: UserId, after: nat)
    requires LogOk(t) && WelcomesOk(t) && RecordsOk(t) && |t.welcomes| <= SAFE_WELCOMES && after <= I64_MAX
    ensures QueueWalk(t, user, after) == Some(DeliveriesOf(WelcomesAfter(t.welcomes, user, after)))
  {
    QueueWalkFits(t, user, after);
    QueueWalkSound(t, user, after);
  }

  lemma DeliveriesConcat(a: seq<WelcomeRow>, b: seq<WelcomeRow>)
    ensures DeliveriesOf(a + b) == DeliveriesOf(a) + DeliveriesOf(b)
  {}

  /** Complete walks, after every run of requests off the wire; of the Welcome queue, as long as
      every page of it can be sent. */
  lemma WalksComplete(limits: Limits, calls: seq<Call>, user: UserId, room: RoomId, ids: seq<RoomId>)
    requires forall i :: 0 <= i < |calls| ==> Words(calls[i].request)
    ensures var t := Run(EMPTY, limits, calls);
            && LogOk(t) && WelcomesOk(t) && RecordsOk(t)
            && (Subscribed(t, room, user) && |Log(t, room)| <= I64_MAX ==> EventWalk(t, user, room, 0) == Log(t, room))
            && (Lists(ids, IndexedRooms(t, user, None)) ==> IndexWalk(t, user, None) == IndexHeads(t, ids))
            && (|t.welcomes| <= SAFE_WELCOMES ==>
                  QueueWalk(t, user, 0) == Some(DeliveriesOf(WelcomesAfter(t.welcomes, user, 0))))
  {
    RecordsInvariant(EMPTY, limits, calls);
    var t := Run(EMPTY, limits, calls);
    if Lists(ids, IndexedRooms(t, user, None)) { IndexWalkComplete(t, user, None, ids); }
    if Subscribed(t, room, user) && |Log(t, room)| <= I64_MAX { EventWalkComplete(t, user, room, 0); }
    if |t.welcomes| <= SAFE_WELCOMES { QueueWalkComplete(t, user, 0); }
  }
}
