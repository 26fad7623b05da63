/** The outbox is sent page by page in row order (crates/grotto-client/src/store.rs). */
module OutboxPages {
  import opened Records
  import opened Sizes
  import opened SortedSets
  import opened ClientSpec
  import opened ClientTheorems

  function RowidsAfter(outbox: map<MessageId, OutboxRow>, after: nat): set<nat> {
    set id | id in outbox && outbox[id].rowid > after :: outbox[id].rowid
  }

  /** Row identifiers are positive and never shared. */
  ghost predicate RowidsUnique(outbox: map<MessageId, OutboxRow>) {
    && (forall id :: id in outbox ==> outbox[id].rowid > 0)
    && (forall a, b :: a in outbox && b in outbox && outbox[a].rowid == outbox[b].rowid ==> a == b)
  }

  predicate IsRow(outbox: map<MessageId, OutboxRow>, id: MessageId, rowid: nat) {
    id in outbox && outbox[id].rowid == rowid
  }

  /** The encoded message: an envelope of 17 bytes and the request. */
  function MessageSize(request: Request): nat { 17 + RequestSize(request) }

  ghost function SizeAt(outbox: map<MessageId, OutboxRow>, rowid: nat): nat {
    if exists id :: IsRow(outbox, id, rowid) then
      var id :| IsRow(outbox, id, rowid);
      MessageSize(outbox[id].request)
    else 0
  }

  ghost function SizesAt(outbox: map<MessageId, OutboxRow>, rowids: seq<nat>): (sizes: seq<nat>)
    ensures |sizes| == |rowids|
  {
    seq(|rowids|, i requires 0 <= i < |rowids| => SizeAt(outbox, rowids[i]))
  }

  lemma SizeIs(outbox: map<MessageId, OutboxRow>, rowids: seq<nat>, i: nat, id: MessageId)
    requires RowidsUnique(outbox) && i < |rowids| && IsRow(outbox, id, rowids[i])
    ensures SizesAt(outbox, rowids)[i] == MessageSize(outbox[id].request)
  {}

  /** How many rows one page takes: always one, and no more than fit 768 KiB together. */
  function Batch(sizes: seq<nat>, count: nat, bytes: nat): (n: nat)
    ensures n <= |sizes|
    ensures sizes != [] && count == 0 ==> n > 0
  {
    if sizes == [] || (count > 0 && bytes + sizes[0] > MAX_PAYLOAD) then 0
    else 1 + Batch(sizes[1..], count + 1, bytes + sizes[0])
  }

  function FirstRowids(outbox: map<MessageId, OutboxRow>, after: nat): (rowids: seq<nat>)
    ensures |rowids| <= 100
  {
    var all := Sorted(RowidsAfter(outbox, after));
    if |all| <= 100 then all else all[..100]
  }

  lemma FirstRowidsAre(outbox: map<MessageId, OutboxRow>, after: nat, ids: seq<nat>)
    requires Lists(ids, RowidsAfter(outbox, after))
    ensures FirstRowids(outbox, after) == if |ids| <= 100 then ids else ids[..100]
  {
    OneListing(ids, RowidsAfter(outbox, after));
  }

  ghost function OutboxPage(outbox: map<MessageId, OutboxRow>, after: nat): (page: seq<nat>) {
    var rowids := FirstRowids(outbox, after);
    rowids[..Batch(SizesAt(outbox, rowids), 0, 0)]
  }

  /** A row of the outbox, as a page lists it. */
  datatype Entry = Entry(rowid: nat, id: MessageId, request: Request)

  predicate Listed(outbox: map<MessageId, OutboxRow>, entry: Entry) {
    IsRow(outbox, entry.id, entry.rowid) && entry.request == outbox[entry.id].request
  }

  ghost predicate HasRow(outbox: map<MessageId, OutboxRow>, rowid: nat) { exists id :: IsRow(outbox, id, rowid) }

  /** The page so far, as a prefix of the batch. */
  ghost predicate Batched(sizes: seq<nat>, n: nat, bytes: nat, full: bool) {
    n <= |sizes| && Batch(sizes, 0, 0) == n + (if full then 0 else Batch(sizes[n..], n, bytes))
  }

  lemma BatchStep(sizes: seq<nat>, i: nat, bytes: nat)
    requires i < |sizes| && Batched(sizes, i, bytes, false)
    ensures if i > 0 && bytes + sizes[i] > MAX_PAYLOAD then Batched(sizes, i, bytes, true)
            else Batched(sizes, i + 1, bytes + sizes[i], false)
  {
    assert sizes[i..][1..] == sizes[i + 1..];
  }

  /** The page so far lists the first rows. */
  ghost predicate Collected(outbox: map<MessageId, OutboxRow>, rowids: seq<nat>, page: seq<Entry>) {
    && |page| <= |rowids|
    && forall i :: 0 <= i < |page| ==> Listed(outbox, page[i]) && page[i].rowid == rowids[i]
  }

  lemma CollectMore(outbox: map<MessageId, OutboxRow>, rowids: seq<nat>, page: seq<Entry>, entry: Entry)
    requires Collected(outbox, rowids, page) && |page| < |rowids|
    requires Listed(outbox, entry) && entry.rowid == rowids[|page|]
    ensures Collected(outbox, rowids, page + [entry])
  {}

  lemma CollectSize(outbox: map<MessageId, OutboxRow>, rowids: seq<nat>, i: nat, id: MessageId, bytes: nat)
    requires RowidsUnique(outbox) && i < |rowids| && IsRow(outbox, id, rowids[i])
    requires Batched(SizesAt(outbox, rowids), i, bytes, false)
    ensures var size := MessageSize(outbox[id].request);
            if i > 0 && bytes + size > MAX_PAYLOAD then Batched(SizesAt(outbox, rowids), i, bytes, true)
            else Batched(SizesAt(outbox, rowids), i + 1, bytes + size, false)
  {
    SizeIs(outbox, rowids, i, id);
    BatchStep(SizesAt(outbox, rowids), i, bytes);
  }

  /** Read rows until the page is full. */
  method CollectRows(outbox: map<MessageId, OutboxRow>, rowids: seq<nat>) returns (page: seq<Entry>)
    requires forall i :: 0 <= i < |rowids| ==> HasRow(outbox, rowids[i])
    ensures |page| <= |rowids|
    ensures forall i :: 0 <= i < |page| ==> Listed(outbox, page[i]) && page[i].rowid == rowids[i]
    ensures RowidsUnique(outbox) ==> |page| == Batch(SizesAt(outbox, rowids), 0, 0)
  {
    page := [];
    var bytes: nat := 0;
    var full := false;
    while |page| < |rowids| && !full
      invariant Collected(outbox, rowids, page)
      invariant RowidsUnique(outbox) ==> Batched(SizesAt(outbox, rowids), |page|, bytes, full)
      decreases |rowids| - |page|, !full
    {
      var i := |page|;
      assert HasRow(outbox, rowids[i]);
      var id :| IsRow(outbox, id, rowids[i]);
      var size := MessageSize(outbox[id].request);
      if RowidsUnique(outbox) {
        CollectSize(outbox, rowids, i, id, bytes);
      }
      if page != [] && bytes + size > MAX_PAYLOAD {
        full := true;
      } else {
        bytes := bytes + size;
        var entry := Entry(rowids[i], id, outbox[id].request);
        CollectMore(outbox, rowids, page, entry);
        page := page + [entry];
      }
    }
  }

  lemma RowidsThere(outbox: map<MessageId, OutboxRow>, after: nat, ids: seq<nat>)
    requires Lists(ids, RowidsAfter(outbox, after))
    ensures forall i :: 0 <= i < |ids| ==> HasRow(outbox, ids[i]) && ids[i] > after
  {
    forall i | 0 <= i < |ids| ensures HasRow(outbox, ids[i]) && ids[i] > after {
      assert ids[i] in RowidsAfter(outbox, after);
      var id :| id in outbox && outbox[id].rowid > after && outbox[id].rowid == ids[i];
      assert IsRow(outbox, id, ids[i]);
    }
  }

  lemma FirstRowsThere(outbox: map<MessageId, OutboxRow>, after: nat)
    ensures var rowids := FirstRowids(outbox, after);
            Ascends(rowids) && forall i :: 0 <= i < |rowids| ==> HasRow(outbox, rowids[i]) && rowids[i] > after
  {
    var ids := Sorted(RowidsAfter(outbox, after));
    SortedLists(RowidsAfter(outbox, after));
    FirstRowidsAre(outbox, after, ids);
    RowidsThere(outbox, after, ids);
  }

  /** The next page of the outbox in row order: at least one row, at most 100, and no more
      than fit 768 KiB together. */
  method NextPage(outbox: map<MessageId, OutboxRow>, after: nat) returns (page: seq<Entry>)
    ensures forall i :: 0 <= i < |page| ==> Listed(outbox, page[i]) && page[i].rowid > after
    ensures AscendsBy(page)
    ensures RowidsUnique(outbox) ==>
              |page| == |OutboxPage(outbox, after)|
              && forall i :: 0 <= i < |page| ==> page[i].rowid == OutboxPage(outbox, after)[i]
  {
    FirstRowsThere(outbox, after);
    page := CollectRows(outbox, FirstRowids(outbox, after));
  }

  lemma OutboxRest(outbox: map<MessageId, OutboxRow>, after: nat, last: nat)
    requires last in RowidsAfter(outbox, after)
    ensures RowidsAfter(outbox, last) == set x | x in RowidsAfter(outbox, after) && x > last
    ensures |RowidsAfter(outbox, last)| < |RowidsAfter(outbox, after)|
  {
    forall x | x in RowidsAfter(outbox, last) ensures x in RowidsAfter(outbox, after) && x > last {
      var id :| id in outbox && outbox[id].rowid == x;
    }
    Smaller(RowidsAfter(outbox, last), RowidsAfter(outbox, after), last);
  }

  /** A page is a non-empty start of the rows that are left. */
  lemma PageIs(outbox: map<MessageId, OutboxRow>, after: nat, ids: seq<nat>)
    requires Lists(ids, RowidsAfter(outbox, after))
    ensures OutboxPage(outbox, after) <= ids && (ids != [] ==> OutboxPage(outbox, after) != [])
  {
    FirstRowidsAre(outbox, after, ids);
  }

  ghost predicate Has(page: seq<Entry>, id: MessageId) { exists i :: 0 <= i < |page| && page[i].id == id }

  ghost predicate AscendsBy(page: seq<Entry>) { forall i, j :: 0 <= i < j < |page| ==> page[i].rowid < page[j].rowid }

  /** Nothing between the start and the end of a page is left out, and only the end is empty. */
  lemma PageCovers(outbox: map<MessageId, OutboxRow>, after: nat, page: seq<Entry>, id: MessageId)
    requires RowidsUnique(outbox) && id in outbox && outbox[id].rowid > after
    requires forall i :: 0 <= i < |page| ==> Listed(outbox, page[i])
    requires |page| == |OutboxPage(outbox, after)|
    requires forall i :: 0 <= i < |page| ==> page[i].rowid == OutboxPage(outbox, after)[i]
    ensures page != [] && (outbox[id].rowid <= page[|page| - 1].rowid ==> Has(page, id))
  {
    var rowid, ids := outbox[id].rowid, Sorted(RowidsAfter(outbox, after));
    SortedLists(RowidsAfter(outbox, after));
    PageIs(outbox, after, ids);
    assert rowid in RowidsAfter(outbox, after);
    var k :| 0 <= k < |ids| && ids[k] == rowid;
    if rowid <= page[|page| - 1].rowid {
      assert ids[|page| - 1] == page[|page| - 1].rowid;
      assert k < |page| && page[k].rowid == rowid;
    }
  }

  ghost predicate Covers(outbox: map<MessageId, OutboxRow>, after: nat, page: seq<Entry>) {
    forall id :: id in outbox && outbox[id].rowid > after ==>
      page != [] && (outbox[id].rowid <= page[|page| - 1].rowid ==> Has(page, id))
  }

  /** A page as a walk needs it. */
  method WaitingPage(outbox: map<MessageId, OutboxRow>, after: nat) returns (page: seq<Entry>)
    ensures AscendsBy(page) && forall i :: 0 <= i < |page| ==> Listed(outbox, page[i]) && page[i].rowid > after
    ensures RowidsUnique(outbox) ==> Covers(outbox, after, page)
  {
    page := NextPage(outbox, after);
    forall id | RowidsUnique(outbox) && id in outbox && outbox[id].rowid > after
      ensures page != [] && (outbox[id].rowid <= page[|page| - 1].rowid ==> Has(page, id))
    {
      PageCovers(outbox, after, page, id);
    }
  }

  /** Rows of the page may be gone; every other row is as it was. */
  ghost predicate OnlyDrops(outbox: map<MessageId, OutboxRow>, outbox': map<MessageId, OutboxRow>, page: seq<Entry>) {
    && (forall id :: id in outbox' ==> id in outbox && outbox'[id] == outbox[id])
    && (forall id :: id in outbox && !Has(page, id) ==> id in outbox')
  }

  /** How far a walk has come while answers empty the outbox: what is sent stood in the first
      outbox, in row order and up to `after`; what is left is as it was; nothing is skipped. */
  ghost predicate WalkedTo(
    first: map<MessageId, OutboxRow>, outbox: map<MessageId, OutboxRow>, sent: seq<Entry>, after: nat)
  {
    && AscendsBy(sent) && (forall i :: 0 <= i < |sent| ==> Listed(first, sent[i]) && sent[i].rowid <= after)
    && (forall id :: id in outbox ==> id in first && outbox[id] == first[id])
    && (forall id :: id in first && first[id].rowid > after ==> id in outbox)
    && (forall id :: id in first && first[id].rowid <= after ==> Has(sent, id))
  }

  lemma HasEither(sent: seq<Entry>, page: seq<Entry>, id: MessageId)
    requires Has(sent, id) || Has(page, id)
    ensures Has(sent + page, id)
  {
    if Has(sent, id) {
      var i :| 0 <= i < |sent| && sent[i].id == id;
      assert (sent + page)[i].id == id;
    } else {
      var i :| 0 <= i < |page| && page[i].id == id;
      assert (sent + page)[|sent| + i].id == id;
    }
  }

  lemma SentSoFar(first: map<MessageId, OutboxRow>, sent: seq<Entry>, after: nat, page: seq<Entry>)
    requires AscendsBy(sent) && AscendsBy(page) && page != []
    requires forall i :: 0 <= i < |sent| ==> Listed(first, sent[i]) && sent[i].rowid <= after
    requires forall i :: 0 <= i < |page| ==> Listed(first, page[i]) && page[i].rowid > after
    ensures AscendsBy(sent + page)
    ensures forall i :: 0 <= i < |sent + page| ==>
              Listed(first, (sent + page)[i]) && (sent + page)[i].rowid <= page[|page| - 1].rowid
  {}

  lemma WalkStep(first: map<MessageId, OutboxRow>, outbox: map<MessageId, OutboxRow>, sent: seq<Entry>, after: nat,
                 page: seq<Entry>, outbox': map<MessageId, OutboxRow>)
    requires RowidsUnique(first) && WalkedTo(first, outbox, sent, after) && page != [] && AscendsBy(page)
    requires forall i :: 0 <= i < |page| ==> Listed(outbox, page[i]) && page[i].rowid > after
    requires Covers(outbox, after, page) && OnlyDrops(outbox, outbox', page)
    ensures WalkedTo(first, outbox', sent + page, page[|page| - 1].rowid)
  {
    var last := page[|page| - 1].rowid;
    SentSoFar(first, sent, after, page);
    forall id | id in first && first[id].rowid <= last ensures Has(sent + page, id) {
      HasEither(sent, page, id);
    }
    forall id | id in first && first[id].rowid > last ensures id in outbox' {
      assert !Has(page, id);
    }
  }

  lemma WalkEnd(first: map<MessageId, OutboxRow>, outbox: map<MessageId, OutboxRow>, sent: seq<Entry>, after: nat)
    requires WalkedTo(first, outbox, sent, after) && Covers(outbox, after, [])
    ensures forall id :: id in first <==> Has(sent, id)
  {}

  /** Page after page, each from the last row of the one before, until a page is empty. */
  ghost function OutboxWalk(outbox: map<MessageId, OutboxRow>, after: nat): seq<nat>
    decreases |RowidsAfter(outbox, after)|
  {
    var page := OutboxPage(outbox, after);
    if page == [] then []
    else
      WalkGoesOn(outbox, after);
      page + OutboxWalk(outbox, page[|page| - 1])
  }

  lemma WalkGoesOn(outbox: map<MessageId, OutboxRow>, after: nat)
    requires OutboxPage(outbox, after) != []
    ensures var page := OutboxPage(outbox, after);
            |RowidsAfter(outbox, page[|page| - 1])| < |RowidsAfter(outbox, after)|
  {
    var page, ids := OutboxPage(outbox, after), Sorted(RowidsAfter(outbox, after));
    SortedLists(RowidsAfter(outbox, after));
    PageIs(outbox, after, ids);
    LastIn(ids, RowidsAfter(outbox, after), page);
    OutboxRest(outbox, after, page[|page| - 1]);
  }

  /** The walk visits every row after the start, once and in increasing order. */
  lemma {:induction false} OutboxWalkComplete(outbox: map<MessageId, OutboxRow>, after: nat, ids: seq<nat>)
    requires Lists(ids, RowidsAfter(outbox, after))
    ensures OutboxWalk(outbox, after) == ids
    decreases |RowidsAfter(outbox, after)|
  {
    var page := OutboxPage(outbox, after);
    PageIs(outbox, after, ids);
    if page != [] {
      var last := page[|page| - 1];
      LastIn(ids, RowidsAfter(outbox, after), page);
      OutboxRest(outbox, after, last);
      var others := PageAndRest(ids, RowidsAfter(outbox, after), page, RowidsAfter(outbox, last));
      OutboxWalkComplete(outbox, last, others);
      OutboxWalkStep(outbox, after);
    }
  }

  lemma OutboxWalkStep(outbox: map<MessageId, OutboxRow>, after: nat)
    ensures var page := OutboxPage(outbox, after);
            OutboxWalk(outbox, after) == if page == [] then [] else page + OutboxWalk(outbox, page[|page| - 1])
  {}

  // ----- rows keep their identifiers apart, and the order in which they were issued -----

  /** A row that is new comes after every other row that waits with it. */
  ghost predicate NewestLast(outbox: map<MessageId, OutboxRow>, outbox': map<MessageId, OutboxRow>) {
    forall id, other :: id in outbox' && other in outbox' && id != other ==>
      (id in outbox && outbox'[id] == outbox[id]) || outbox'[other].rowid < outbox'[id].rowid
  }

  function Saved(outbox: map<MessageId, OutboxRow>, id: MessageId, request: Request): map<MessageId, OutboxRow> {
    if id in outbox then outbox else outbox[id := OutboxRow(NextRowid(outbox), request)]
  }

  lemma LastRowUnique(outbox: map<MessageId, OutboxRow>, id: MessageId, row: OutboxRow)
    requires RowidsUnique(outbox) && id !in outbox && row.rowid > 0
    requires forall other :: other in outbox ==> outbox[other].rowid < row.rowid
    ensures RowidsUnique(outbox[id := row]) && NewestLast(outbox, outbox[id := row])
  {}

  lemma SavedUnique(outbox: map<MessageId, OutboxRow>, id: MessageId, request: Request)
    requires RowidsUnique(outbox)
    ensures RowidsUnique(Saved(outbox, id, request)) && NewestLast(outbox, Saved(outbox, id, request))
  {
    if id !in outbox {
      LastRowUnique(outbox, id, OutboxRow(NextRowid(outbox), request));
    }
  }

  lemma SaveUnique(db: Database, id: MessageId, request: Request, db': Database)
    requires RowidsUnique(db.outbox) && SaveOutbox(db, id, request) == Some(db')
    ensures RowidsUnique(db'.outbox) && NewestLast(db.outbox, db'.outbox)
  {
    SavedUnique(db.outbox, id, request);
  }

  lemma ConflictOutbox(db: Database, id: MessageId, operation: Append, db': Database)
    requires CompleteConflict(db, id, operation) == Some(db')
    ensures db'.outbox == db.outbox - {id}
  {}

  lemma RefusalOutbox(db: Database, id: MessageId, request: Request, db': Database)
    requires CompleteRefusal(db, id, request) == Some(db')
    ensures db'.outbox == db.outbox - {id}
  {}

  /** An answer removes its own row at most. */
  lemma AnswerOutbox(db: Database, user: UserId, id: MessageId, request: Request, response: Response, db': Database)
    requires Complete(db, user, id, request, response) == Some(db')
    ensures db'.outbox == db.outbox || db'.outbox == db.outbox - {id}
  {
    if request.AppendRoomOperation? && response.HeadConflict? {
      ConflictOutbox(db, id, request.operation, db');
    } else if response.Rejected? && !IsTransient(response) {
      RefusalOutbox(db, id, request, db');
    }
  }

  lemma SendSaves(db: Database, user: UserId, room: RoomId, intent: Intent, id: MessageId, bytes: Ciphertext)
    returns (request: Request)
    requires BuildSend(db, user, room, intent, id, bytes).Some?
    ensures BuildSend(db, user, room, intent, id, bytes).value.outbox == Saved(db.outbox, id, request)
  {
    request := BuildSend(db, user, room, intent, id, bytes).value.outbox[id].request;
  }

  lemma AddSaves(db: Database, user: UserId, room: RoomId, intent: Intent, id: MessageId, bytes: Ciphertext)
    returns (request: Request)
    requires BuildAdd(db, user, room, intent, id, bytes).Some?
    ensures BuildAdd(db, user, room, intent, id, bytes).value.outbox == Saved(db.outbox, id, request)
  {
    request := BuildAdd(db, user, room, intent, id, bytes).value.outbox[id].request;
  }

  lemma BuildUnique(db: Database, user: UserId, room: RoomId, id: MessageId, bytes: Ciphertext, db': Database)
    requires RowidsUnique(db.outbox) && room in db.intents && BuildAttempt(db, user, room, id, bytes) == Some(db')
    ensures RowidsUnique(db'.outbox) && NewestLast(db.outbox, db'.outbox)
  {
    var intent := db.intents[room];
    if intent.package.Some? {
      var request := AddSaves(db, user, room, intent, id, bytes);
      SavedUnique(db.outbox, id, request);
    } else if intent.target.None? {
      var request := SendSaves(db, user, room, intent, id, bytes);
      SavedUnique(db.outbox, id, request);
    } else {
      var saved := SaveOutbox(db, id, ReserveKeyPackage(intent.target.value)).value;
      SaveUnique(db, id, ReserveKeyPackage(intent.target.value), saved);
    }
  }

  lemma FinishUnique(db: Database, user: UserId, event: Event, state: RowState, db': Database)
    requires RowidsUnique(db.outbox) && FinishEvent(db, user, event, state) == Some(db')
    ensures RowidsUnique(db'.outbox) && NewestLast(db.outbox, db'.outbox)
  {
    SaveUnique(Advance(db, event, state), AcknowledgementId(user, [event.id], []), Acknowledge([event.id], []), db');
  }

  lemma OpenedOutbox(db: Database, user: UserId, event: Event, db1: Database, plaintext: Option<seq<byte>>)
    requires ProcessBound(db, user, event) == Opened(db1, plaintext)
    ensures Remember(db1, event, plaintext).outbox == db.outbox
  {}

  lemma ClaimedUnique(outbox: map<MessageId, OutboxRow>, id: MessageId)
    requires RowidsUnique(outbox)
    ensures RowidsUnique(outbox - {id})
  {}

  lemma DroppedFirst(outbox: map<MessageId, OutboxRow>, id: MessageId, outbox': map<MessageId, OutboxRow>)
    requires NewestLast(outbox - {id}, outbox')
    ensures NewestLast(outbox, outbox')
  {}

  lemma ApplyUnique(db: Database, user: UserId, event: Event, db': Database)
    requires RowidsUnique(db.outbox)
    requires event.sender == user ==> ApplyOwn(db, user, event) == Some(db')
    requires event.sender != user ==> ApplyOther(db, user, event) == Some(db')
    ensures RowidsUnique(db'.outbox) && NewestLast(db.outbox, db'.outbox)
  {
    if event.sender == user {
      var db0 := if event.operation.contentType == Commit then ApplyAcceptedCommit(db, event.operation.room).value
                 else db;
      ClaimedUnique(db.outbox, event.id);
      FinishUnique(Claim(db0, event), user, event, Applied, db');
      DroppedFirst(db.outbox, event.id, db'.outbox);
    } else {
      ApplyOtherUnique(db, user, event, db');
    }
  }

  lemma ApplyOtherUnique(db: Database, user: UserId, event: Event, db': Database)
    requires RowidsUnique(db.outbox) && ApplyOther(db, user, event) == Some(db')
    ensures RowidsUnique(db'.outbox) && NewestLast(db.outbox, db'.outbox)
  {
    match ProcessBound(db, user, event) {
      case Failure =>
      case FaultBlocked =>
      case FaultRejected => FinishUnique(db, user, event, Refused, db');
      case Opened(db1, plaintext) =>
        OpenedOutbox(db, user, event, db1, plaintext);
        FinishUnique(Remember(db1, event, plaintext), user, event, Applied, db');
    }
  }

  lemma JoinUnique(
    db: Database, user: UserId, cursor: nat, welcome: WelcomeDelivery, keyAvailable: bool, db': Database)
    requires RowidsUnique(db.outbox) && cursor in db.welcomes
    requires JoinRoom(db, user, cursor, welcome, keyAvailable) == Some(db')
    ensures RowidsUnique(db'.outbox) && NewestLast(db.outbox, db'.outbox)
  {
    var group := welcome.attachment.body.content.group;
    SaveUnique(MarkWelcome(EnterRoom(db, welcome.room, group, welcome.sequence), cursor, Applied),
               AcknowledgementId(user, [], [cursor]), Acknowledge([], [cursor]), db');
  }

  lemma ProcessUnique(db: Database, user: UserId, cursor: nat, keyAvailable: bool)
    requires RowidsUnique(db.outbox) && cursor in db.welcomes
    ensures var outbox := ProcessWelcome(db, user, cursor, keyAvailable).outbox;
            RowidsUnique(outbox) && NewestLast(db.outbox, outbox)
  {
    var db' := ProcessWelcome(db, user, cursor, keyAvailable);
    ProcessCases(db, user, cursor, keyAvailable);
    if db' != MarkWelcome(db, cursor, Stuck) {
      JoinUnique(db, user, cursor, db.welcomes[cursor].record, keyAvailable, db');
    }
  }

  /** No step of a client makes two waiting requests share a row identifier, and each puts a
      new request last. */
  lemma StepUnique(db: Database, user: UserId, action: Action, db': Database)
    requires RowidsUnique(db.outbox) && Next(db, user, action) == Some(db')
    ensures RowidsUnique(db'.outbox) && NewestLast(db.outbox, db'.outbox)
  {
    match action {
      case Issue(id, request) => SaveUnique(db, id, request, db');
      case Build(room, id, bytes) => BuildUnique(db, user, room, id, bytes, db');
      case Answer(id, response) => AnswerOutbox(db, user, id, db.outbox[id].request, response, db');
      case Apply(event) => ApplyUnique(db, user, event, db');
      case Process(cursor, keyAvailable) => ProcessUnique(db, user, cursor, keyAvailable);
      case _ => assert db'.outbox == db.outbox;
    }
  }

  lemma {:induction false} RunUnique(client: Client, user: UserId, actions: seq<Action>)
    requires RowidsUnique(client.db.outbox)
    ensures RowidsUnique(RunClient(client, user, actions).db.outbox)
    decreases |actions|
  {
    if actions != [] {
      if Next(client.db, user, actions[0]).Some? {
        StepUnique(client.db, user, actions[0], Next(client.db, user, actions[0]).value);
      }
      RunUnique(Step(client, user, actions[0]), user, actions[1..]);
    }
  }

  /** The outbox after the first actions of a run. */
  function OutboxAt(user: UserId, actions: seq<Action>, n: nat): map<MessageId, OutboxRow>
    requires n <= |actions|
  {
    RunClient(Client(Fresh(user), map[]), user, actions[..n]).db.outbox
  }

  lemma OutboxNext(user: UserId, actions: seq<Action>, n: nat)
    requires n < |actions|
    ensures RowidsUnique(OutboxAt(user, actions, n))
    ensures NewestLast(OutboxAt(user, actions, n), OutboxAt(user, actions, n + 1))
  {
    var start := Client(Fresh(user), map[]);
    var client := RunClient(start, user, actions[..n]);
    RunUnique(start, user, actions[..n]);
    assert actions[..n + 1] == actions[..n] + [actions[n]];
    RunMore(start, user, actions[..n], [actions[n]]);
    assert RunClient(client, user, [actions[n]]) == RunClient(Step(client, user, actions[n]), user, []);
    if Next(client.db, user, actions[n]).Some? {
      StepUnique(client.db, user, actions[n], Next(client.db, user, actions[n]).value);
    }
  }

  lemma AfterStep(
    outbox: map<MessageId, OutboxRow>, outbox': map<MessageId, OutboxRow>, first: MessageId, later: MessageId)
    requires NewestLast(outbox, outbox') && first != later
    requires first in outbox && first in outbox' && outbox'[first] == outbox[first]
    requires later in outbox ==> outbox[first].rowid < outbox[later].rowid
    ensures later in outbox' ==> outbox'[first].rowid < outbox'[later].rowid
  {}

  predicate Holding(outbox: map<MessageId, OutboxRow>, id: MessageId, row: OutboxRow) {
    id in outbox && outbox[id] == row
  }

  /** Of two rows in outboxes that grow at the end, the one that came later stands later. */
  lemma {:induction false} LaterRow(
    outboxes: seq<map<MessageId, OutboxRow>>, n: nat, m: nat, first: MessageId, row: OutboxRow, later: MessageId)
    requires n <= m < |outboxes| && later !in outboxes[n]
    requires forall k :: 0 <= k < |outboxes| - 1 ==> NewestLast(outboxes[k], outboxes[k + 1])
    requires forall k :: n <= k <= m ==> Holding(outboxes[k], first, row)
    ensures later in outboxes[m] ==> row.rowid < outboxes[m][later].rowid
    decreases m
  {
    if n < m {
      LaterRow(outboxes, n, m - 1, first, row, later);
      assert Holding(outboxes[n], first, row);
      assert Holding(outboxes[m - 1], first, row) && Holding(outboxes[m], first, row);
      assert NewestLast(outboxes[m - 1], outboxes[m - 1 + 1]);
      AfterStep(outboxes[m - 1], outboxes[m], first, later);
    }
  }

  /** A new row gets one more than the largest identifier in use, the first one gets 1. */
  lemma NextRowidIs(outbox: map<MessageId, OutboxRow>)
    ensures outbox == map[] ==> NextRowid(outbox) == 1
    ensures outbox != map[] ==> exists id :: id in outbox && outbox[id].rowid + 1 == NextRowid(outbox)
  {
    if outbox != map[] {
      var n := NextRowid(outbox);
      var rowids := Rowids(outbox);
      var some :| some in outbox.Keys;
      RowidIn(outbox, some);
      GreatestExists(rowids);
      var greatest: nat :| IsGreatest(greatest, rowids);
      var id :| id in outbox && outbox[id].rowid == greatest;
      assert n == greatest + 1;
    }
  }

  /** On every run, a request that is not yet waiting while another one is, and that one stays,
      comes after it. */
  lemma LaterIsAfter(
    user: UserId, actions: seq<Action>, n: nat, m: nat, first: MessageId, row: OutboxRow, later: MessageId)
    requires n <= m <= |actions| && later !in OutboxAt(user, actions, n)
    requires forall k :: n <= k <= m ==> Holding(OutboxAt(user, actions, k), first, row)
    ensures later in OutboxAt(user, actions, m) ==> row.rowid < OutboxAt(user, actions, m)[later].rowid
  {
    var outboxes := seq(|actions| + 1, k requires 0 <= k <= |actions| => OutboxAt(user, actions, k));
    forall k | 0 <= k < |outboxes| - 1 ensures NewestLast(outboxes[k], outboxes[k + 1]) {
      OutboxNext(user, actions, k);
    }
    LaterRow(outboxes, n, m, first, row, later);
  }

  /** On every run of a client, one walk over the outbox sends every waiting request exactly
      once, in row order; by LaterIsAfter that is the order in which they came to wait. */
  lemma OutboxSentOnce(user: UserId, actions: seq<Action>)
    ensures var outbox := RunClient(Client(Fresh(user), map[]), user, actions).db.outbox;
            && RowidsUnique(outbox)
            && Ascends(OutboxWalk(outbox, 0))
            && forall rowid :: rowid in OutboxWalk(outbox, 0) <==> HasRow(outbox, rowid)
  {
    var client := Client(Fresh(user), map[]);
    RunUnique(client, user, actions);
    WalkSendsAll(RunClient(client, user, actions).db.outbox);
  }

  lemma WalkSendsAll(outbox: map<MessageId, OutboxRow>)
    requires RowidsUnique(outbox)
    ensures Ascends(OutboxWalk(outbox, 0)) && forall rowid :: rowid in OutboxWalk(outbox, 0) <==> HasRow(outbox, rowid)
  {
    var ids := Sorted(RowidsAfter(outbox, 0));
    SortedLists(RowidsAfter(outbox, 0));
    OutboxWalkComplete(outbox, 0, ids);
    forall rowid ensures rowid in ids <==> HasRow(outbox, rowid) {
      if rowid in ids {
        var id :| id in outbox && outbox[id].rowid > 0 && outbox[id].rowid == rowid;
        assert IsRow(outbox, id, rowid);
      }
      if HasRow(outbox, rowid) {
        var id :| IsRow(outbox, id, rowid);
        assert outbox[id].rowid in RowidsAfter(outbox, 0);
      }
    }
  }
}
