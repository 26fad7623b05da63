/** What an honest client hears of its rooms from the room index: every room it is in, with the
    length of its log, in a form the client accepts. */
module Announcements {
  import opened Records
  import opened RoomNames
  import opened SortedSets
  import opened RelaySpec
  import opened RelayInvariants
  import opened JournalFacts
  import opened World
  import opened WorldInvariant
  import opened Agreement
  import opened Progress
  import Verdicts

  // ----- a stored name is accepted again -----

  lemma {:induction false} TrimmedStart(s: string)
    ensures TrimStart(s) == "" || !IsWhitespace(TrimStart(s)[0])
  {
    if s != "" && IsWhitespace(s[0]) { TrimmedStart(s[1..]); }
  }

  lemma {:induction false} TrimmedEnd(s: string)
    ensures TrimEnd(s) <= s && (TrimEnd(s) == "" || !IsWhitespace(TrimEnd(s)[|TrimEnd(s)| - 1]))
  {
    if s != "" && IsWhitespace(s[|s| - 1]) { TrimmedEnd(s[..|s| - 1]); }
  }

  lemma NormalIsNormal(name: string)
    requires NormalizeRoomName(name).Some?
    ensures NormalizeRoomName(NormalizeRoomName(name).value) == NormalizeRoomName(name)
  {
    TrimmedStart(name);
    TrimmedEnd(TrimStart(name));
  }

  // ----- the relay of a world is a run of calls -----

  lemma {:induction false} RelayRuns(w: World, limits: Limits, moves: seq<Move>, before: seq<Call>)
    returns (calls: seq<Call>)
    requires w.relay == Run(EMPTY, limits, before)
    ensures RunWorld(w, limits, moves).relay == Run(EMPTY, limits, calls)
    decreases |moves|
  {
    if moves == [] {
      calls := before;
    } else {
      var next := MoveCalls(w, limits, moves[0], before);
      calls := RelayRuns(Moved(w, limits, moves[0]), limits, moves[1..], next);
    }
  }

  lemma MoveCalls(w: World, limits: Limits, move: Move, before: seq<Call>) returns (calls: seq<Call>)
    requires w.relay == Run(EMPTY, limits, before)
    ensures Moved(w, limits, move).relay == Run(EMPTY, limits, calls)
  {
    calls := before;
    if Enabled(w, move) && move.Serve? {
      var call := Call(move.message.user, move.message.id, move.message.request, move.env);
      RunLast(EMPTY, limits, before, call);
      calls := before + [call];
    }
  }

  lemma ReachedTold(users: set<UserId>, limits: Limits, moves: seq<Move>)
    ensures Told(Reached(users, limits, moves).relay)
  {
    var calls := RelayRuns(Start(users), limits, moves, []);
    EmptyTold();
    RelayStart(limits);
    RunTold(EMPTY, limits, calls);
  }

  lemma NameStored(t: Tables, room: RoomId)
    requires RoomsTold(t) && room in t.rooms
    ensures NormalizeRoomName(t.rooms[room].name).Some?
  {
    assert WasMade(t.journal, room);
    var i :| 0 <= i < |t.journal| && Creates(t.journal[i], room);
    assert RoomTold(t, t.journal[i]);
    NormalIsNormal(t.journal[i].request.name);
  }

  // ----- the index of an honest client -----

  ghost predicate Sound(w: World, limits: Limits) {
    Good(w, limits) && HistoryAgreement.VerdictsTrue(w.relay) && RoomsTold(w.relay)
  }

  lemma ReachedSound(users: set<UserId>, limits: Limits, moves: seq<Move>)
    ensures Sound(Reached(users, limits, moves), limits)
  {
    StartGood(users, limits);
    HistoryAgreement.RunVerdicts(Start(users), limits, moves);
    ReachedTold(users, limits, moves);
  }

  /** A world that some run leads to. */
  ghost predicate Comes(w: World, limits: Limits) { exists users, moves :: w == Reached(users, limits, moves) }

  lemma ComesSound(w: World, limits: Limits)
    requires Comes(w, limits)
    ensures Sound(w, limits)
  {
    var users, moves :| w == Reached(users, limits, moves);
    ReachedSound(users, limits, moves);
  }

  /** A client is never ahead of the head the index shows, and in a room it can fetch. */
  lemma RoomAnnounced(w: World, limits: Limits, user: UserId, room: RoomId)
    requires Comes(w, limits) && user in w.clients && room in w.clients[user].db.cursors
    ensures Subscribed(w.relay, room, user) && room in w.relay.rooms
    ensures w.clients[user].db.cursors[room] <= |Log(w.relay, room)|
  {
    ComesSound(w, limits);
    var client := w.clients[user];
    assert ClientGood(w.relay, w.issued, user, client);
    HistoryAgreement.MembersSubscribed(w.relay, room, client.db.cursors[room], user);
  }

  lemma HeadKnown(w: World, limits: Limits, room: RoomId)
    requires Comes(w, limits) && room in w.relay.rooms
    ensures Head(w.relay.events, room) == |Log(w.relay, room)| <= I64_MAX
    ensures NormalizeRoomName(NameOf(w.relay.rooms, room)).Some?
  {
    ComesSound(w, limits);
    LogSequences(w.relay, room);
    LogShort(w.relay, limits, room);
    NameStored(w.relay, room);
  }

  lemma HeadFitsHere(w: World, limits: Limits, user: UserId, room: RoomId, after: Option<RoomId>)
    requires Comes(w, limits) && user in w.clients && room in w.relay.rooms && (after.Some? ==> after.value < room)
    ensures var head := RoomHead(room, NameOf(w.relay.rooms, room), Head(w.relay.events, room));
            Engines.HeadFits(w.clients[user].db, head, after) && head.sequence == |Log(w.relay, room)|
  {
    HeadKnown(w, limits, room);
    if room in w.clients[user].db.cursors { RoomAnnounced(w, limits, user, room); }
  }

  function Previous(after: Option<RoomId>, heads: seq<RoomHead>, i: nat): Option<RoomId>
    requires i <= |heads|
  {
    if i == 0 then after else Some(heads[i - 1].room)
  }

  ghost predicate OnPage(heads: seq<RoomHead>, room: RoomId) { exists i :: 0 <= i < |heads| && heads[i].room == room }

  /** Every head of the page is one the client accepts in its turn, with the length of the room's
      log; and a room of the client that is not on the page comes later. */
  ghost predicate Announces(w: World, user: UserId, after: Option<RoomId>, reply: Response)
    requires user in w.clients
  {
    && reply.RoomIndex?
    && (forall i :: 0 <= i < |reply.rooms| ==> HeadAccepted(w, user, after, reply.rooms, i))
    && (forall room :: room in w.clients[user].db.cursors && (after.Some? ==> after.value < room) ==>
          || OnPage(reply.rooms, room)
          || (reply.more && reply.rooms != [] && reply.rooms[|reply.rooms| - 1].room < room))
  }

  ghost predicate HeadAccepted(w: World, user: UserId, after: Option<RoomId>, heads: seq<RoomHead>, i: nat)
    requires user in w.clients && i < |heads|
  {
    && Engines.HeadFits(w.clients[user].db, heads[i], Previous(after, heads, i))
    && heads[i].sequence == |Log(w.relay, heads[i].room)|
  }

  lemma PageHead(w: World, limits: Limits, user: UserId, after: Option<RoomId>, ids: seq<RoomId>, i: nat)
    requires Comes(w, limits) && user in w.clients && i < |ids| && Ascends(ids)
    requires forall k :: 0 <= k < |ids| ==> ids[k] in w.relay.rooms && (after.Some? ==> after.value < ids[k])
    ensures HeadAccepted(w, user, after, IndexHeads(w.relay, ids), i)
  {
    HeadFitsHere(w, limits, user, ids[i], Previous(after, IndexHeads(w.relay, ids), i));
  }

  lemma RoomOnPage(w: World, limits: Limits, user: UserId, after: Option<RoomId>, ids: seq<RoomId>, room: RoomId)
    requires Comes(w, limits) && user in w.clients && Lists(ids, IndexedRooms(w.relay, user, after))
    requires room in w.clients[user].db.cursors && (after.Some? ==> after.value < room)
    ensures || OnPage(IndexHeads(w.relay, First(ids, PAGE_SIZE)), room)
            || (|ids| > PAGE_SIZE && ids[PAGE_SIZE - 1] < room)
  {
    RoomAnnounced(w, limits, user, room);
    assert room in ids;
    var i :| 0 <= i < |ids| && ids[i] == room;
    if i < |First(ids, PAGE_SIZE)| { assert IndexHeads(w.relay, First(ids, PAGE_SIZE))[i].room == room; }
  }

  lemma PageAnnounces(w: World, limits: Limits, user: UserId, after: Option<RoomId>, ids: seq<RoomId>)
    requires Comes(w, limits) && user in w.clients && Lists(ids, IndexedRooms(w.relay, user, after))
    ensures Announces(w, user, after, RoomIndex(IndexHeads(w.relay, First(ids, PAGE_SIZE)), |ids| > PAGE_SIZE))
  {
    var page := First(ids, PAGE_SIZE);
    var heads := IndexHeads(w.relay, page);
    forall k | 0 <= k < |page| ensures page[k] in w.relay.rooms && (after.Some? ==> after.value < page[k]) {
      assert ids[k] in IndexedRooms(w.relay, user, after);
    }
    forall i | 0 <= i < |heads| ensures HeadAccepted(w, user, after, heads, i) {
      PageHead(w, limits, user, after, page, i);
    }
    forall room | room in w.clients[user].db.cursors && (after.Some? ==> after.value < room)
      ensures OnPage(heads, room) || (|ids| > PAGE_SIZE && page[PAGE_SIZE - 1] < room)
    {
      RoomOnPage(w, limits, user, after, ids, room);
    }
  }

  /** An honest client can follow the index in every reachable state: no page makes it give up, and
      walking the pages it hears of every room it is in, with the length of the room's log. */
  lemma IndexFits(users: set<UserId>, limits: Limits, moves: seq<Move>, user: UserId, id: MessageId,
                  after: Option<RoomId>, env: Environment)
    ensures var w := Reached(users, limits, moves);
            user in w.clients && Lookup(w.relay.journal, user, id).None? ==>
              Announces(w, user, after, Reply(w.relay, limits, Call(user, id, SyncIndex(after), env)))
  {
    var w := Reached(users, limits, moves);
    if user in w.clients && Lookup(w.relay.journal, user, id).None? {
      Verdicts.IndexReply(w.relay, limits, Call(user, id, SyncIndex(after), env), after);
      var ids := Sorted(IndexedRooms(w.relay, user, after));
      SortedLists(IndexedRooms(w.relay, user, after));
      Pages.IndexPage(w.relay, user, after, ids);
      PageAnnounces(w, limits, user, after, ids);
    }
  }
}
