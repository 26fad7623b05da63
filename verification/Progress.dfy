/** A member who waits for no own attempt can always apply the rest of the log. What becomes of a
    member who does wait is settled in Recovery.dfy. */
module Progress {
  import opened Records
  import opened Sizes
  import opened RelaySpec
  import opened RelayInvariants
  import opened ClientSpec
  import opened ClientInvariants
  import opened ClientTheorems
  import opened Honest
  import opened LogFacts
  import opened World
  import opened Sync
  import opened SyncSteps
  import opened WorldInvariant
  import opened Agreement
  import HistoryAgreement
  import Engines
  import Pages

  /** A member who has verified everybody the rest of the log adds. */
  ghost predicate Knows(w: World, user: UserId, room: RoomId) {
    && user in w.clients
    && room in w.clients[user].db.groups && room in w.clients[user].db.cursors
    && forall k :: w.clients[user].db.cursors[room] <= k < |Log(w.relay, room)| ==>
         !Stranger(w.clients[user].db, Log(w.relay, room)[k])
  }

  /** Such a member who waits for no own attempt. */
  ghost predicate CanFollow(w: World, user: UserId, room: RoomId) {
    Knows(w, user, room) && !Unresolved(w.clients[user].db, room)
  }

  ghost predicate Ready(w: World, limits: Limits, user: UserId, room: RoomId) {
    Good(w, limits) && HistoryAgreement.VerdictsTrue(w.relay) && CanFollow(w, user, room)
  }

  // ----- asking for the next event -----

  lemma {:induction false} EpochBound(t: Tables, room: RoomId, n: nat)
    requires room in t.rooms && n <= |Log(t, room)|
    ensures GroupAt(t, room, n).epoch <= n
  {
    if n > 0 {
      EpochBound(t, room, n - 1);
      GroupAtNext(t, room, n - 1);
    } else {
      assert Log(t, room)[..0] == [];
    }
  }

  lemma LogPlace(t: Tables, room: RoomId, k: nat)
    requires LogOk(t) && k < |Log(t, room)|
    ensures InLog(t, Log(t, room)[k])
    ensures Log(t, room)[k].operation.room == room && Log(t, room)[k].operation.parent == k
  {
    LogSequences(t, room);
  }

  lemma LoggedValid(t: Tables, limits: Limits, room: RoomId, k: nat)
    requires RelayOk(t, limits) && HistoryAgreement.VerdictsTrue(t) && k < |Log(t, room)|
    ensures !AppendInvalid(Log(t, room)[k].operation)
  {
    var event := Log(t, room)[k];
    LogPlace(t, room, k);
    LogJournaled(t, event);
    LookupFinds(t.journal, event.sender, event.id);
    assert HistoryAgreement.VerdictTrue(AcceptedAs(event));
  }

  /** The relay accepts no event beyond the last number. */
  lemma LogShort(t: Tables, limits: Limits, room: RoomId)
    requires RelayOk(t, limits) && HistoryAgreement.VerdictsTrue(t)
    ensures |Log(t, room)| <= I64_MAX
  {
    if Log(t, room) != [] {
      LogPlace(t, room, |Log(t, room)| - 1);
      LoggedValid(t, limits, room, |Log(t, room)| - 1);
    }
  }

  /** Every event of an honest log fits a page. */
  lemma LoggedFits(t: Tables, limits: Limits, room: RoomId, k: nat)
    requires RelayOk(t, limits) && HonestLogs(t) && HistoryAgreement.VerdictsTrue(t)
    ensures Pages.StartFits(t, room, k)
  {
    if k < |Log(t, room)| {
      LogPlace(t, room, k);
      LogShort(t, limits, room);
      LoggedValid(t, limits, room, k);
      assert HonestEvent(t, room, k);
      EpochBound(t, room, k);
    }
  }

  lemma FreshId(issued: map<MessageId, Message>) returns (id: MessageId)
    ensures New(issued, id)
  {
    var bits := set m | m in issued && m.Random? :: m.bits;
    var n: nat := 0;
    if bits != {} {
      GreatestExists(bits);
      var greatest: nat :| IsGreatest(greatest, bits);
      n := greatest + 1;
    }
    id := Random(n);
    assert id in issued ==> n in bits;
  }

  const ENV := Environment(0, 0, 0, 0, 0, 0)

  lemma ReadAnswered(t: Tables, limits: Limits, user: UserId, id: MessageId, room: RoomId, after: nat)
    requires Lookup(t.journal, user, id).None? && after <= U64_MAX
    ensures var call := Call(user, id, FetchRoomEvents(room, after), ENV);
            After(t, limits, call) == t && Reply(t, limits, call) == ExecuteFetch(t, user, room, after).response
  {
    VarintSizeOfWord(after);
  }

  lemma NeverJournaled(t: Tables, issued: map<MessageId, Message>, user: UserId, id: MessageId)
    requires JournalIssued(issued, t.journal) && New(issued, id)
    ensures Lookup(t.journal, user, id).None?
  {
    LookupFinds(t.journal, user, id);
  }

  /** The world after a read was sent and answered. */
  function Asked(w: World, message: Message, response: Response): World {
    w.(sent := w.sent + {message}, issued := w.issued[message.id := message],
       answers := w.answers + {Answered(message, response)})
  }

  lemma RunTwo(w0: World, w1: World, w2: World, limits: Limits, a: Move, b: Move)
    requires Moved(w0, limits, a) == w1 && Moved(w1, limits, b) == w2
    ensures RunWorld(w0, limits, [a, b]) == w2
  {
    assert [a, b][1..] == [b] && [b][1..] == [];
    assert RunWorld(w1, limits, [b]) == RunWorld(w2, limits, []);
  }

  lemma AskMoves(w: World, limits: Limits, message: Message, response: Response)
    requires message.user in w.clients && New(w.issued, message.id) && !IsDurable(message.request)
    requires var call := Call(message.user, message.id, message.request, ENV);
             After(w.relay, limits, call) == w.relay && Reply(w.relay, limits, call) == response
    ensures RunWorld(w, limits, [Read(message.user, message.id, message.request), Serve(message, ENV)])
            == Asked(w, message, response)
  {
    var w1 := w.(sent := w.sent + {message}, issued := w.issued[message.id := message]);
    assert Moved(w, limits, Read(message.user, message.id, message.request)) == w1;
    assert Moved(w1, limits, Serve(message, ENV)) == Asked(w, message, response);
    RunTwo(w, w1, Asked(w, message, response), limits, Read(message.user, message.id, message.request),
           Serve(message, ENV));
  }

  lemma PageHasNext(t: Tables, limits: Limits, user: UserId, room: RoomId, after: nat)
    requires RelayOk(t, limits) && HonestLogs(t) && HistoryAgreement.VerdictsTrue(t)
    requires room in t.rooms && after < |Log(t, room)| <= I64_MAX && user in GroupAt(t, room, after).roster
    ensures var page := ExecuteFetch(t, user, room, after).response;
            page.RoomEvents? && Log(t, room)[after] in page.events
  {
    HistoryAgreement.MembersSubscribed(t, room, after, user);
    LoggedFits(t, limits, room, after);
    Pages.FetchGood(t, user, room, after);
    var page := ExecuteFetch(t, user, room, after).response;
    assert page.events[0] == Log(t, room)[after];
  }

  lemma MemberAt(w: World, limits: Limits, user: UserId, room: RoomId)
    requires Good(w, limits) && user in w.clients
    requires room in w.clients[user].db.groups && room in w.clients[user].db.cursors
    ensures room in w.relay.rooms && w.clients[user].db.cursors[room] <= |Log(w.relay, room)|
    ensures user in GroupAt(w.relay, room, w.clients[user].db.cursors[room]).roster
  {
    assert ClientGood(w.relay, w.issued, user, w.clients[user]);
  }

  /** What the user is told about the next event, under any new identifier. */
  lemma NextTold(
    t: Tables, limits: Limits, issued: map<MessageId, Message>, user: UserId, room: RoomId, after: nat, id: MessageId)
    requires RelayOk(t, limits) && HonestLogs(t) && HistoryAgreement.VerdictsTrue(t) && JournalIssued(issued, t.journal)
    requires room in t.rooms && after < |Log(t, room)| <= I64_MAX && user in GroupAt(t, room, after).roster
    requires New(issued, id)
    ensures var call := Call(user, id, FetchRoomEvents(room, after), ENV);
            var response := ExecuteFetch(t, user, room, after).response;
            && After(t, limits, call) == t && Reply(t, limits, call) == response
            && response.RoomEvents? && Log(t, room)[after] in response.events
  {
    NeverJournaled(t, issued, user, id);
    ReadAnswered(t, limits, user, id, room, after);
    PageHasNext(t, limits, user, room, after);
  }

  /** After asking for it, the next event is among the answers. */
  lemma AskNext(w: World, limits: Limits, user: UserId, room: RoomId, after: nat) returns (moves: seq<Move>, w': World)
    requires RelayGood(w.relay, limits, w.issued) && HistoryAgreement.VerdictsTrue(w.relay) && user in w.clients
    requires room in w.relay.rooms && after < |Log(w.relay, room)| <= I64_MAX
    requires user in GroupAt(w.relay, room, after).roster
    ensures RunWorld(w, limits, moves) == w' && w'.relay == w.relay && w'.clients == w.clients
    ensures Fetched(w'.answers, user, Log(w.relay, room)[after])
  {
    var id := FreshId(w.issued);
    NextTold(w.relay, limits, w.issued, user, room, after, id);
    var message := Message(user, id, FetchRoomEvents(room, after));
    var response := ExecuteFetch(w.relay, user, room, after).response;
    AskMoves(w, limits, message, response);
    moves, w' := [Read(user, id, message.request), Serve(message, ENV)], Asked(w, message, response);
    AnswerThere(w'.answers, message, response, Log(w.relay, room)[after]);
  }

  lemma AnswerThere(answers: set<Answered>, message: Message, response: Response, event: Event)
    requires Answered(message, response) in answers && response.RoomEvents? && event in response.events
    ensures Fetched(answers, message.user, event)
  {
    var answer := Answered(message, response);
    assert answer in answers && answer.message.user == message.user;
  }

  // ----- taking it in -----

  lemma NextReceives(t: Tables, user: UserId, starts: Starts, db: Database, event: Event)
    requires LogOk(t) && InboxOk(db, starts) && InboxTrue(t, db.inbox) && InLog(t, event)
    requires event.operation.parent + 1 <= I64_MAX
    ensures ReceiveEvent(db, event).Some?
  {
    forall id | id in db.inbox && (id == event.id || At(db.inbox[id], event.operation.room, event.operation.parent))
      ensures db.inbox[id].event == event
    {
      SameIdSameEvent(t, db.inbox[id].event, event);
    }
  }

  lemma SameIdSameEvent(t: Tables, a: Event, b: Event)
    requires LogOk(t) && InLog(t, a) && InLog(t, b)
    requires a.id == b.id || (a.operation.room == b.operation.room && a.operation.parent == b.operation.parent)
    ensures a == b
  {
    var i := RowsOfFinds(t.events, a.operation.room, a.operation.parent);
    var j := RowsOfFinds(t.events, b.operation.room, b.operation.parent);
    assert t.events[i].event == a && t.events[j].event == b;
  }

  /** The client after receiving and applying its next event. */
  lemma TakeNext(t: Tables, issued: map<MessageId, Message>, user: UserId, client: Client, room: RoomId)
    returns (db1: Database, db2: Database)
    requires LogOk(t) && HonestLogs(t) && JournalOk(t.journal) && ClientGood(t, issued, user, client)
    requires room in client.db.groups && room in client.db.cursors && !Unresolved(client.db, room)
    requires client.db.cursors[room] < |Log(t, room)| <= I64_MAX
    requires !Stranger(client.db, Log(t, room)[client.db.cursors[room]])
    ensures var event := Log(t, room)[client.db.cursors[room]];
            Next(client.db, user, Receive(event)) == Some(db1) && Next(db1, user, Apply(event)) == Some(db2)
    ensures room in db2.groups && room in db2.cursors && db2.cursors[room] == client.db.cursors[room] + 1
    ensures !Unresolved(db2, room) && db2.contacts == client.db.contacts
  {
    var db, event := client.db, Log(t, room)[client.db.cursors[room]];
    LogPlace(t, room, db.cursors[room]);
    db1 := TakeIn(t, user, client.starts, db, event);
    db2 := TakeUp(t, issued, user, NewStarts(client.starts, db1), db1, event);
  }

  lemma TakeIn(t: Tables, user: UserId, starts: Starts, db: Database, event: Event) returns (db1: Database)
    requires LogOk(t) && Disciplined(db, user, starts) && Synced(t, user, db) && InLog(t, event)
    requires event.operation.room in db.groups && event.operation.room in db.cursors
    requires !Unresolved(db, event.operation.room)
    requires db.cursors[event.operation.room] == event.operation.parent < I64_MAX
    ensures Next(db, user, Receive(event)) == Some(db1) && IsNext(db1, event)
    ensures Disciplined(db1, user, NewStarts(starts, db1)) && Synced(t, user, db1)
    ensures db1.contacts == db.contacts && db1.outbox == db.outbox
  {
    NextReceives(t, user, starts, db, event);
    db1 := ReceiveEvent(db, event).value;
    ReceivedNext(user, db, event, db1);
    ReceivedKept(t, user, starts, db, event, db1);
  }

  lemma ReceivedKept(t: Tables, user: UserId, starts: Starts, db: Database, event: Event, db1: Database)
    requires Disciplined(db, user, starts) && Synced(t, user, db) && InLog(t, event)
    requires Next(db, user, Receive(event)) == Some(db1) && ReceiveEvent(db, event) == Some(db1)
    ensures Disciplined(db1, user, NewStarts(starts, db1)) && Synced(t, user, db1)
  {
    ReceiveSynced(t, user, db, event, db1);
    StepKept(db, user, starts, Receive(event), db1);
  }

  lemma TakeUp(
    t: Tables, issued: map<MessageId, Message>, user: UserId, starts: Starts, db1: Database, event: Event)
    returns (db2: Database)
    requires HonestLogs(t) && Disciplined(db1, user, starts) && Synced(t, user, db1)
    requires OutboxIssued(issued, user, db1.outbox)
    requires IsNext(db1, event) && !Stranger(db1, event)
    ensures Next(db1, user, Apply(event)) == Some(db2)
    ensures event.operation.room in db2.groups && event.operation.room in db2.cursors
    ensures db2.cursors[event.operation.room] == event.operation.parent + 1
    ensures !Unresolved(db2, event.operation.room) && db2.contacts == db1.contacts
  {
    NextApplies(t, issued, user, starts, db1, event);
    db2 := Next(db1, user, Apply(event)).value;
    Engines.DrawnByDiscipline(db1, user, starts);
    AppliedNext(db1, user, starts, event, db2);
  }

  lemma ReceivedNext(user: UserId, db: Database, event: Event, db1: Database)
    requires ReceiveEvent(db, event) == Some(db1) && !Unresolved(db, event.operation.room)
    requires HasGroup(db, event.operation.room) && event.operation.room in db.cursors
    requires db.cursors[event.operation.room] == event.operation.parent
    ensures Next(db, user, Receive(event)) == Some(db1)
    ensures IsNext(db1, event) && db1.contacts == db.contacts && db1.outbox == db.outbox
  {}

  lemma AppliedNext(db: Database, user: UserId, starts: Starts, event: Event, db': Database)
    requires ClientOk(db, starts) && Engines.AttemptsDrawn(db.intents) && IsNext(db, event)
    requires Next(db, user, Apply(event)) == Some(db') && Applies(db, user, event)
    requires !Stranger(db, event)
    ensures event.operation.room in db'.groups && event.operation.room in db'.cursors
    ensures db'.cursors[event.operation.room] == event.operation.parent + 1
    ensures !Unresolved(db', event.operation.room) && db'.contacts == db.contacts
  {
    Engines.AppliedFrame(db, user, event, db');
    ContactsStay(db, user, event, db');
  }

  lemma ContactsStay(db: Database, user: UserId, event: Event, db': Database)
    requires event.sender == user ==> ApplyOwn(db, user, event) == Some(db')
    requires event.sender != user ==> ApplyOther(db, user, event) == Some(db')
    ensures db'.contacts == db.contacts
  {
    if event.sender != user {
      match ProcessBound(db, user, event) {
        case Failure =>
        case FaultBlocked =>
        case FaultRejected =>
        case Opened(db1, plaintext) => OpenedFrame(db, user, event, db1, plaintext);
      }
    }
  }

  // ----- following the log -----

  lemma {:induction false} WorldMore(w: World, limits: Limits, a: seq<Move>, b: seq<Move>)
    ensures RunWorld(w, limits, a + b) == RunWorld(RunWorld(w, limits, a), limits, b)
    decreases |a|
  {
    if a == [] {
      assert a + b == b;
    } else {
      assert (a + b)[0] == a[0] && (a + b)[1..] == a[1..] + b;
      WorldMore(Moved(w, limits, a[0]), limits, a[1..], b);
    }
  }

  lemma ActMoves(w: World, limits: Limits, user: UserId, action: Action, db': Database)
    requires user in w.clients && Justified(w, user, w.clients[user].db, action)
    requires Next(w.clients[user].db, user, action) == Some(db')
    ensures Moved(w, limits, Act(user, action)) == Acted(w, user, action, db')
  {}

  lemma TakeMoves(w: World, limits: Limits, user: UserId, event: Event, db1: Database, db2: Database)
    returns (w': World)
    requires user in w.clients && Fetched(w.answers, user, event)
    requires Next(w.clients[user].db, user, Receive(event)) == Some(db1) && Next(db1, user, Apply(event)) == Some(db2)
    ensures RunWorld(w, limits, [Act(user, Receive(event)), Act(user, Apply(event))]) == w'
    ensures w'.relay == w.relay && user in w'.clients && w'.clients[user].db == db2
  {
    var w1 := Acted(w, user, Receive(event), db1);
    ActMoves(w, limits, user, Receive(event), db1);
    w' := Acted(w1, user, Apply(event), db2);
    ActMoves(w1, limits, user, Apply(event), db2);
    RunTwo(w, w1, w', limits, Act(user, Receive(event)), Act(user, Apply(event)));
  }

  /** Going one event further needs nobody new. */
  lemma StillFollows(w: World, w': World, user: UserId, room: RoomId)
    requires CanFollow(w, user, room) && w'.relay == w.relay && user in w'.clients
    requires room in w'.clients[user].db.groups && room in w'.clients[user].db.cursors
    requires w'.clients[user].db.cursors[room] == w.clients[user].db.cursors[room] + 1
    requires !Unresolved(w'.clients[user].db, room) && w'.clients[user].db.contacts == w.clients[user].db.contacts
    ensures CanFollow(w', user, room)
  {
    forall k | w'.clients[user].db.cursors[room] <= k < |Log(w'.relay, room)|
      ensures !Stranger(w'.clients[user].db, Log(w'.relay, room)[k])
    {
      assert !Stranger(w.clients[user].db, Log(w.relay, room)[k]);
    }
  }

  /** One event further: ask, receive, apply. */
  lemma FollowOne(w: World, limits: Limits, user: UserId, room: RoomId) returns (moves: seq<Move>, w': World)
    requires Ready(w, limits, user, room) && w.clients[user].db.cursors[room] < |Log(w.relay, room)|
    ensures RunWorld(w, limits, moves) == w' && w'.relay == w.relay && CanFollow(w', user, room)
    ensures w'.clients[user].db.cursors[room] == w.clients[user].db.cursors[room] + 1
  {
    var after := w.clients[user].db.cursors[room];
    var event := Log(w.relay, room)[after];
    MemberAt(w, limits, user, room);
    LogShort(w.relay, limits, room);
    var ask, w1 := AskNext(w, limits, user, room, after);
    assert ClientGood(w.relay, w.issued, user, w.clients[user]);
    var db1, db2 := TakeNext(w.relay, w.issued, user, w.clients[user], room);
    w' := TakeMoves(w1, limits, user, event, db1, db2);
    WorldMore(w, limits, ask, [Act(user, Receive(event)), Act(user, Apply(event))]);
    moves := ask + [Act(user, Receive(event)), Act(user, Apply(event))];
    StillFollows(w, w', user, room);
  }

  lemma {:induction false} FollowAll(w: World, limits: Limits, user: UserId, room: RoomId)
    returns (moves: seq<Move>, w': World)
    requires Ready(w, limits, user, room)
    ensures RunWorld(w, limits, moves) == w' && Ready(w', limits, user, room) && w'.relay == w.relay
    ensures w'.clients[user].db.cursors[room] == |Log(w.relay, room)|
    decreases |Log(w.relay, room)| - w.clients[user].db.cursors[room]
  {
    MemberAt(w, limits, user, room);
    if w.clients[user].db.cursors[room] == |Log(w.relay, room)| {
      moves, w' := [], w;
    } else {
      var first, w1 := FollowOne(w, limits, user, room);
      RunGood(w, limits, first);
      MemberAt(w1, limits, user, room);
      var others;
      others, w' := FollowAll(w1, limits, user, room);
      WorldMore(w, limits, first, others);
      moves := first + others;
    }
  }

  /** Catching up: from every reachable state, a member who is not waiting for an own attempt and
      has verified everybody the log adds can reach the head of the room by asking, receiving
      and applying, without any change to the relay, and then has the group of the whole log. */
  lemma CatchUp(users: set<UserId>, limits: Limits, moves: seq<Move>, user: UserId, room: RoomId)
    returns (more: seq<Move>)
    requires CanFollow(Reached(users, limits, moves), user, room)
    ensures var w := Reached(users, limits, moves + more);
            && w.relay == Reached(users, limits, moves).relay
            && InRoom(w, user, room) && room in w.relay.rooms
            && w.clients[user].db.cursors[room] == |Log(w.relay, room)|
            && w.clients[user].db.groups[room].group == GroupAt(w.relay, room, |Log(w.relay, room)|)
  {
    StartGood(users, limits);
    HistoryAgreement.RunVerdicts(Start(users), limits, moves);
    var w';
    more, w' := FollowAll(Reached(users, limits, moves), limits, user, room);
    WorldMore(Start(users), limits, moves, more);
    assert ClientGood(w'.relay, w'.issued, user, w'.clients[user]);
  }
}
