/**
  A run that ends with a member held for good: honest use alone fills the sender's ledger, the
  next message is never admitted, and the rest of the log stays out of reach.
 */
module HeldRun {
  import opened Records
  import opened Sizes
  import opened RelaySpec
  import opened RelayInvariants
  import opened ClientSpec
  import opened World
  import opened WorldInvariant
  import opened Agreement
  import opened Holds
  import opened Progress
  import opened Recovery
  import opened Scenes
  import opened Members

  const TEXT: seq<byte> := [104, 105]

  /** A message of a member of the pair, built after the first event of the room. */
  function MessageOf(sender: UserId, id: MessageId): Append {
    Append(ROOM, 1, 1, Application,
           Blob(BYTES.body, ApplicationMessage(1, sender, Binding(ROOM, id, 1), TEXT)), None)
  }

  lemma MessageSizes(sender: UserId, id: MessageId)
    ensures var operation := MessageOf(sender, id);
            RequestSize(AppendRoomOperation(operation)) == 23 && EventSize(Event(id, sender, operation)) == 54
            && !AppendInvalid(operation)
  {}

  function Say(id: MessageId): Intent { Intent(id, None, Some(TEXT), None, None) }

  // ----- user 2 says something -----

  const SAY := Say(Random(23))
  const SAID := Event(Random(24), 2, MessageOf(2, Random(24)))
  const B8 := B7.(intents := map[ROOM := SAY])
  const B9 := B7.(intents := map[ROOM := SAY.(attempt := Some(Random(24)))],
                  groups := map[ROOM := GroupState(PAIR, None, 1)],
                  history := map[Random(24) := HistoryRow(ROOM, 2, 2, TEXT)],
                  outbox := map[Random(24) := OutboxRow(1, AppendRoomOperation(SAID.operation))])
  const B10 := B9.(inbox := map[Random(24) := InboxRow(SAID, Pending)])
  const T6 := T5.(events := [EventRow(ROOM, 1, FIRST), EventRow(ROOM, 2, SAID)])
  const S24 := Stage(T5, A11, B8, C2, 24, {RECEIPT1, RECEIPT2})

  /** The log has two events, of which user 1 has applied one. */
  const S26 := Stage(T6, A11, B10, C2, 26, {RECEIPT1, RECEIPT2})

  lemma Intends2()
    ensures Goes(B7, 2, Intend(ROOM, SAY), B8)
  {}

  lemma Sends2()
    ensures Goes(B8, 2, Build(ROOM, Random(24), BYTES), B9)
    ensures Asking(B9, Random(24), AppendRoomOperation(SAID.operation))
  {
    MessageSizes(2, Random(24));
    assert !Backlog(B8, ROOM);
    assert B8.intents[ROOM := SAY.(attempt := Some(Random(24)))] == B9.intents;
    assert B8.groups[ROOM := GroupState(PAIR, None, 1)] == B9.groups;
  }

  lemma Accepted2()
    ensures Goes(B9, 2, Answer(Random(24), AppendAccepted(SAID)), B10)
  {}

  lemma Saying()
    ensures Performs(T5, 2, Random(24), AppendRoomOperation(SAID.operation), T6, AppendAccepted(SAID))
    ensures Small(AppendRoomOperation(SAID.operation), AppendAccepted(SAID))
  {
    MessageSizes(2, Random(24));
    assert T5.events[..0] == [];
    assert Head(T5.events, ROOM) == 1;
    assert T5.events + [EventRow(ROOM, 2, SAID)] == T6.events;
  }

  lemma Says(w: World, limits: Limits) returns (w': World)
    requires Stands(w, S23) && Roomy(limits)
    ensures Leads(w, limits, w') && Stands(w', S26)
  {
    Intends2();
    var w1 := Does(w, limits, S23, 2, Intend(ROOM, SAY), B8);
    assert Stands(w1, S24);
    w' := SaysIt(w1, limits);
    LeadsOn(w, limits, w1, w');
  }

  lemma SaysIt(w: World, limits: Limits) returns (w': World)
    requires Stands(w, S24) && Roomy(limits)
    ensures Leads(w, limits, w') && Stands(w', S26)
  {
    Sends2();
    Accepted2();
    Saying();
    w' := Orders(w, limits, S24, 2, Build(ROOM, Random(24), BYTES), B9, AppendRoomOperation(SAID.operation), T6,
                 AppendAccepted(SAID), B10);
  }

  // ----- user 1 fills its ledger -----

  /** A grant that is withdrawn again and again costs as much as any request. */
  const GRANT := SetFetchGrant(2, false)

  const COST: nat := Charge(AppendRoomOperation(MessageOf(1, Random(0))))

  lemma Costs(id: MessageId)
    ensures Charge(AppendRoomOperation(MessageOf(1, id))) == COST == 16453 && Charge(GRANT) == 16438
    ensures Small(GRANT, FetchGrantSet)
  {
    MessageSizes(1, id);
    MessageSizes(1, Random(0));
  }

  function Granting1(n: nat): Database { A11.(outbox := map[Random(n) := OutboxRow(1, GRANT)]) }

  lemma Grants1(n: nat)
    requires n > 15
    ensures Goes(A11, 1, Issue(Random(n), GRANT), Granting1(n))
    ensures Goes(Granting1(n), 1, Answer(Random(n), FetchGrantSet), A11)
    ensures Asking(Granting1(n), Random(n), GRANT)
  {
    Costs(Random(0));
    assert Granting1(n).outbox - {Random(n)} == map[];
  }

  lemma Withdraws(n: nat)
    ensures Performs(T6, 1, Random(n), GRANT, T6, FetchGrantSet)
  {
    assert T6.grants - {(1, 2)} == T6.grants;
  }

  /** Still that log and that client; only identifiers and ledgers have moved. */
  predicate Same(s: Stage) { s.data == T6 && s.a == A11 && s.next > 15 }

  ghost predicate Busy(w: World, s: Stage) { Stands(w, s) && Same(s) }

  lemma CanPay(t: Tables, limits: Limits)
    requires Roomy(limits) && Used(t.usageSender, 1) + COST <= limits.sender < U64_MAX
    ensures Affordable(t, limits, 1, GRANT)
  {
    Costs(Random(0));
  }

  /** One more request is paid for. */
  lemma PaysOnce(w: World, limits: Limits, s: Stage) returns (w': World, s': Stage)
    requires Busy(w, s) && Roomy(limits) && Used(w.relay.usageSender, 1) + COST <= limits.sender < U64_MAX
    ensures Leads(w, limits, w') && Busy(w', s')
    ensures Used(w'.relay.usageSender, 1) == Used(w.relay.usageSender, 1) + Charge(GRANT)
  {
    var n := s.next;
    Costs(Random(0));
    Grants1(n);
    Withdraws(n);
    CanPay(w.relay, limits);
    w' := Buys(w, limits, s, 1, Issue(Random(n), GRANT), Granting1(n), GRANT, T6, FetchGrantSet, A11);
    s' := Ordered(s, 1, T6, A11);
  }

  /** Until the next message cannot be paid for. */
  lemma {:induction false} PaysUp(w: World, limits: Limits, s: Stage) returns (w': World, s': Stage)
    requires Busy(w, s) && Roomy(limits) && limits.sender < U64_MAX
    ensures Leads(w, limits, w') && Busy(w', s')
    ensures Used(w'.relay.usageSender, 1) + COST > limits.sender
    decreases limits.sender - Used(w.relay.usageSender, 1)
  {
    if Used(w.relay.usageSender, 1) + COST > limits.sender {
      assert RunWorld(w, limits, []) == w;
      w', s' := w, s;
    } else {
      Costs(Random(0));
      var w1, s1 := PaysOnce(w, limits, s);
      w', s' := PaysUp(w1, limits, s1);
      LeadsOn(w, limits, w1, w');
    }
  }

  // ----- and then says something, too -----

  function Meaning(n: nat): Database { A11.(intents := map[ROOM := Say(Random(n))]) }

  function Sending(n: nat): Database {
    A11.(intents := map[ROOM := Say(Random(n)).(attempt := Some(Random(n + 1)))],
         groups := map[ROOM := GroupState(PAIR, None, 1)],
         history := map[Random(n + 1) := HistoryRow(ROOM, 2, 1, TEXT)],
         outbox := map[Random(n + 1) := OutboxRow(1, AppendRoomOperation(MessageOf(1, Random(n + 1))))])
  }

  lemma Sends1(n: nat)
    requires n > 15
    ensures Goes(A11, 1, Intend(ROOM, Say(Random(n))), Meaning(n))
    ensures Goes(Meaning(n), 1, Build(ROOM, Random(n + 1), BYTES), Sending(n))
  {
    MessageSizes(1, Random(n + 1));
    assert !Backlog(Meaning(n), ROOM);
    assert Meaning(n).intents[ROOM := Say(Random(n)).(attempt := Some(Random(n + 1)))] == Sending(n).intents;
    assert Meaning(n).groups[ROOM := GroupState(PAIR, None, 1)] == Sending(n).groups;
  }

  lemma Waits(w: World, limits: Limits, s: Stage) returns (w': World)
    requires Busy(w, s)
    ensures Leads(w, limits, w') && w'.relay == w.relay
    ensures Stands(w', s.(a := Sending(s.next), next := s.next + 2))
  {
    Sends1(s.next);
    var w1 := Does(w, limits, s, 1, Intend(ROOM, Say(Random(s.next))), Meaning(s.next));
    var s1 := Stepped(s, 1, Meaning(s.next));
    w' := Does(w1, limits, s1, 1, Build(ROOM, Random(s.next + 1), BYTES), Sending(s.next));
    LeadsOn(w, limits, w1, w');
  }

  lemma IsHeld(w: World, limits: Limits, n: nat)
    requires 1 in w.clients && w.clients[1].db == Sending(n) && n > 15
    requires Lookup(w.relay.journal, 1, Random(n + 1)).None?
    requires Used(w.relay.usageSender, 1) + COST > limits.sender && limits.sender < U64_MAX
    ensures Held(w, limits, 1, ROOM)
  {
    Costs(Random(n + 1));
  }

  /** Two events, of which the second adds nobody. */
  lemma LogOfTwo(t: Tables)
    requires t.events == T6.events
    ensures Log(t, ROOM) == [FIRST, SAID]
  {
    var first := t.events[..1];
    assert first[..0] == [] && RowsOf(first, ROOM) == [EventRow(ROOM, 1, FIRST)];
    assert RowsOf(t.events, ROOM) == [EventRow(ROOM, 1, FIRST), EventRow(ROOM, 2, SAID)];
  }

  /** Behind the head of the room, and held. */
  ghost predicate HeldBehind(w: World, limits: Limits) {
    && Held(w, limits, 1, ROOM) && Knows(w, 1, ROOM)
    && w.clients[1].db.cursors[ROOM] == 1 && |Log(w.relay, ROOM)| == 2
  }

  lemma IsBehind(w: World, limits: Limits, s: Stage, n: nat)
    requires Stands(w, s) && s.data == T6 && s.a == Sending(n) && Held(w, limits, 1, ROOM)
    ensures HeldBehind(w, limits)
  {
    assert Data(w.relay).events == w.relay.events;
    LogOfTwo(w.relay);
  }

  lemma Story(limits: Limits) returns (w: World)
    requires Roomy(limits) && limits.sender < U64_MAX
    ensures Leads(Start(USERS), limits, w) && HeldBehind(w, limits)
  {
    var w0 := Start(USERS);
    var w1 := Opening(limits);
    var w2 := Says(w1, limits);
    LeadsOn(w0, limits, w1, w2);
    StartsBusy(w2);
    var w3, s := PaysUp(w2, limits, S26);
    LeadsOn(w0, limits, w2, w3);
    w := Waits(w3, limits, s);
    LeadsOn(w0, limits, w3, w);
    NoResult(w, s);
    IsHeld(w, limits, s.next);
    IsBehind(w, limits, s.(a := Sending(s.next), next := s.next + 2), s.next);
  }

  lemma StartsBusy(w: World)
    requires Stands(w, S26)
    ensures Busy(w, S26)
  {}

  lemma NoResult(w: World, s: Stage)
    requires RelayAt(w.relay, s)
    ensures Lookup(w.relay.journal, 1, Random(s.next + 1)).None?
  {}

  // ----- the log goes on without the member -----

  lemma MoveLog(w: World, limits: Limits, move: Move, room: RoomId)
    requires Good(w, limits)
    ensures Log(w.relay, room) <= Log(Moved(w, limits, move).relay, room)
  {
    if Enabled(w, move) && move.Serve? {
      var message := move.message;
      ServedLog(w.relay, limits, Call(message.user, message.id, message.request, move.env), room);
    } else {
      assert Moved(w, limits, move).relay == w.relay;
    }
  }

  lemma {:induction false} LogsGrow(w: World, limits: Limits, moves: seq<Move>, room: RoomId)
    requires Good(w, limits)
    ensures Log(w.relay, room) <= Log(RunWorld(w, limits, moves).relay, room)
    decreases |moves|
  {
    if moves != [] {
      MoveGood(w, limits, moves[0]);
      MoveLog(w, limits, moves[0], room);
      LogsGrow(Moved(w, limits, moves[0]), limits, moves[1..], room);
    }
  }

  /** The member waits after the first event of a log that has more. */
  ghost predicate Behind(w: World) {
    && 1 in w.clients && Unresolved(w.clients[1].db, ROOM)
    && ROOM in w.clients[1].db.cursors && w.clients[1].db.cursors[ROOM] == 1 && |Log(w.relay, ROOM)| >= 2
  }

  lemma StaysBehind(w: World, limits: Limits, more: seq<Move>)
    requires Good(w, limits) && HeldBehind(w, limits)
    ensures Behind(RunWorld(w, limits, more))
  {
    HeldForGood(w, limits, 1, ROOM, more);
    LogsGrow(w, limits, more, ROOM);
  }

  /** Held behind the log, for good: under all limits of at least a mebibyte and a bounded
      ledger, the defaults among them, there is a run of honest clients and the relay after
      which a member has applied one event of a log of two or more and never applies another. */
  lemma HeldForever(limits: Limits) returns (moves: seq<Move>)
    requires Roomy(limits) && limits.sender < U64_MAX
    ensures HeldBehind(Reached(USERS, limits, moves), limits)
    ensures forall more :: Behind(RunWorld(Reached(USERS, limits, moves), limits, more))
  {
    var w := Story(limits);
    moves :| RunWorld(Start(USERS), limits, moves) == w;
    ReachedGood(USERS, limits, moves);
    forall more ensures Behind(RunWorld(w, limits, more)) { StaysBehind(w, limits, more); }
  }

  /** Under the default limits, too. */
  lemma HeldByDefault() returns (moves: seq<Move>)
    ensures HeldBehind(Reached(USERS, DEFAULT_LIMITS, moves), DEFAULT_LIMITS)
  {
    moves := HeldForever(DEFAULT_LIMITS);
  }
}
