/** How two honest clients come to share a room of the relay: the opening of longer runs. */
module Members {
  import opened Records
  import opened Sizes
  import opened RoomNames
  import opened RelaySpec
  import opened RelayInvariants
  import opened ClientSpec
  import opened World
  import opened Scenes

  const ROOM: RoomId := 0
  const BYTES := Ciphertext([1], [2])
  const PACKAGE2 := Blob([3], KeyPackageMessage(2))
  const ALONE := Group(0, {1})
  const PAIR := Group(1, {1, 2})

  function Add(id: MessageId, contact: UserId): Intent { Intent(id, Some(contact), None, None, None) }

  /** A commit by a member on a group, with the Welcome for the contact it adds. */
  function CommitOf(sender: UserId, id: MessageId, parent: nat, base: Group, contact: UserId): Append {
    var welcome := Blob(BYTES.welcome, WelcomeMessage(ROOM, Added(base, contact)));
    var body := Blob(BYTES.body, CommitMessage(base, sender, Binding(ROOM, id, parent), contact));
    Append(ROOM, parent, base.epoch, Commit, body,
           Some(WelcomeAttachment(contact, welcome,
                                  Signature(sender, Transcript(contact, ROOM, id, parent + 1, welcome)))))
  }

  lemma CommitSizes(sender: UserId, id: MessageId, parent: nat, base: Group, contact: UserId)
    requires parent < 0x80 && base.epoch < 0x80
    ensures var operation := CommitOf(sender, id, parent, base, contact);
            && RequestSize(AppendRoomOperation(operation)) == 105 && EventSize(Event(id, sender, operation)) == 136
            && !AppendInvalid(operation)
  {}

  // ----- databases of user 1 -----

  const A1 := Fresh(1).(contacts := {1, 2})
  const A2 := Fresh(1).(contacts := {1, 2, 3})
  const CREATE := CreateRoom("r")
  const A3 := A2.(outbox := map[Random(10) := OutboxRow(1, CREATE)])
  const A4 := A2.(groups := map[ROOM := GroupState(ALONE, None, 0)], cursors := map[ROOM := 0])
  const ADD2 := Add(Random(12), 2)
  const A5 := A4.(intents := map[ROOM := ADD2])
  const A6 := A4.(intents := map[ROOM := ADD2.(attempt := Some(Random(13)))],
                  outbox := map[Random(13) := OutboxRow(1, ReserveKeyPackage(2))])
  const A7 := A4.(intents := map[ROOM := ADD2.(package := Some(PACKAGE2))])
  const FIRST := Event(Random(15), 1, CommitOf(1, Random(15), 0, ALONE, 2))
  const A8 := A4.(intents := map[ROOM := ADD2.(package := Some(PACKAGE2), attempt := Some(Random(15)))],
                  groups := map[ROOM := GroupState(ALONE, Some(PAIR), 0)],
                  outbox := map[Random(15) := OutboxRow(1, AppendRoomOperation(FIRST.operation))])
  const A9 := A8.(inbox := map[Random(15) := InboxRow(FIRST, Pending)])
  const RECEIPT1 := AcknowledgementId(1, [Random(15)], [])
  const A11 := A2.(groups := map[ROOM := GroupState(PAIR, None, 0)], cursors := map[ROOM := 1],
                   inbox := map[Random(15) := InboxRow(FIRST, Applied)])
  const A10 := A11.(outbox := map[RECEIPT1 := OutboxRow(1, CONFIRM1)])

  lemma Named()
    ensures NormalizeRoomName("r") == Some("r") && RequestSize(CREATE) == 3 && Utf8Size("r") == 1
  {
    assert TrimStart("r") == "r" && TrimEnd("r") == "r" && Utf8Size("r") == 1;
  }

  lemma Creates()
    ensures Goes(A2, 1, Issue(Random(10), CREATE), A3)
    ensures Goes(A3, 1, Answer(Random(10), RoomCreated(ROOM)), A4)
  {
    Named();
    assert A3.outbox - {Random(10)} == map[];
  }

  lemma Reserves1()
    ensures Goes(A4, 1, Intend(ROOM, ADD2), A5)
    ensures Goes(A5, 1, Build(ROOM, Random(13), BYTES), A6)
  {
    assert !Backlog(A5, ROOM);
    assert A5.intents[ROOM := ADD2.(attempt := Some(Random(13)))] == A6.intents;
  }

  lemma Gets1()
    ensures Goes(A6, 1, Answer(Random(13), KeyPackage(2, PACKAGE2)), A7)
  {
    assert ReservingRooms(A6.intents, Random(13), 2) == {ROOM};
    assert AttachPackage(A6.intents, Random(13), 2, PACKAGE2) == A7.intents;
    assert A6.outbox - {Random(13)} == map[];
  }

  lemma Commits1()
    ensures Goes(A7, 1, Build(ROOM, Random(15), BYTES), A8)
    ensures Goes(A8, 1, Answer(Random(15), AppendAccepted(FIRST)), A9)
  {
    CommitSizes(1, Random(15), 0, ALONE, 2);
    assert !Backlog(A7, ROOM);
    assert Added(ALONE, 2) == PAIR;
    assert A7.intents[ROOM := ADD2.(package := Some(PACKAGE2), attempt := Some(Random(15)))] == A8.intents;
    assert A7.groups[ROOM := GroupState(ALONE, Some(PAIR), 0)] == A8.groups;
  }

  lemma Applies1()
    ensures Goes(A9, 1, Apply(FIRST), A10)
  {
    assert A9.outbox - {Random(15)} == map[];
    assert DropIntents(A9.intents, Random(15)) == map[];
    assert A9.groups[ROOM := GroupState(PAIR, None, 0)] == A11.groups;
    assert A9.cursors[ROOM := 1] == A11.cursors;
    assert MarkRow(A9.inbox, Random(15), Applied) == A11.inbox;
  }

  lemma Reports1()
    ensures Goes(A10, 1, Answer(RECEIPT1, Acknowledged), A11)
  {
    assert A10.outbox - {RECEIPT1} == map[];
  }

  // ----- databases of user 2 -----

  lemma OneBlob(blob: Blob)
    requires |blob.bytes| == 1
    ensures TotalBytes([blob]) == 1 && BlobsSize([blob]) == 2
  {
    assert [blob][1..] == [];
    assert TotalBytes([blob]) == 1 + TotalBytes([]) && BlobsSize([blob]) == 2 + BlobsSize([]);
  }

  const B1 := Fresh(2).(contacts := {1, 2})
  const B2 := Fresh(2).(contacts := {1, 2, 3})
  const PUBLISH2 := PublishKeyPackages([PACKAGE2])
  const GRANT1 := SetFetchGrant(1, true)
  const B3 := B2.(outbox := map[Random(6) := OutboxRow(1, PUBLISH2)])
  const B4 := B2.(outbox := map[Random(8) := OutboxRow(1, GRANT1)])
  const RECORD := WelcomeDelivery("r", 0, Random(15), ROOM, 1, 1, FIRST.operation.welcome.value)
  const DELIVERY := RECORD.(cursor := 1)
  const B5 := B2.(welcomes := map[1 := WelcomeEntry(DELIVERY, Pending)], welcomeCursor := 1)
  const RECEIPT2 := AcknowledgementId(2, [], [1])
  const B7 := B2.(welcomes := map[1 := WelcomeEntry(DELIVERY, Applied)], welcomeCursor := 1,
                  groups := map[ROOM := GroupState(PAIR, None, 0)], cursors := map[ROOM := 1])
  const B6 := B7.(outbox := map[RECEIPT2 := OutboxRow(1, CONFIRM2)])

  lemma Publishes2()
    ensures Goes(B2, 2, Issue(Random(6), PUBLISH2), B3)
    ensures Goes(B3, 2, Answer(Random(6), KeyPackagesPublished(1)), B2)
    ensures RequestSize(PUBLISH2) == 4
  {
    OneBlob(PACKAGE2);
    assert B3.outbox - {Random(6)} == map[];
  }

  lemma Grants2()
    ensures Goes(B2, 2, Issue(Random(8), GRANT1), B4)
    ensures Goes(B4, 2, Answer(Random(8), FetchGrantSet), B2)
  {
    assert B4.outbox - {Random(8)} == map[];
  }

  lemma Stores2()
    ensures Goes(B2, 2, Store([DELIVERY]), B5)
  {
    assert [DELIVERY][1..] == [];
    assert PageOrdered(2, [DELIVERY], 0);
    assert InsertPage(B2.welcomes, [DELIVERY]) == Some(B5.welcomes);
  }

  lemma Joins2()
    ensures Goes(B5, 2, Process(1, true), B6)
  {
    Named();
    assert Added(ALONE, 2) == PAIR;
    assert B5.welcomes[1 := WelcomeEntry(DELIVERY, Applied)] == B7.welcomes;
    assert B5.groups[ROOM := GroupState(PAIR, None, 0)] == B7.groups;
    assert B5.cursors[ROOM := 1] == B7.cursors;
    assert WelcomeVerified(B5, 2, DELIVERY);
    assert JoinRoom(B5, 2, 1, DELIVERY, true) == Some(B6);
  }

  lemma Reports2()
    ensures Goes(B6, 2, Answer(RECEIPT2, Acknowledged), B7)
  {
    assert B6.outbox - {RECEIPT2} == map[];
  }

  const C1 := Fresh(3).(contacts := {1, 3})
  const C2 := Fresh(3).(contacts := {1, 2, 3})

  // ----- the relay -----

  const T1 := EMPTY.(packages := [PackageRow(2, PACKAGE2)])
  const T2 := T1.(grants := {(2, 1)})
  const T3 := T2.(rooms := map[ROOM := Room("r", 1)], subscribers := {(ROOM, 1)})
  const T4 := T3.(packages := [], allocations := [Allocation(1, 2, 0)])
  const T5 := T4.(events := [EventRow(ROOM, 1, FIRST)], welcomes := [WelcomeRow(1, 2, RECORD)],
                  subscribers := {(ROOM, 1), (ROOM, 2)})

  lemma Publishing()
    ensures Performs(EMPTY, 2, Random(6), PUBLISH2, T1, KeyPackagesPublished(1))
    ensures Small(PUBLISH2, KeyPackagesPublished(1))
  {
    OneBlob(PACKAGE2);
    assert PackageRows(2, [PACKAGE2]) == [PackageRow(2, PACKAGE2)];
  }

  lemma Granting()
    ensures Performs(T1, 2, Random(8), GRANT1, T2, FetchGrantSet) && Small(GRANT1, FetchGrantSet)
  {}

  lemma Creating()
    ensures Performs(T2, 1, Random(10), CREATE, T3, RoomCreated(ROOM)) && Small(CREATE, RoomCreated(ROOM))
  {
    Named();
    assert RoomsCreatedBy(T2.rooms, 1) == {};
  }

  lemma Reserving()
    ensures Performs(T3, 1, Random(13), ReserveKeyPackage(2), T4, KeyPackage(2, PACKAGE2))
    ensures Small(ReserveKeyPackage(2), KeyPackage(2, PACKAGE2))
  {
    assert T3.packages[1..] == [];
    assert Pool(T3.packages, 2) == [PACKAGE2];
    assert WithoutFirst(T3.packages, 2) == [];
  }

  lemma Appending()
    ensures Performs(T4, 1, Random(15), AppendRoomOperation(FIRST.operation), T5, AppendAccepted(FIRST))
    ensures Small(AppendRoomOperation(FIRST.operation), AppendAccepted(FIRST))
  {
    CommitSizes(1, Random(15), 0, ALONE, 2);
    Named();
    assert WelcomeSize(RECORD) <= 200;
    assert T5.subscribers == T4.subscribers + {(ROOM, 2)};
  }

  const CONFIRM1 := Acknowledge([Random(15)], [])
  const CONFIRM2 := Acknowledge([], [1])

  lemma Acknowledging1()
    ensures Performs(T5, 1, RECEIPT1, CONFIRM1, T5, Acknowledged) && Small(CONFIRM1, Acknowledged)
  {
    assert T5.events[0].event.id == Random(15);
    assert MayAcknowledgeEvent(T5, 1, Random(15));
  }

  lemma Fetching()
    ensures Shows(T5, 2, Random(19), FetchWelcomes(0), Welcomes(0, [DELIVERY], false))
  {
    Named();
    var rows := T5.welcomes;
    assert rows[1..] == [];
    assert WelcomesAfter(rows, 2, 0) == rows;
    assert WelcomeSize(RECORD) <= 200;
    assert WelcomeRowSizes(rows)[1..] == [];
    assert Taken(WelcomeRowSizes(rows), 0, 0) == 1;
    assert rows[..1] == rows && DeliveriesOf(rows) == [DELIVERY];
  }

  lemma Acknowledging2()
    ensures Performs(T5, 2, RECEIPT2, CONFIRM2, T5, Acknowledged) && Small(CONFIRM2, Acknowledged)
  {
    assert T5.welcomes[0].cursor == 1;
    assert MayAcknowledgeWelcome(T5, 2, 1);
    assert VarintsSize([1]) == 1;
  }

  // ----- the opening -----

  const S0 := Stage(EMPTY, Fresh(1), Fresh(2), Fresh(3), 0, {})
  const S2 := Stage(EMPTY, A2, Fresh(2), Fresh(3), 2, {})
  const S4 := Stage(EMPTY, A2, B2, Fresh(3), 4, {})
  const S6 := Stage(EMPTY, A2, B2, C2, 6, {})
  const S8 := Stage(T1, A2, B2, C2, 8, {})
  const S10 := Stage(T2, A2, B2, C2, 10, {})
  const S12 := Stage(T3, A4, B2, C2, 12, {})
  const S13 := Stage(T3, A5, B2, C2, 13, {})
  const S15 := Stage(T4, A7, B2, C2, 15, {})
  const S17 := Stage(T5, A9, B2, C2, 17, {})
  const S18 := Stage(T5, A10, B2, C2, 18, {})
  const S19 := Stage(T5, A11, B2, C2, 19, {RECEIPT1})
  const S21 := Stage(T5, A11, B5, C2, 21, {RECEIPT1})
  const S22 := Stage(T5, A11, B6, C2, 22, {RECEIPT1})

  /** Users 1 and 2 are members of the room and have applied its whole log, one event. */
  const S23 := Stage(T5, A11, B7, C2, 23, {RECEIPT1, RECEIPT2})

  lemma Starts()
    ensures Stands(Start(USERS), S0)
  {
    assert Data(EMPTY) == EMPTY;
  }

  lemma Contacts()
    ensures Goes(Fresh(1), 1, Import(2), A1) && Goes(A1, 1, Import(3), A2)
    ensures Goes(Fresh(2), 2, Import(1), B1) && Goes(B1, 2, Import(3), B2)
    ensures Goes(Fresh(3), 3, Import(1), C1) && Goes(C1, 3, Import(2), C2)
  {
    assert {1} + {2} == {1, 2} && {1, 2} + {3} == {1, 2, 3};
    assert {2} + {1} == {1, 2} && {3} + {1} == {1, 3} && {1, 3} + {2} == {1, 2, 3};
  }

  lemma Verified1(w: World, limits: Limits) returns (w': World)
    requires Stands(w, S0)
    ensures Leads(w, limits, w') && Stands(w', S2)
  {
    Contacts();
    var w1 := Does(w, limits, S0, 1, Import(2), A1);
    w' := Does(w1, limits, Stepped(S0, 1, A1), 1, Import(3), A2);
    LeadsOn(w, limits, w1, w');
  }

  lemma Verified2(w: World, limits: Limits) returns (w': World)
    requires Stands(w, S2)
    ensures Leads(w, limits, w') && Stands(w', S4)
  {
    Contacts();
    var w1 := Does(w, limits, S2, 2, Import(1), B1);
    w' := Does(w1, limits, Stepped(S2, 2, B1), 2, Import(3), B2);
    LeadsOn(w, limits, w1, w');
  }

  lemma Verified3(w: World, limits: Limits) returns (w': World)
    requires Stands(w, S4)
    ensures Leads(w, limits, w') && Stands(w', S6)
  {
    Contacts();
    var w1 := Does(w, limits, S4, 3, Import(1), C1);
    w' := Does(w1, limits, Stepped(S4, 3, C1), 3, Import(2), C2);
    LeadsOn(w, limits, w1, w');
  }

  lemma Offers(w: World, limits: Limits) returns (w': World)
    requires Stands(w, S6) && Roomy(limits)
    ensures Leads(w, limits, w') && Stands(w', S10)
  {
    Publishes2();
    Publishing();
    var w1 := Orders(w, limits, S6, 2, Issue(Random(6), PUBLISH2), B3, PUBLISH2, T1, KeyPackagesPublished(1), B2);
    assert Ordered(S6, 2, T1, B2) == S8;
    Grants2();
    Granting();
    w' := Orders(w1, limits, S8, 2, Issue(Random(8), GRANT1), B4, GRANT1, T2, FetchGrantSet, B2);
    assert Ordered(S8, 2, T2, B2) == S10;
    LeadsOn(w, limits, w1, w');
  }

  lemma Opens(w: World, limits: Limits) returns (w': World)
    requires Stands(w, S10) && Roomy(limits)
    ensures Leads(w, limits, w') && Stands(w', S12)
  {
    Creates();
    Creating();
    w' := Orders(w, limits, S10, 1, Issue(Random(10), CREATE), A3, CREATE, T3, RoomCreated(ROOM), A4);
    assert Ordered(S10, 1, T3, A4) == S12;
  }

  lemma Invites(w: World, limits: Limits) returns (w': World)
    requires Stands(w, S12) && Roomy(limits)
    ensures Leads(w, limits, w') && Stands(w', S15)
  {
    Reserves1();
    var w1 := Does(w, limits, S12, 1, Intend(ROOM, ADD2), A5);
    assert Stepped(S12, 1, A5) == S13;
    Gets1();
    Reserving();
    w' := Orders(w1, limits, S13, 1, Build(ROOM, Random(13), BYTES), A6, ReserveKeyPackage(2), T4,
                 KeyPackage(2, PACKAGE2), A7);
    assert Ordered(S13, 1, T4, A7) == S15;
    LeadsOn(w, limits, w1, w');
  }

  lemma Adds(w: World, limits: Limits) returns (w': World)
    requires Stands(w, S15) && Roomy(limits)
    ensures Leads(w, limits, w') && Stands(w', S17)
  {
    Commits1();
    Appending();
    w' := Orders(w, limits, S15, 1, Build(ROOM, Random(15), BYTES), A8, AppendRoomOperation(FIRST.operation), T5,
                 AppendAccepted(FIRST), A9);
    assert Ordered(S15, 1, T5, A9) == S17;
  }

  lemma TakesUp(w: World, limits: Limits) returns (w': World)
    requires Stands(w, S17)
    ensures Leads(w, limits, w') && Stands(w', S18)
  {
    Applies1();
    w' := Does(w, limits, S17, 1, Apply(FIRST), A10);
  }

  lemma Reports(w: World, limits: Limits) returns (w': World)
    requires Stands(w, S18)
    ensures Leads(w, limits, w') && Stands(w', S19)
  {
    Reports1();
    Acknowledging1();
    w' := Confirms(w, limits, S18, 1, RECEIPT1, CONFIRM1, A11);
  }

  lemma Comes(w: World, limits: Limits) returns (w': World)
    requires Stands(w, S19)
    ensures Leads(w, limits, w') && Stands(w', S21)
  {
    Stores2();
    Fetching();
    w' := Learns(w, limits, S19, 2, FetchWelcomes(0), Welcomes(0, [DELIVERY], false), Store([DELIVERY]), B5);
  }

  lemma Enters(w: World, limits: Limits) returns (w': World)
    requires Stands(w, S21)
    ensures Leads(w, limits, w') && Stands(w', S22)
  {
    Joins2();
    w' := Does(w, limits, S21, 2, Process(1, true), B6);
  }

  lemma Arrives(w: World, limits: Limits) returns (w': World)
    requires Stands(w, S22)
    ensures Leads(w, limits, w') && Stands(w', S23)
  {
    Reports2();
    Acknowledging2();
    w' := Confirms(w, limits, S22, 2, RECEIPT2, CONFIRM2, B7);
    assert Confirmed(S22, 2, RECEIPT2, B7) == S23;
  }

  /** A run of the composed system after which users 1 and 2 share a room. */
  lemma Opening(limits: Limits) returns (w: World)
    requires Roomy(limits)
    ensures Leads(Start(USERS), limits, w) && Stands(w, S23)
  {
    Starts();
    var w0 := Start(USERS);
    var w1 := Verified1(w0, limits);
    var w2 := Verified2(w1, limits);
    LeadsOn(w0, limits, w1, w2);
    w1 := Verified3(w2, limits);
    LeadsOn(w0, limits, w2, w1);
    w2 := Offers(w1, limits);
    LeadsOn(w0, limits, w1, w2);
    var w3 := Opens(w2, limits);
    LeadsOn(w0, limits, w2, w3);
    var w4 := Invites(w3, limits);
    LeadsOn(w0, limits, w3, w4);
    var w5 := Adds(w4, limits);
    LeadsOn(w0, limits, w4, w5);
    var w6 := TakesUp(w5, limits);
    LeadsOn(w0, limits, w5, w6);
    var w7 := Reports(w6, limits);
    LeadsOn(w0, limits, w6, w7);
    var w8 := Comes(w7, limits);
    LeadsOn(w0, limits, w7, w8);
    var w9 := Enters(w8, limits);
    LeadsOn(w0, limits, w8, w9);
    w := Arrives(w9, limits);
    LeadsOn(w0, limits, w9, w);
  }
}
