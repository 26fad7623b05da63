/**
  Two honest members add the same contact. The relay takes the commit that comes first; the
  other member learns of it, keeps its own intent and can never build it again.
 */
module AddConflicts {
  import opened Records
  import opened Sizes
  import opened RelaySpec
  import opened ClientSpec
  import opened Sync
  import opened World
  import opened Agreement
  import opened Settlements
  import opened LateAdds
  import opened Scenes
  import opened Members

  // ----- when an add can be built -----

  /** In every reachable state an add that holds its package and has no attempt is for a verified
      contact, and it can be built if and only if that contact is not yet a member. */
  lemma AddBuildable(
    users: set<UserId>, limits: Limits, moves: seq<Move>, user: UserId, room: RoomId, id: MessageId, bytes: Ciphertext)
    ensures var w := Reached(users, limits, moves);
            user in w.clients && AddWaits(w.clients[user].db, room) && Unseen(w.clients[user].db, id) ==>
              var db := w.clients[user].db;
              var contact := db.intents[room].target.value;
              && room in db.groups && contact in db.contacts
              && (BuildAttempt(db, user, room, id, bytes).Some? <==> contact !in db.groups[room].group.roster)
  {
    var w := Reached(users, limits, moves);
    ClientReached(users, limits, moves, user);
    ReachedOrderly(users, limits, moves);
    if user in w.clients && AddWaits(w.clients[user].db, room) && Unseen(w.clients[user].db, id) {
      AttemptBookkeeping(users, limits, moves, user, room, id);
      assert TargetsKnown(w.clients[user].db);
      CanAdd(w.clients[user].db, user, room, id, bytes);
    }
  }

  lemma CanAdd(db: Database, user: UserId, room: RoomId, id: MessageId, bytes: Ciphertext)
    requires AddWaits(db, room) && PackagesTrue(db.intents) && id !in db.outbox
    requires room in db.groups && db.groups[room].group.roster <= db.contacts && db.groups[room].pending.None?
    ensures BuildAttempt(db, user, room, id, bytes).Some? <==>
            db.intents[room].target.value in db.contacts
            && db.intents[room].target.value !in db.groups[room].group.roster
  {}

  const PACKAGE3 := Blob([4], KeyPackageMessage(3))
  const SPARE3 := Blob([5], KeyPackageMessage(3))
  const TRIO := Group(2, {1, 2, 3})

  // ----- user 3 offers two packages and lets both members fetch one -----

  const PUBLISH3 := PublishKeyPackages([PACKAGE3, SPARE3])
  const ALLOW1 := SetFetchGrant(1, true)
  const ALLOW2 := SetFetchGrant(2, true)
  const C3 := C2.(outbox := map[Random(23) := OutboxRow(1, PUBLISH3)])
  const C4 := C2.(outbox := map[Random(25) := OutboxRow(1, ALLOW1)])
  const C5 := C2.(outbox := map[Random(27) := OutboxRow(1, ALLOW2)])
  const T7 := T5.(packages := [PackageRow(3, PACKAGE3), PackageRow(3, SPARE3)])
  const T8 := T7.(grants := {(2, 1), (3, 1)})
  const T9 := T7.(grants := {(2, 1), (3, 1), (3, 2)})
  const RECEIPTS: set<MessageId> := {RECEIPT1, RECEIPT2}
  const S25 := Stage(T7, A11, B7, C2, 25, RECEIPTS)
  const S27 := Stage(T8, A11, B7, C2, 27, RECEIPTS)
  const S29 := Stage(T9, A11, B7, C2, 29, RECEIPTS)

  lemma TwoBlobs(a: Blob, b: Blob)
    requires |a.bytes| == 1 && |b.bytes| == 1
    ensures TotalBytes([a, b]) == 2 && BlobsSize([a, b]) == 4
  {
    OneBlob(b);
    assert [a, b][1..] == [b];
  }

  lemma Publishes3()
    ensures Goes(C2, 3, Issue(Random(23), PUBLISH3), C3) && Asking(C3, Random(23), PUBLISH3)
    ensures Goes(C3, 3, Answer(Random(23), KeyPackagesPublished(2)), C2)
    ensures Small(PUBLISH3, KeyPackagesPublished(2))
  {
    TwoBlobs(PACKAGE3, SPARE3);
    assert C3.outbox - {Random(23)} == map[];
  }

  lemma Publishing3()
    ensures Performs(T5, 3, Random(23), PUBLISH3, T7, KeyPackagesPublished(2))
  {
    TwoBlobs(PACKAGE3, SPARE3);
    assert PackageRows(3, [PACKAGE3, SPARE3]) == [PackageRow(3, PACKAGE3), PackageRow(3, SPARE3)];
    assert T5.packages + PackageRows(3, [PACKAGE3, SPARE3]) == T7.packages;
  }

  lemma Allows3()
    ensures Goes(C2, 3, Issue(Random(25), ALLOW1), C4) && Goes(C4, 3, Answer(Random(25), FetchGrantSet), C2)
    ensures Goes(C2, 3, Issue(Random(27), ALLOW2), C5) && Goes(C5, 3, Answer(Random(27), FetchGrantSet), C2)
  {
    assert C4.outbox - {Random(25)} == map[] && C5.outbox - {Random(27)} == map[];
  }

  lemma Allowing3()
    ensures Performs(T7, 3, Random(25), ALLOW1, T8, FetchGrantSet) && Small(ALLOW1, FetchGrantSet)
    ensures Performs(T8, 3, Random(27), ALLOW2, T9, FetchGrantSet) && Small(ALLOW2, FetchGrantSet)
  {
    assert T7.grants + {(3, 1)} == T8.grants && T8.grants + {(3, 2)} == T9.grants;
  }

  lemma Provides(w: World, limits: Limits) returns (w': World)
    requires Stands(w, S23) && Roomy(limits)
    ensures Leads(w, limits, w') && Stands(w', S25)
  {
    Publishes3();
    Publishing3();
    w' := Orders(w, limits, S23, 3, Issue(Random(23), PUBLISH3), C3, PUBLISH3, T7, KeyPackagesPublished(2), C2);
  }

  lemma AllowsOne(w: World, limits: Limits) returns (w': World)
    requires Stands(w, S25) && Roomy(limits)
    ensures Leads(w, limits, w') && Stands(w', S27)
  {
    Allows3();
    Allowing3();
    w' := Orders(w, limits, S25, 3, Issue(Random(25), ALLOW1), C4, ALLOW1, T8, FetchGrantSet, C2);
  }

  lemma AllowsBoth(w: World, limits: Limits) returns (w': World)
    requires Stands(w, S27) && Roomy(limits)
    ensures Leads(w, limits, w') && Stands(w', S29)
  {
    Allows3();
    Allowing3();
    w' := Orders(w, limits, S27, 3, Issue(Random(27), ALLOW2), C5, ALLOW2, T9, FetchGrantSet, C2);
  }

  // ----- user 2 adds user 3 -----

  const WISH2 := Add(Random(29), 3)
  const OTHER := Event(Random(32), 2, CommitOf(2, Random(32), 1, PAIR, 3))
  const B8 := B7.(intents := map[ROOM := WISH2])
  const B9 := B7.(intents := map[ROOM := WISH2.(attempt := Some(Random(30)))],
                  outbox := map[Random(30) := OutboxRow(1, ReserveKeyPackage(3))])
  const B10 := B7.(intents := map[ROOM := WISH2.(package := Some(PACKAGE3))])
  const B11 := B7.(intents := map[ROOM := WISH2.(package := Some(PACKAGE3), attempt := Some(Random(32)))],
                   groups := map[ROOM := GroupState(PAIR, Some(TRIO), 0)],
                   outbox := map[Random(32) := OutboxRow(1, AppendRoomOperation(OTHER.operation))])
  const B12 := B11.(inbox := map[Random(32) := InboxRow(OTHER, Pending)])
  const T10 := T9.(packages := [PackageRow(3, SPARE3)], allocations := [Allocation(1, 2, 0), Allocation(2, 3, 0)])
  const RECORD3 := WelcomeDelivery("r", 0, Random(32), ROOM, 2, 2, OTHER.operation.welcome.value)
  const T11 := T10.(events := [EventRow(ROOM, 1, FIRST), EventRow(ROOM, 2, OTHER)],
                    welcomes := [WelcomeRow(1, 2, RECORD), WelcomeRow(2, 3, RECORD3)],
                    subscribers := {(ROOM, 1), (ROOM, 2), (ROOM, 3)})
  const S30 := Stage(T9, A11, B8, C2, 30, RECEIPTS)
  const S32 := Stage(T10, A11, B10, C2, 32, RECEIPTS)
  const S34 := Stage(T11, A11, B12, C2, 34, RECEIPTS)

  lemma Wishes2()
    ensures Goes(B7, 2, Intend(ROOM, WISH2), B8)
  {}

  lemma Reserves2()
    ensures Goes(B8, 2, Build(ROOM, Random(30), BYTES), B9) && Asking(B9, Random(30), ReserveKeyPackage(3))
  {
    assert !Backlog(B8, ROOM);
    assert B8.intents[ROOM := WISH2.(attempt := Some(Random(30)))] == B9.intents;
  }

  lemma Gets2()
    ensures Goes(B9, 2, Answer(Random(30), KeyPackage(3, PACKAGE3)), B10)
  {
    assert ReservingRooms(B9.intents, Random(30), 3) == {ROOM};
    assert AttachPackage(B9.intents, Random(30), 3, PACKAGE3) == B10.intents;
    assert B9.outbox - {Random(30)} == map[];
  }

  lemma Commits2()
    ensures Goes(B10, 2, Build(ROOM, Random(32), BYTES), B11)
    ensures Asking(B11, Random(32), AppendRoomOperation(OTHER.operation))
  {
    CommitSizes(2, Random(32), 1, PAIR, 3);
    assert !Backlog(B10, ROOM);
    assert Added(PAIR, 3) == TRIO;
    assert B10.intents[ROOM := WISH2.(package := Some(PACKAGE3), attempt := Some(Random(32)))] == B11.intents;
    assert B10.groups[ROOM := GroupState(PAIR, Some(TRIO), 0)] == B11.groups;
  }

  lemma Accepts2()
    ensures Goes(B11, 2, Answer(Random(32), AppendAccepted(OTHER)), B12)
  {}

  lemma {:induction false} FewAllocations(rows: seq<Allocation>, recipient: UserId,
                                          requester: Option<UserId>, after: int)
    ensures AllocationsAfter(rows, recipient, requester, after) <= |rows|
  {
    if rows != [] {
      FewAllocations(rows[..|rows| - 1], recipient, requester, after);
    }
  }

  lemma FirstOfTwo(a: PackageRow, b: PackageRow)
    requires a.user == b.user
    ensures Pool([a, b], a.user) == [a.package, b.package] && WithoutFirst([a, b], a.user) == [b]
  {
    assert [a, b][1..] == [b] && [b][1..] == [];
    assert Pool([b], a.user) == [b.package];
  }

  lemma Reserving2()
    ensures Performs(T9, 2, Random(30), ReserveKeyPackage(3), T10, KeyPackage(3, PACKAGE3))
    ensures Small(ReserveKeyPackage(3), KeyPackage(3, PACKAGE3))
  {
    FirstOfTwo(PackageRow(3, PACKAGE3), PackageRow(3, SPARE3));
    FewAllocations(T9.allocations, 3, None, -3600);
    FewAllocations(T9.allocations, 3, Some(2), -3600);
    assert T9.allocations + [Allocation(2, 3, 0)] == T10.allocations;
  }

  lemma Appending2()
    ensures Performs(T10, 2, Random(32), AppendRoomOperation(OTHER.operation), T11, AppendAccepted(OTHER))
    ensures Small(AppendRoomOperation(OTHER.operation), AppendAccepted(OTHER))
  {
    CommitSizes(2, Random(32), 1, PAIR, 3);
    Named();
    assert T10.events[..0] == [] && Head(T10.events, ROOM) == 1;
    assert WelcomeSize(RECORD3) <= 200;
    assert T10.events + [EventRow(ROOM, 2, OTHER)] == T11.events;
    assert T10.welcomes + [WelcomeRow(2, 3, RECORD3)] == T11.welcomes;
    assert T10.subscribers + {(ROOM, 3)} == T11.subscribers;
  }

  lemma Wishes(w: World, limits: Limits) returns (w': World)
    requires Stands(w, S29)
    ensures Leads(w, limits, w') && Stands(w', S30)
  {
    Wishes2();
    w' := Does(w, limits, S29, 2, Intend(ROOM, WISH2), B8);
  }

  lemma Fetches(w: World, limits: Limits) returns (w': World)
    requires Stands(w, S30) && Roomy(limits)
    ensures Leads(w, limits, w') && Stands(w', S32)
  {
    Reserves2();
    Gets2();
    Reserving2();
    w' := Orders(w, limits, S30, 2, Build(ROOM, Random(30), BYTES), B9, ReserveKeyPackage(3), T10,
                 KeyPackage(3, PACKAGE3), B10);
  }

  lemma Wins(w: World, limits: Limits) returns (w': World)
    requires Stands(w, S32) && Roomy(limits)
    ensures Leads(w, limits, w') && Stands(w', S34)
  {
    Commits2();
    Accepts2();
    Appending2();
    w' := Orders(w, limits, S32, 2, Build(ROOM, Random(32), BYTES), B11, AppendRoomOperation(OTHER.operation), T11,
                 AppendAccepted(OTHER), B12);
  }

  // ----- user 1 comes too late -----

  const WISH1 := Add(Random(34), 3)
  const LOST := CommitOf(1, Random(37), 1, PAIR, 3)
  const A12 := A11.(intents := map[ROOM := WISH1])
  const A13 := A11.(intents := map[ROOM := WISH1.(attempt := Some(Random(35)))],
                    outbox := map[Random(35) := OutboxRow(1, ReserveKeyPackage(3))])
  const A14 := A11.(intents := map[ROOM := WISH1.(package := Some(SPARE3))])
  const A15 := A11.(intents := map[ROOM := WISH1.(package := Some(SPARE3), attempt := Some(Random(37)))],
                    groups := map[ROOM := GroupState(PAIR, Some(TRIO), 0)],
                    outbox := map[Random(37) := OutboxRow(1, AppendRoomOperation(LOST))])
  const A16 := A14.(inbox := map[Random(15) := InboxRow(FIRST, Applied), Random(32) := InboxRow(OTHER, Pending)])
  const CONFIRM := Acknowledge([Random(32)], [])
  const A17 := A16.(groups := map[ROOM := GroupState(TRIO, None, 1)], cursors := map[ROOM := 2],
                    inbox := map[Random(15) := InboxRow(FIRST, Applied), Random(32) := InboxRow(OTHER, Applied)],
                    outbox := map[AcknowledgementId(1, [Random(32)], []) := OutboxRow(1, CONFIRM)])
  const T12 := T11.(packages := [],
                    allocations := [Allocation(1, 2, 0), Allocation(2, 3, 0), Allocation(1, 3, 0)])
  const S35 := Stage(T11, A12, B12, C2, 35, RECEIPTS)
  const S37 := Stage(T12, A14, B12, C2, 37, RECEIPTS)
  const S39 := Stage(T12, A14, B12, C2, 39, RECEIPTS)
  const S41 := Stage(T12, A16, B12, C2, 41, RECEIPTS)
  const S42 := Stage(T12, A17, B12, C2, 42, RECEIPTS)

  lemma Wishes1()
    ensures Goes(A11, 1, Intend(ROOM, WISH1), A12)
  {}

  lemma ReservesLate()
    ensures Goes(A12, 1, Build(ROOM, Random(35), BYTES), A13) && Asking(A13, Random(35), ReserveKeyPackage(3))
  {
    assert !Backlog(A12, ROOM);
    assert A12.intents[ROOM := WISH1.(attempt := Some(Random(35)))] == A13.intents;
  }

  lemma GetsLate()
    ensures Goes(A13, 1, Answer(Random(35), KeyPackage(3, SPARE3)), A14)
  {
    assert ReservingRooms(A13.intents, Random(35), 3) == {ROOM};
    assert AttachPackage(A13.intents, Random(35), 3, SPARE3) == A14.intents;
    assert A13.outbox - {Random(35)} == map[];
  }

  lemma CommitsLate()
    ensures Goes(A14, 1, Build(ROOM, Random(37), BYTES), A15)
    ensures Asking(A15, Random(37), AppendRoomOperation(LOST))
  {
    CommitSizes(1, Random(37), 1, PAIR, 3);
    assert !Backlog(A14, ROOM);
    assert Added(PAIR, 3) == TRIO;
    assert A14.intents[ROOM := WISH1.(package := Some(SPARE3), attempt := Some(Random(37)))] == A15.intents;
    assert A14.groups[ROOM := GroupState(PAIR, Some(TRIO), 0)] == A15.groups;
  }

  lemma Conflicts1()
    ensures Goes(A15, 1, Answer(Random(37), HeadConflict(ROOM, 2)), A14)
  {
    assert A15.groups[ROOM := GroupState(PAIR, None, 0)] == A14.groups;
    assert A15.outbox - {Random(37)} == map[] && A15.history - {Random(37)} == A14.history;
    assert Detach(A15.intents, Random(37)) == A14.intents;
  }

  lemma Hears1()
    ensures Goes(A14, 1, Receive(OTHER), A16) && Follows(A14, RoomEvents(ROOM, 1, [OTHER], false), Receive(OTHER))
  {
    assert A14.inbox[Random(32) := InboxRow(OTHER, Pending)] == A16.inbox;
  }

  lemma AppliesOther1()
    ensures Goes(A16, 1, Apply(OTHER), A17)
  {
    assert Added(PAIR, 3) == TRIO;
    assert A16.groups[ROOM := GroupState(TRIO, None, 1)] == A17.groups;
    assert A16.cursors[ROOM := 2] == A17.cursors;
    assert MarkRow(A16.inbox, Random(32), Applied) == A17.inbox;
  }

  lemma ReservingLate()
    ensures Performs(T11, 1, Random(35), ReserveKeyPackage(3), T12, KeyPackage(3, SPARE3))
    ensures Small(ReserveKeyPackage(3), KeyPackage(3, SPARE3))
  {
    assert T11.packages[1..] == [];
    assert Pool(T11.packages, 3) == [SPARE3];
    FewAllocations(T11.allocations, 3, None, -3600);
    FewAllocations(T11.allocations, 3, Some(1), -3600);
    assert T11.allocations + [Allocation(1, 3, 0)] == T12.allocations;
  }

  lemma HeadOfTwo(a: EventRow, b: EventRow)
    requires a.room == ROOM && b.room == ROOM && a.sequence == 1 && b.sequence == 2
    ensures Head([a, b], ROOM) == 2 && RowsOf([a, b], ROOM) == [a, b] && RowsAfter([a, b], 1) == [b]
  {
    assert [a, b][1..] == [b] && [b][1..] == [] && RowsAfter([b], 1) == [b];
    assert [a, b][..1] == [a] && [a][..0] == [];
    assert Head([a], ROOM) == 1 && RowsOf([a], ROOM) == [a];
  }

  lemma AppendingLate()
    ensures Performs(T12, 1, Random(37), AppendRoomOperation(LOST), T12, HeadConflict(ROOM, 2))
    ensures Small(AppendRoomOperation(LOST), HeadConflict(ROOM, 2))
  {
    CommitSizes(1, Random(37), 1, PAIR, 3);
    HeadOfTwo(EventRow(ROOM, 1, FIRST), EventRow(ROOM, 2, OTHER));
  }

  lemma OneRow(row: EventRow)
    requires EventSize(row.event) <= 200
    ensures Taken(RowSizes([row]), 0, 0) == 1 && EventsOf([row][..1]) == [row.event]
  {
    assert RowSizes([row])[1..] == [] && [row][..1] == [row];
  }

  lemma FetchingLate()
    ensures Shows(T12, 1, Random(39), FetchRoomEvents(ROOM, 1), RoomEvents(ROOM, 1, [OTHER], false))
  {
    HeadOfTwo(EventRow(ROOM, 1, FIRST), EventRow(ROOM, 2, OTHER));
    CommitSizes(2, Random(32), 1, PAIR, 3);
    OneRow(EventRow(ROOM, 2, OTHER));
  }

  lemma WishesToo(w: World, limits: Limits) returns (w': World)
    requires Stands(w, S34)
    ensures Leads(w, limits, w') && Stands(w', S35)
  {
    Wishes1();
    w' := Does(w, limits, S34, 1, Intend(ROOM, WISH1), A12);
  }

  lemma FetchesToo(w: World, limits: Limits) returns (w': World)
    requires Stands(w, S35) && Roomy(limits)
    ensures Leads(w, limits, w') && Stands(w', S37)
  {
    ReservesLate();
    GetsLate();
    ReservingLate();
    w' := Orders(w, limits, S35, 1, Build(ROOM, Random(35), BYTES), A13, ReserveKeyPackage(3), T12,
                 KeyPackage(3, SPARE3), A14);
  }

  lemma Loses(w: World, limits: Limits) returns (w': World)
    requires Stands(w, S37) && Roomy(limits)
    ensures Leads(w, limits, w') && Stands(w', S39)
  {
    CommitsLate();
    Conflicts1();
    AppendingLate();
    w' := Orders(w, limits, S37, 1, Build(ROOM, Random(37), BYTES), A15, AppendRoomOperation(LOST), T12,
                 HeadConflict(ROOM, 2), A14);
  }

  lemma Hears(w: World, limits: Limits) returns (w': World)
    requires Stands(w, S39)
    ensures Leads(w, limits, w') && Stands(w', S41)
  {
    Hears1();
    FetchingLate();
    w' := Learns(w, limits, S39, 1, FetchRoomEvents(ROOM, 1), RoomEvents(ROOM, 1, [OTHER], false), Receive(OTHER), A16);
  }

  lemma Follows1(w: World, limits: Limits) returns (w': World)
    requires Stands(w, S41)
    ensures Leads(w, limits, w') && Stands(w', S42)
  {
    AppliesOther1();
    w' := Does(w, limits, S41, 1, Apply(OTHER), A17);
  }

  lemma Race(w: World, limits: Limits) returns (w': World)
    requires Stands(w, S23) && Roomy(limits)
    ensures Leads(w, limits, w') && Stands(w', S34)
  {
    var w1 := Provides(w, limits);
    var w2 := AllowsOne(w1, limits);
    LeadsOn(w, limits, w1, w2);
    var w3 := AllowsBoth(w2, limits);
    LeadsOn(w, limits, w2, w3);
    var w4 := Wishes(w3, limits);
    LeadsOn(w, limits, w3, w4);
    var w5 := Fetches(w4, limits);
    LeadsOn(w, limits, w4, w5);
    w' := Wins(w5, limits);
    LeadsOn(w, limits, w5, w');
  }

  lemma Loss(w: World, limits: Limits) returns (w': World)
    requires Stands(w, S34) && Roomy(limits)
    ensures Leads(w, limits, w') && Stands(w', S42)
  {
    var w1 := WishesToo(w, limits);
    var w2 := FetchesToo(w1, limits);
    LeadsOn(w, limits, w1, w2);
    var w3 := Loses(w2, limits);
    LeadsOn(w, limits, w2, w3);
    var w4 := Hears(w3, limits);
    LeadsOn(w, limits, w3, w4);
    w' := Follows1(w4, limits);
    LeadsOn(w, limits, w4, w');
  }

  lemma IsTooLate()
    ensures TooLate(A17, ROOM) && !Backlog(A17, ROOM) && HasGroup(A17, ROOM)
  {}

  /** Two honest members, one relay and one contact: a run after which the member who came second
      has an add that can neither be built nor given up, with nothing left to receive. */
  lemma TwoAdders(limits: Limits) returns (moves: seq<Move>)
    requires Roomy(limits)
    ensures var w := Reached(USERS, limits, moves);
            && 1 in w.clients && TooLate(w.clients[1].db, ROOM)
            && !Backlog(w.clients[1].db, ROOM) && HasGroup(w.clients[1].db, ROOM)
  {
    var w0 := Start(USERS);
    var w1 := Opening(limits);
    var w2 := Race(w1, limits);
    LeadsOn(w0, limits, w1, w2);
    var w := Loss(w2, limits);
    LeadsOn(w0, limits, w2, w);
    moves :| RunWorld(w0, limits, moves) == w;
    IsTooLate();
  }
}
