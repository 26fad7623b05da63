/**
  The repository's byte fixtures of the V9 messages (crates/grotto-protocol/tests/fixtures/v9.hex):
  every tag, the order of the fields and the form of each field.
 */
module WireFixtures {
  import opened Records
  import opened Postcard
  import opened Wire

  function Fill(b: byte, n: nat): bytes { seq(n, _ => b) }

  const ID := Fill(0x11, 16)
  const ROOM := Fill(0x22, 16)
  const USER := Fill(0x33, 16)
  const EVENT := Fill(0x44, 16)

  /** "Cave" */
  const CAVE: bytes := [0x43, 0x61, 0x76, 0x65]

  const OPERATION := Operation(ROOM, 7, 3, Commit, [1, 2, 3], None)
  const LOGGED := LogEvent(EVENT, USER, OPERATION)
  const WELCOME :=
    Delivery(CAVE, 1, EVENT, ROOM, 8, USER, Attachment(Fill(0x55, 16), [0xaa, 0xbb], Fill(0x66, 64)))

  function Asked(request: WireRequest): bytes { EncodeClient(ClientDelivery(ID, request)) }

  function Answered(response: WireResponse): bytes { EncodeRelay(RelayDelivery(ID, response)) }

  lemma VecOne<T>(value: T, encode: T -> bytes)
    ensures EncodeVec([value], encode) == [1] + encode(value)
  {
    var one := [value];
    assert EncodeVarint(1) == [1];
    assert EncodeAll(one, encode) == encode(value) by {
      assert one[1..] == [] && encode(value) + [] == encode(value);
    }
  }

  lemma CreateRoomBytes()
    ensures Asked(WireRequest.CreateRoom(CAVE))
            == [0x64] + Fill(0x11, 16) + [0, 4, 0x43, 0x61, 0x76, 0x65]
  {}

  lemma PublishKeyPackagesBytes()
    ensures Asked(WireRequest.PublishKeyPackages([[0xaa, 0xbb]]))
            == [0x64] + Fill(0x11, 16) + [1, 1, 2, 0xaa, 0xbb]
  {
    VecOne([0xaa, 0xbb], EncodeBytes);
  }

  lemma AcknowledgeBytes()
    ensures Asked(WireRequest.Acknowledge([EVENT], []))
            == [0x64] + Fill(0x11, 16) + [2, 1] + Fill(0x44, 16) + [0]
  {
    VecOne(EVENT, Raw);
  }

  lemma AppendRoomOperationBytes()
    ensures Asked(WireRequest.AppendRoomOperation(OPERATION))
            == [0x64] + Fill(0x11, 16) + [3] + Fill(0x22, 16) + [7, 3, 2, 3, 1, 2, 3, 0]
  {}

  lemma FetchRoomEventsBytes()
    ensures Asked(WireRequest.FetchRoomEvents(ROOM, 7))
            == [0x64] + Fill(0x11, 16) + [4] + Fill(0x22, 16) + [7]
  {}

  lemma SyncIndexBytes()
    ensures Asked(WireRequest.SyncIndex(Some(ROOM)))
            == [0x64] + Fill(0x11, 16) + [5, 1] + Fill(0x22, 16)
  {}

  lemma FetchWelcomesBytes()
    ensures Asked(WireRequest.FetchWelcomes(7))
            == [0x64] + Fill(0x11, 16) + [6, 7]
  {}

  lemma ReserveKeyPackageBytes()
    ensures Asked(WireRequest.ReserveKeyPackage(USER))
            == [0x64] + Fill(0x11, 16) + [7] + Fill(0x33, 16)
  {}

  lemma SetFetchGrantBytes()
    ensures Asked(WireRequest.SetFetchGrant(USER, true))
            == [0x64] + Fill(0x11, 16) + [8] + Fill(0x33, 16) + [1]
  {}

  lemma RoomCreatedBytes()
    ensures Answered(WireResponse.RoomCreated(ROOM))
            == [0x64] + Fill(0x11, 16) + [0] + Fill(0x22, 16)
  {}

  lemma KeyPackagesPublishedBytes()
    ensures Answered(WireResponse.KeyPackagesPublished(2))
            == [0x64] + Fill(0x11, 16) + [1, 2]
  {}

  lemma AcknowledgedBytes()
    ensures Answered(WireResponse.Acknowledged)
            == [0x64] + Fill(0x11, 16) + [2]
  {}

  lemma AppendAcceptedBytes()
    ensures Answered(WireResponse.AppendAccepted(LOGGED))
            == [0x64] + Fill(0x11, 16) + [3] + Fill(0x44, 16) + Fill(0x33, 16) + Fill(0x22, 16)
               + [7, 3, 2, 3, 1, 2, 3, 0]
  {}

  lemma HeadConflictBytes()
    ensures Answered(WireResponse.HeadConflict(ROOM, 9))
            == [0x64] + Fill(0x11, 16) + [4] + Fill(0x22, 16) + [9]
  {}

  lemma RoomEventsBytes()
    ensures Answered(WireResponse.RoomEvents(ROOM, 7, [LOGGED], false))
            == [0x64] + Fill(0x11, 16) + [5] + Fill(0x22, 16) + [7, 1] + Fill(0x44, 16) + Fill(0x33, 16)
               + Fill(0x22, 16) + [7, 3, 2, 3, 1, 2, 3, 0, 0]
  {
    VecOne(LOGGED, EncodeEvent);
  }

  lemma RoomIndexBytes()
    ensures Answered(WireResponse.RoomIndex([Heading(ROOM, CAVE, 9)], false))
            == [0x64] + Fill(0x11, 16) + [6, 1] + Fill(0x22, 16) + [4, 0x43, 0x61, 0x76, 0x65, 9, 0]
  {
    VecOne(Heading(ROOM, CAVE, 9), EncodeHeading);
  }

  lemma WelcomesBytes()
    ensures Answered(WireResponse.Welcomes(0, [WELCOME], false))
            == [0x64] + Fill(0x11, 16) + [7, 0, 1, 4, 0x43, 0x61, 0x76, 0x65, 1] + Fill(0x44, 16)
               + Fill(0x22, 16) + [8] + Fill(0x33, 16) + Fill(0x55, 16) + [2, 0xaa, 0xbb] + Fill(0x66, 64)
               + [0]
  {
    VecOne(WELCOME, EncodeDelivery);
  }

  lemma KeyPackageBytes()
    ensures Answered(WireResponse.KeyPackage(USER, [0xaa, 0xbb]))
            == [0x64] + Fill(0x11, 16) + [8] + Fill(0x33, 16) + [2, 0xaa, 0xbb]
  {}

  lemma FetchGrantSetBytes()
    ensures Answered(WireResponse.FetchGrantSet)
            == [0x64] + Fill(0x11, 16) + [9]
  {}

  lemma RejectedBytes()
    ensures Answered(WireResponse.Rejected(RequestConflict))
            == [0x64] + Fill(0x11, 16) + [0x0a, 3]
  {}

  /** The bytes of one request of every kind. */
  lemma RequestFixtures()
    ensures Asked(WireRequest.CreateRoom(CAVE))
            == [0x64] + Fill(0x11, 16) + [0, 4, 0x43, 0x61, 0x76, 0x65]
    ensures Asked(WireRequest.PublishKeyPackages([[0xaa, 0xbb]]))
            == [0x64] + Fill(0x11, 16) + [1, 1, 2, 0xaa, 0xbb]
    ensures Asked(WireRequest.Acknowledge([EVENT], []))
            == [0x64] + Fill(0x11, 16) + [2, 1] + Fill(0x44, 16) + [0]
    ensures Asked(WireRequest.AppendRoomOperation(OPERATION))
            == [0x64] + Fill(0x11, 16) + [3] + Fill(0x22, 16) + [7, 3, 2, 3, 1, 2, 3, 0]
    ensures Asked(WireRequest.FetchRoomEvents(ROOM, 7))
            == [0x64] + Fill(0x11, 16) + [4] + Fill(0x22, 16) + [7]
    ensures Asked(WireRequest.SyncIndex(Some(ROOM)))
            == [0x64] + Fill(0x11, 16) + [5, 1] + Fill(0x22, 16)
    ensures Asked(WireRequest.FetchWelcomes(7))
            == [0x64] + Fill(0x11, 16) + [6, 7]
    ensures Asked(WireRequest.ReserveKeyPackage(USER))
            == [0x64] + Fill(0x11, 16) + [7] + Fill(0x33, 16)
    ensures Asked(WireRequest.SetFetchGrant(USER, true))
            == [0x64] + Fill(0x11, 16) + [8] + Fill(0x33, 16) + [1]
  {
    CreateRoomBytes();
    PublishKeyPackagesBytes();
    AcknowledgeBytes();
    AppendRoomOperationBytes();
    FetchRoomEventsBytes();
    SyncIndexBytes();
    FetchWelcomesBytes();
    ReserveKeyPackageBytes();
    SetFetchGrantBytes();
  }

  /** The bytes of one response of every kind. */
  lemma ResponseFixtures()
    ensures Answered(WireResponse.RoomCreated(ROOM))
            == [0x64] + Fill(0x11, 16) + [0] + Fill(0x22, 16)
    ensures Answered(WireResponse.KeyPackagesPublished(2))
            == [0x64] + Fill(0x11, 16) + [1, 2]
    ensures Answered(WireResponse.Acknowledged)
            == [0x64] + Fill(0x11, 16) + [2]
    ensures Answered(WireResponse.AppendAccepted(LOGGED))
            == [0x64] + Fill(0x11, 16) + [3] + Fill(0x44, 16) + Fill(0x33, 16) + Fill(0x22, 16)
               + [7, 3, 2, 3, 1, 2, 3, 0]
    ensures Answered(WireResponse.HeadConflict(ROOM, 9))
            == [0x64] + Fill(0x11, 16) + [4] + Fill(0x22, 16) + [9]
    ensures Answered(WireResponse.RoomEvents(ROOM, 7, [LOGGED], false))
            == [0x64] + Fill(0x11, 16) + [5] + Fill(0x22, 16) + [7, 1] + Fill(0x44, 16) + Fill(0x33, 16)
               + Fill(0x22, 16) + [7, 3, 2, 3, 1, 2, 3, 0, 0]
    ensures Answered(WireResponse.RoomIndex([Heading(ROOM, CAVE, 9)], false))
            == [0x64] + Fill(0x11, 16) + [6, 1] + Fill(0x22, 16) + [4, 0x43, 0x61, 0x76, 0x65, 9, 0]
    ensures Answered(WireResponse.Welcomes(0, [WELCOME], false))
            == [0x64] + Fill(0x11, 16) + [7, 0, 1, 4, 0x43, 0x61, 0x76, 0x65, 1] + Fill(0x44, 16)
               + Fill(0x22, 16) + [8] + Fill(0x33, 16) + Fill(0x55, 16) + [2, 0xaa, 0xbb] + Fill(0x66, 64)
               + [0]
    ensures Answered(WireResponse.KeyPackage(USER, [0xaa, 0xbb]))
            == [0x64] + Fill(0x11, 16) + [8] + Fill(0x33, 16) + [2, 0xaa, 0xbb]
    ensures Answered(WireResponse.FetchGrantSet)
            == [0x64] + Fill(0x11, 16) + [9]
    ensures Answered(WireResponse.Rejected(RequestConflict))
            == [0x64] + Fill(0x11, 16) + [0x0a, 3]
  {
    RoomCreatedBytes();
    KeyPackagesPublishedBytes();
    AcknowledgedBytes();
    AppendAcceptedBytes();
    HeadConflictBytes();
    RoomEventsBytes();
    RoomIndexBytes();
    WelcomesBytes();
    KeyPackageBytes();
    FetchGrantSetBytes();
    RejectedBytes();
  }
}
