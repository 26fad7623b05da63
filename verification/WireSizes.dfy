/** The encoded sizes that limits and pages count are the sizes of the encodings. */
module WireSizes {
  import opened Records
  import opened Sizes
  import opened Postcard
  import W = Wire
  import opened RelaySpec
  import opened RelayInvariants
  import opened Pages

  // ----- which bytes carry which record -----

  predicate CarriesName(w: bytes, name: string) { |w| == Utf8Size(name) }

  predicate CarriesAttachment(w: W.Attachment, r: WelcomeAttachment) { W.AttachmentOk(w) && w.body == r.body.bytes }

  predicate CarriesOperation(w: W.Operation, r: Append) {
    && W.OperationOk(w) && w.parent == r.parent && w.epoch == r.epoch && w.contentType == r.contentType
    && w.body == r.body.bytes && w.welcome.Some? == r.welcome.Some?
    && (w.welcome.Some? ==> CarriesAttachment(w.welcome.value, r.welcome.value))
  }

  predicate CarriesEvent(w: W.LogEvent, r: Event) { W.EventOk(w) && CarriesOperation(w.operation, r.operation) }

  predicate CarriesDelivery(w: W.Delivery, r: WelcomeDelivery) {
    W.DeliveryOk(w) && CarriesName(w.roomName, r.roomName) && w.cursor == r.cursor && w.sequence == r.sequence
    && CarriesAttachment(w.attachment, r.attachment)
  }

  predicate CarriesHead(w: W.Heading, r: RoomHead) {
    W.HeadingOk(w) && CarriesName(w.name, r.name) && w.sequence == r.sequence
  }

  predicate CarriesRequest(w: W.WireRequest, r: Request) {
    W.RequestOk(w) &&
    match (w, r)
    case (CreateRoom(n), CreateRoom(name)) => CarriesName(n, name)
    case (PublishKeyPackages(ps), PublishKeyPackages(packages)) =>
      |ps| == |packages| && forall i :: 0 <= i < |ps| ==> ps[i] == packages[i].bytes
    case (Acknowledge(es, ws), Acknowledge(events, welcomes)) => |es| == |events| && ws == welcomes
    case (AppendRoomOperation(o), AppendRoomOperation(operation)) => CarriesOperation(o, operation)
    case (FetchRoomEvents(_, a), FetchRoomEvents(_, after)) => a == after
    case (SyncIndex(a), SyncIndex(after)) => a.Some? == after.Some?
    case (FetchWelcomes(a), FetchWelcomes(after)) => a == after
    case (ReserveKeyPackage(_), ReserveKeyPackage(_)) => true
    case (SetFetchGrant(_, a), SetFetchGrant(_, allowed)) => a == allowed
    case _ => false
  }

  predicate CarriesResponse(w: W.WireResponse, r: Response) {
    W.ResponseOk(w) &&
    match (w, r)
    case (RoomCreated(_), RoomCreated(_)) => true
    case (KeyPackagesPublished(c), KeyPackagesPublished(count)) => c == count
    case (Acknowledged, Acknowledged) => true
    case (AppendAccepted(e), AppendAccepted(event)) => CarriesEvent(e, event)
    case (HeadConflict(_, h), HeadConflict(_, head)) => h == head
    case (RoomEvents(_, a, es, m), RoomEvents(_, after, events, more)) =>
      a == after && m == more && |es| == |events| && forall i :: 0 <= i < |es| ==> CarriesEvent(es[i], events[i])
    case (RoomIndex(hs, m), RoomIndex(rooms, more)) =>
      m == more && |hs| == |rooms| && forall i :: 0 <= i < |hs| ==> CarriesHead(hs[i], rooms[i])
    case (Welcomes(a, ws, m), Welcomes(after, welcomes, more)) =>
      a == after && m == more && |ws| == |welcomes| && forall i :: 0 <= i < |ws| ==> CarriesDelivery(ws[i], welcomes[i])
    case (KeyPackage(_, p), KeyPackage(_, package)) => p == package.bytes
    case (FetchGrantSet, FetchGrantSet) => true
    case (Rejected(a), Rejected(b)) => a == b
    case _ => false
  }

  // ----- their sizes -----

  lemma AttachmentLength(w: W.Attachment, r: WelcomeAttachment)
    requires CarriesAttachment(w, r)
    ensures |W.EncodeAttachment(w)| == AttachmentSize(r)
  {}

  lemma OperationLength(w: W.Operation, r: Append)
    requires CarriesOperation(w, r)
    ensures |W.EncodeOperation(w)| == AppendSize(r)
  {
    if w.welcome.Some? { AttachmentLength(w.welcome.value, r.welcome.value); }
  }

  lemma EventLength(w: W.LogEvent, r: Event)
    requires CarriesEvent(w, r)
    ensures |W.EncodeEvent(w)| == EventSize(r)
  {
    OperationLength(w.operation, r.operation);
  }

  lemma DeliveryLength(w: W.Delivery, r: WelcomeDelivery)
    requires CarriesDelivery(w, r)
    ensures |W.EncodeDelivery(w)| == WelcomeSize(r)
  {
    AttachmentLength(w.attachment, r.attachment);
  }

  lemma {:induction false} EventsLength(ws: seq<W.LogEvent>, rs: seq<Event>)
    requires |ws| == |rs| && forall i :: 0 <= i < |ws| ==> CarriesEvent(ws[i], rs[i])
    ensures |EncodeAll(ws, W.EncodeEvent)| == EventsSize(rs)
  {
    if ws != [] {
      EventLength(ws[0], rs[0]);
      EventsLength(ws[1..], rs[1..]);
    }
  }

  lemma {:induction false} DeliveriesLength(ws: seq<W.Delivery>, rs: seq<WelcomeDelivery>)
    requires |ws| == |rs| && forall i :: 0 <= i < |ws| ==> CarriesDelivery(ws[i], rs[i])
    ensures |EncodeAll(ws, W.EncodeDelivery)| == WelcomesSize(rs)
  {
    if ws != [] {
      DeliveryLength(ws[0], rs[0]);
      DeliveriesLength(ws[1..], rs[1..]);
    }
  }

  lemma {:induction false} HeadsLength(ws: seq<W.Heading>, rs: seq<RoomHead>)
    requires |ws| == |rs| && forall i :: 0 <= i < |ws| ==> CarriesHead(ws[i], rs[i])
    ensures |EncodeAll(ws, W.EncodeHeading)| == HeadsSize(rs)
  {
    if ws != [] {
      HeadsLength(ws[1..], rs[1..]);
    }
  }

  lemma {:induction false} BlobsLength(ws: seq<bytes>, rs: seq<Blob>)
    requires |ws| == |rs| && forall i :: 0 <= i < |ws| ==> ws[i] == rs[i].bytes
    ensures |EncodeAll(ws, EncodeBytes)| == BlobsSize(rs)
  {
    if ws != [] {
      BlobsLength(ws[1..], rs[1..]);
    }
  }

  lemma {:induction false} VarintsLength(ws: seq<nat>)
    ensures |EncodeAll(ws, EncodeVarint)| == VarintsSize(ws)
  {
    if ws != [] {
      VarintsLength(ws[1..]);
    }
  }

  /** The relay charges and admits requests by the size of their encoding. */
  lemma RequestLength(w: W.WireRequest, r: Request)
    requires CarriesRequest(w, r)
    ensures |W.EncodeRequest(w)| == RequestSize(r)
  {
    match w {
      case PublishKeyPackages(packages) => BlobsLength(packages, r.packages);
      case Acknowledge(events, welcomes) =>
        IdsLength(events);
        VarintsLength(welcomes);
      case AppendRoomOperation(operation) => OperationLength(operation, r.operation);
      case _ =>
    }
  }

  lemma ResponseLength(w: W.WireResponse, r: Response)
    requires CarriesResponse(w, r)
    ensures |W.EncodeResponse(w)| == ResponseSize(r)
  {
    match w {
      case AppendAccepted(event) => EventLength(event, r.event);
      case RoomEvents(_, _, events, _) => EventsLength(events, r.events);
      case RoomIndex(rooms, _) => HeadsLength(rooms, r.rooms);
      case Welcomes(_, welcomes, _) => DeliveriesLength(welcomes, r.welcomes);
      case _ =>
    }
  }

  /** Every page of room events leaves the relay as one message of at most 768 KiB. */
  lemma EventPageFits(limits: Limits, calls: seq<Call>, user: UserId, room: RoomId, after: nat, id: bytes,
                      w: W.WireResponse)
    requires forall i :: 0 <= i < |calls| ==> Words(calls[i].request)
    requires IsId(id)
    ensures var t := Run(EMPTY, limits, calls);
            (Subscribed(t, room, user) && after <= |Log(t, room)| && after <= I64_MAX
             && CarriesResponse(w, ExecuteFetch(t, user, room, after).response)) ==>
              W.Pack(W.EncodeRelay, W.RelayDelivery(id, w)).Some?
  {
    PageProgress(limits, calls, user, room, after);
    var t := Run(EMPTY, limits, calls);
    if Subscribed(t, room, user) && after <= |Log(t, room)| && after <= I64_MAX
       && CarriesResponse(w, ExecuteFetch(t, user, room, after).response) {
      ResponseLength(w, ExecuteFetch(t, user, room, after).response);
    }
  }
}
