/**
  The V9 messages on the wire (crates/grotto-protocol/src/delivery.rs and lib.rs): every
  variant is a tag byte followed by its fields. Identifiers, keys and signatures are byte
  strings of fixed length, text is UTF-8.
 */
module Wire {
  import opened Records
  import opened Postcard

  // ----- records -----

  datatype Attachment = Attachment(recipient: bytes, body: bytes, signature: bytes)
  datatype Operation = Operation(
    room: bytes, parent: nat, epoch: nat, contentType: ContentType, body: bytes, welcome: Option<Attachment>)
  datatype LogEvent = LogEvent(id: bytes, sender: bytes, operation: Operation)
  datatype Delivery = Delivery(
    roomName: bytes, cursor: nat, event: bytes, room: bytes, sequence: nat, inviter: bytes, attachment: Attachment)
  datatype Heading = Heading(room: bytes, name: bytes, sequence: nat)

  predicate IsWord(n: nat) { n <= U64_MAX }
  predicate IsName(b: bytes) { |b| <= 400 && IsUtf8(b) }

  predicate AttachmentOk(v: Attachment) {
    IsId(v.recipient) && |v.body| <= MAX_MLS_BLOB_BYTES && |v.signature| == 64
  }

  predicate OperationOk(v: Operation) {
    IsId(v.room) && IsWord(v.parent) && IsWord(v.epoch) && |v.body| <= MAX_MLS_BLOB_BYTES
    && (v.welcome.Some? ==> AttachmentOk(v.welcome.value))
  }

  predicate EventOk(v: LogEvent) { IsId(v.id) && IsId(v.sender) && OperationOk(v.operation) }

  predicate DeliveryOk(v: Delivery) {
    IsName(v.roomName) && IsWord(v.cursor) && IsId(v.event) && IsId(v.room) && IsWord(v.sequence) && IsId(v.inviter)
    && AttachmentOk(v.attachment)
  }

  predicate HeadingOk(v: Heading) { IsId(v.room) && IsName(v.name) && IsWord(v.sequence) }

  function DecodeId(b: bytes): Option<(bytes, bytes)> { DecodeArray(16, b) }
  function DecodeKey(b: bytes): Option<(bytes, bytes)> { DecodeArray(32, b) }
  function DecodeSignature(b: bytes): Option<(bytes, bytes)> { DecodeArray(64, b) }
  function DecodeBody(b: bytes): Option<(bytes, bytes)> { DecodeBytes(MAX_MLS_BLOB_BYTES, b) }
  function DecodePackage(b: bytes): Option<(bytes, bytes)> { DecodeBytes(MAX_KEY_PACKAGE_BYTES, b) }
  function DecodeName(b: bytes): Option<(bytes, bytes)> { DecodeText(400, b) }

  function EncodeAttachment(v: Attachment): bytes { v.recipient + (EncodeBytes(v.body) + v.signature) }

  function DecodeAttachment(b: bytes): Option<(Attachment, bytes)> {
    var recipient :- DecodeId(b);
    var body :- DecodeBody(recipient.1);
    var signature :- DecodeSignature(body.1);
    Some((Attachment(recipient.0, body.0, signature.0), signature.1))
  }

  lemma Glue(a: bytes, b: bytes, c: bytes)
    ensures (a + b) + c == a + (b + c)
  {}

  lemma AttachmentRoundTrip(v: Attachment, rest: bytes)
    requires AttachmentOk(v)
    ensures DecodeAttachment(EncodeAttachment(v) + rest) == Some((v, rest))
  {
    Glue(v.recipient, EncodeBytes(v.body) + v.signature, rest);
    Glue(EncodeBytes(v.body), v.signature, rest);
    ArrayRoundTrip(v.recipient, EncodeBytes(v.body) + (v.signature + rest));
    BytesRoundTrip(v.body, MAX_MLS_BLOB_BYTES, v.signature + rest);
    ArrayRoundTrip(v.signature, rest);
  }

  function ContentTag(c: ContentType): nat { match c case Application => 0 case Proposal => 1 case Commit => 2 }

  function DecodeContent(b: bytes): Option<(ContentType, bytes)> {
    var tag :- DecodeU32(b);
    match tag.0
    case 0 => Some((Application, tag.1))
    case 1 => Some((Proposal, tag.1))
    case 2 => Some((Commit, tag.1))
    case _ => None
  }

  lemma ContentRoundTrip(c: ContentType, rest: bytes)
    ensures DecodeContent(EncodeVarint(ContentTag(c)) + rest) == Some((c, rest))
  {
    U32RoundTrip(ContentTag(c), rest);
  }

  function OperationTail(v: Operation): bytes {
    EncodeVarint(ContentTag(v.contentType)) + (EncodeBytes(v.body) + EncodeOption(v.welcome, EncodeAttachment))
  }

  function EncodeOperation(v: Operation): bytes {
    v.room + (EncodeVarint(v.parent) + (EncodeVarint(v.epoch) + OperationTail(v)))
  }

  function DecodeOperation(b: bytes): Option<(Operation, bytes)> {
    var room :- DecodeId(b);
    var parent :- DecodeU64(room.1);
    var epoch :- DecodeU64(parent.1);
    var content :- DecodeContent(epoch.1);
    var body :- DecodeBody(content.1);
    var welcome :- DecodeOption(body.1, DecodeAttachment);
    Some((Operation(room.0, parent.0, epoch.0, content.0, body.0, welcome.0), welcome.1))
  }

  lemma OperationRoundTrip(v: Operation, rest: bytes)
    requires OperationOk(v)
    ensures DecodeOperation(EncodeOperation(v) + rest) == Some((v, rest))
  {
    var welcome := EncodeOption(v.welcome, EncodeAttachment);
    Glue(v.room, EncodeVarint(v.parent) + (EncodeVarint(v.epoch) + OperationTail(v)), rest);
    Glue(EncodeVarint(v.parent), EncodeVarint(v.epoch) + OperationTail(v), rest);
    Glue(EncodeVarint(v.epoch), OperationTail(v), rest);
    Glue(EncodeVarint(ContentTag(v.contentType)), EncodeBytes(v.body) + welcome, rest);
    Glue(EncodeBytes(v.body), welcome, rest);
    ArrayRoundTrip(v.room, EncodeVarint(v.parent) + (EncodeVarint(v.epoch) + (OperationTail(v) + rest)));
    U64RoundTrip(v.parent, EncodeVarint(v.epoch) + (OperationTail(v) + rest));
    U64RoundTrip(v.epoch, OperationTail(v) + rest);
    ContentRoundTrip(v.contentType, EncodeBytes(v.body) + (welcome + rest));
    BytesRoundTrip(v.body, MAX_MLS_BLOB_BYTES, welcome + rest);
    if v.welcome.Some? { AttachmentRoundTrip(v.welcome.value, rest); }
    OptionRoundTrip(v.welcome, EncodeAttachment, DecodeAttachment, rest);
  }

  function EncodeEvent(v: LogEvent): bytes { v.id + (v.sender + EncodeOperation(v.operation)) }

  function DecodeEvent(b: bytes): Option<(LogEvent, bytes)> {
    var id :- DecodeId(b);
    var sender :- DecodeId(id.1);
    var operation :- DecodeOperation(sender.1);
    Some((LogEvent(id.0, sender.0, operation.0), operation.1))
  }

  lemma EventRoundTrip(v: LogEvent, rest: bytes)
    requires EventOk(v)
    ensures DecodeEvent(EncodeEvent(v) + rest) == Some((v, rest))
  {
    Glue(v.id, v.sender + EncodeOperation(v.operation), rest);
    Glue(v.sender, EncodeOperation(v.operation), rest);
    ArrayRoundTrip(v.id, v.sender + (EncodeOperation(v.operation) + rest));
    ArrayRoundTrip(v.sender, EncodeOperation(v.operation) + rest);
    OperationRoundTrip(v.operation, rest);
  }

  function EncodeDelivery(v: Delivery): bytes {
    EncodeBytes(v.roomName) + (EncodeVarint(v.cursor)
      + (v.event + (v.room + (EncodeVarint(v.sequence) + (v.inviter + EncodeAttachment(v.attachment))))))
  }

  function DecodeDelivery(b: bytes): Option<(Delivery, bytes)> {
    var name :- DecodeName(b);
    var cursor :- DecodeU64(name.1);
    var event :- DecodeId(cursor.1);
    var room :- DecodeId(event.1);
    var sequence :- DecodeU64(room.1);
    var inviter :- DecodeId(sequence.1);
    var attachment :- DecodeAttachment(inviter.1);
    Some((Delivery(name.0, cursor.0, event.0, room.0, sequence.0, inviter.0, attachment.0), attachment.1))
  }

  lemma DeliveryRoundTrip(v: Delivery, rest: bytes)
    requires DeliveryOk(v)
    ensures DecodeDelivery(EncodeDelivery(v) + rest) == Some((v, rest))
  {
    var t6 := EncodeAttachment(v.attachment);
    var t5 := v.inviter + t6;
    var t4 := EncodeVarint(v.sequence) + t5;
    var t3 := v.room + t4;
    var t2 := v.event + t3;
    var t1 := EncodeVarint(v.cursor) + t2;
    Glue(EncodeBytes(v.roomName), t1, rest);
    Glue(EncodeVarint(v.cursor), t2, rest);
    Glue(v.event, t3, rest);
    Glue(v.room, t4, rest);
    Glue(EncodeVarint(v.sequence), t5, rest);
    Glue(v.inviter, t6, rest);
    TextRoundTrip(v.roomName, 400, t1 + rest);
    U64RoundTrip(v.cursor, t2 + rest);
    ArrayRoundTrip(v.event, t3 + rest);
    ArrayRoundTrip(v.room, t4 + rest);
    U64RoundTrip(v.sequence, t5 + rest);
    ArrayRoundTrip(v.inviter, t6 + rest);
    AttachmentRoundTrip(v.attachment, rest);
  }

  function EncodeHeading(v: Heading): bytes { v.room + (EncodeBytes(v.name) + EncodeVarint(v.sequence)) }

  function DecodeHeading(b: bytes): Option<(Heading, bytes)> {
    var room :- DecodeId(b);
    var name :- DecodeName(room.1);
    var sequence :- DecodeU64(name.1);
    Some((Heading(room.0, name.0, sequence.0), sequence.1))
  }

  lemma HeadingRoundTrip(v: Heading, rest: bytes)
    requires HeadingOk(v)
    ensures DecodeHeading(EncodeHeading(v) + rest) == Some((v, rest))
  {
    Glue(v.room, EncodeBytes(v.name) + EncodeVarint(v.sequence), rest);
    Glue(EncodeBytes(v.name), EncodeVarint(v.sequence), rest);
    ArrayRoundTrip(v.room, EncodeBytes(v.name) + (EncodeVarint(v.sequence) + rest));
    TextRoundTrip(v.name, 400, EncodeVarint(v.sequence) + rest);
    U64RoundTrip(v.sequence, rest);
  }

  // ----- tagged variants -----

  /** A tuple being read: the rest of the input and how many elements the tuple may still have. */
  datatype Access = Access(rest: bytes, left: nat)

  /** The next element, which has to be there. */
  function Required<T>(access: Access, decode: Decoder<T>): Option<(T, Access)> {
    if access.left == 0 then None
    else
      var element :- decode(access.rest);
      Some((element.0, Access(element.1, access.left - 1)))
  }

  function One<A>(access: Access, a: Decoder<A>): Option<(A, bytes)> {
    var first :- Required(access, a);
    Some((first.0, first.1.rest))
  }

  function Two<A, B>(access: Access, a: Decoder<A>, b: Decoder<B>): Option<((A, B), bytes)> {
    var first :- Required(access, a);
    var second :- One(first.1, b);
    Some(((first.0, second.0), second.1))
  }

  function Three<A, B, C>(access: Access, a: Decoder<A>, b: Decoder<B>, c: Decoder<C>): Option<((A, B, C), bytes)> {
    var first :- Required(access, a);
    var others :- Two(first.1, b, c);
    Some(((first.0, others.0.0, others.0.1), others.1))
  }

  function Four<A, B, C, D>(access: Access, a: Decoder<A>, b: Decoder<B>, c: Decoder<C>, d: Decoder<D>)
    : Option<((A, B, C, D), bytes)>
  {
    var first :- Required(access, a);
    var others :- Three(first.1, b, c, d);
    Some(((first.0, others.0.0, others.0.1, others.0.2), others.1))
  }

  /** Decoding takes back exactly what encoding put in front of the rest. */
  ghost predicate Inverts<A>(a: Decoder<A>, value: A, encoded: bytes, rest: bytes) {
    a(encoded + rest) == Some((value, rest))
  }

  lemma OneBack<A>(v: A, e: bytes, a: Decoder<A>, rest: bytes, left: nat)
    requires left >= 1 && Inverts(a, v, e, rest)
    ensures One(Access(e + rest, left), a) == Some((v, rest))
  {}

  lemma TwoBack<A, B>(v: A, w: B, e: bytes, f: bytes, a: Decoder<A>, b: Decoder<B>, rest: bytes, left: nat)
    requires left >= 2 && Inverts(a, v, e, f + rest) && Inverts(b, w, f, rest)
    ensures Two(Access((e + f) + rest, left), a, b) == Some(((v, w), rest))
  {
    Glue(e, f, rest);
    OneBack(w, f, b, rest, left - 1);
  }

  lemma ThreeBack<A, B, C>(v: A, w: B, x: C, e: bytes, f: bytes, g: bytes, a: Decoder<A>, b: Decoder<B>, c: Decoder<C>,
                           rest: bytes, left: nat)
    requires left >= 3 && Inverts(a, v, e, (f + g) + rest) && Inverts(b, w, f, g + rest) && Inverts(c, x, g, rest)
    ensures Three(Access((e + (f + g)) + rest, left), a, b, c) == Some(((v, w, x), rest))
  {
    Glue(e, f + g, rest);
    TwoBack(w, x, f, g, b, c, rest, left - 1);
  }

  lemma FourBack<A, B, C, D>(
    v: A, w: B, x: C, y: D, e: bytes, f: bytes, g: bytes, h: bytes, a: Decoder<A>, b: Decoder<B>, c: Decoder<C>,
    d: Decoder<D>, rest: bytes, left: nat)
    requires left >= 4 && Inverts(a, v, e, (f + (g + h)) + rest) && Inverts(b, w, f, (g + h) + rest)
    requires Inverts(c, x, g, h + rest) && Inverts(d, y, h, rest)
    ensures Four(Access((e + (f + (g + h))) + rest, left), a, b, c, d) == Some(((v, w, x, y), rest))
  {
    Glue(e, f + (g + h), rest);
    ThreeBack(w, x, y, f, g, h, b, c, d, rest, left - 1);
  }

  /** The tag comes first; the fields that follow are read with it. */
  lemma TagBack(tag: byte, tail: bytes, rest: bytes, size: nat)
    requires size > 0
    ensures Required(Access(([tag] + tail) + rest, size), DecodeU8) == Some((tag, Access(tail + rest, size - 1)))
  {
    assert (([tag] + tail) + rest)[1..] == tail + rest;
  }

  // ----- requests -----

  datatype WireRequest =
    | CreateRoom(name: bytes)
    | PublishKeyPackages(packages: seq<bytes>)
    | Acknowledge(events: seq<bytes>, welcomes: seq<nat>)
    | AppendRoomOperation(operation: Operation)
    | FetchRoomEvents(room: bytes, afterSequence: nat)
    | SyncIndex(afterRoom: Option<bytes>)
    | FetchWelcomes(afterCursor: nat)
    | ReserveKeyPackage(recipient: bytes)
    | SetFetchGrant(requester: bytes, allowed: bool)

  predicate RequestOk(r: WireRequest) {
    match r
    case CreateRoom(name) => IsName(name)
    case PublishKeyPackages(packages) =>
      |packages| <= 64 && forall i :: 0 <= i < |packages| ==> |packages[i]| <= MAX_KEY_PACKAGE_BYTES
    case Acknowledge(events, welcomes) =>
      && |events| <= 100 && (forall i :: 0 <= i < |events| ==> IsId(events[i]))
      && |welcomes| <= 100 && (forall i :: 0 <= i < |welcomes| ==> IsWord(welcomes[i]))
    case AppendRoomOperation(operation) => OperationOk(operation)
    case FetchRoomEvents(room, after) => IsId(room) && IsWord(after)
    case SyncIndex(after) => after.Some? ==> IsId(after.value)
    case FetchWelcomes(after) => IsWord(after)
    case ReserveKeyPackage(recipient) => IsId(recipient)
    case SetFetchGrant(requester, _) => IsId(requester)
  }

  function EncodeRequest(r: WireRequest): bytes {
    match r
    case CreateRoom(name) => [0] + EncodeBytes(name)
    case PublishKeyPackages(packages) => [1] + EncodeVec(packages, EncodeBytes)
    case Acknowledge(events, welcomes) => [2] + (EncodeVec(events, Raw) + EncodeVec(welcomes, EncodeVarint))
    case AppendRoomOperation(operation) => [3] + EncodeOperation(operation)
    case FetchRoomEvents(room, after) => [4] + (room + EncodeVarint(after))
    case SyncIndex(after) => [5] + EncodeOption(after, Raw)
    case FetchWelcomes(after) => [6] + EncodeVarint(after)
    case ReserveKeyPackage(recipient) => [7] + recipient
    case SetFetchGrant(requester, allowed) => [8] + (requester + EncodeBool(allowed))
  }

  function DecodePackages(b: bytes): Option<(seq<bytes>, bytes)> { DecodeVec(64, b, DecodePackage) }
  function DecodeIds(b: bytes): Option<(seq<bytes>, bytes)> { DecodeVec(100, b, DecodeId) }
  function DecodeCursors(b: bytes): Option<(seq<nat>, bytes)> { DecodeVec(100, b, DecodeU64) }
  function DecodeMaybeId(b: bytes): Option<(Option<bytes>, bytes)> { DecodeOption(b, DecodeId) }

  function RequestFields(tag: byte, a: Access): Option<(WireRequest, bytes)> {
    match tag
    case 0 => var f :- One(a, DecodeName); Some((WireRequest.CreateRoom(f.0), f.1))
    case 1 => var f :- One(a, DecodePackages); Some((WireRequest.PublishKeyPackages(f.0), f.1))
    case 2 => var f :- Two(a, DecodeIds, DecodeCursors); Some((WireRequest.Acknowledge(f.0.0, f.0.1), f.1))
    case 3 => var f :- One(a, DecodeOperation); Some((WireRequest.AppendRoomOperation(f.0), f.1))
    case 4 => var f :- Two(a, DecodeId, DecodeU64); Some((WireRequest.FetchRoomEvents(f.0.0, f.0.1), f.1))
    case 5 => var f :- One(a, DecodeMaybeId); Some((WireRequest.SyncIndex(f.0), f.1))
    case 6 => var f :- One(a, DecodeU64); Some((WireRequest.FetchWelcomes(f.0), f.1))
    case 7 => var f :- One(a, DecodeId); Some((WireRequest.ReserveKeyPackage(f.0), f.1))
    case 8 => var f :- Two(a, DecodeId, DecodeBool); Some((WireRequest.SetFetchGrant(f.0.0, f.0.1), f.1))
    case _ => None
  }

  /** A request is read as a tuple of at most three elements. */
  function DecodeRequest(b: bytes): Option<(WireRequest, bytes)> {
    var tag :- Required(Access(b, 3), DecodeU8);
    RequestFields(tag.0, tag.1)
  }

  lemma BoolRoundTrip(v: bool, rest: bytes)
    ensures DecodeBool(EncodeBool(v) + rest) == Some((v, rest))
  {
    assert (EncodeBool(v) + rest)[1..] == rest;
  }

  lemma IdsRoundTrip(ids: seq<bytes>, rest: bytes)
    requires |ids| <= 100 && forall i :: 0 <= i < |ids| ==> IsId(ids[i])
    ensures DecodeIds(EncodeVec(ids, Raw) + rest) == Some((ids, rest))
  {
    forall i, tail | 0 <= i < |ids| ensures DecodeId(Raw(ids[i]) + tail) == Some((ids[i], tail)) {
      ArrayRoundTrip(ids[i], tail);
    }
    VecRoundTrip(ids, Raw, DecodeId, 100, rest);
  }

  lemma CursorsRoundTrip(words: seq<nat>, rest: bytes)
    requires |words| <= 100 && forall i :: 0 <= i < |words| ==> IsWord(words[i])
    ensures DecodeCursors(EncodeVec(words, EncodeVarint) + rest) == Some((words, rest))
  {
    forall i, tail | 0 <= i < |words| ensures DecodeU64(EncodeVarint(words[i]) + tail) == Some((words[i], tail)) {
      U64RoundTrip(words[i], tail);
    }
    VecRoundTrip(words, EncodeVarint, DecodeU64, 100, rest);
  }

  lemma PackagesRoundTrip(packages: seq<bytes>, rest: bytes)
    requires |packages| <= 64 && forall i :: 0 <= i < |packages| ==> |packages[i]| <= MAX_KEY_PACKAGE_BYTES
    ensures DecodePackages(EncodeVec(packages, EncodeBytes) + rest) == Some((packages, rest))
  {
    forall i, tail | 0 <= i < |packages|
      ensures DecodePackage(EncodeBytes(packages[i]) + tail) == Some((packages[i], tail))
    {
      BytesRoundTrip(packages[i], MAX_KEY_PACKAGE_BYTES, tail);
    }
    VecRoundTrip(packages, EncodeBytes, DecodePackage, 64, rest);
  }

  /** The fields of every request fit the two elements after the tag and come back. */
  lemma RequestFieldsBack(r: WireRequest, tag: byte, tail: bytes, rest: bytes)
    requires RequestOk(r) && EncodeRequest(r) == [tag] + tail
    ensures RequestFields(tag, Access(tail + rest, 2)) == Some((r, rest))
  {
    assert tail == EncodeRequest(r)[1..] && tag == EncodeRequest(r)[0];
    match r {
      case CreateRoom(name) =>
        TextRoundTrip(name, 400, rest);
        OneBack(name, tail, DecodeName, rest, 2);
      case PublishKeyPackages(packages) =>
        PackagesRoundTrip(packages, rest);
        OneBack(packages, tail, DecodePackages, rest, 2);
      case Acknowledge(events, welcomes) =>
        IdsRoundTrip(events, EncodeVec(welcomes, EncodeVarint) + rest);
        CursorsRoundTrip(welcomes, rest);
        TwoBack(events, welcomes, EncodeVec(events, Raw), EncodeVec(welcomes, EncodeVarint), DecodeIds, DecodeCursors,
                rest, 2);
      case AppendRoomOperation(operation) =>
        OperationRoundTrip(operation, rest);
        OneBack(operation, tail, DecodeOperation, rest, 2);
      case FetchRoomEvents(room, after) =>
        ArrayRoundTrip(room, EncodeVarint(after) + rest);
        U64RoundTrip(after, rest);
        TwoBack(room, after, room, EncodeVarint(after), DecodeId, DecodeU64, rest, 2);
      case SyncIndex(after) =>
        if after.Some? { ArrayRoundTrip(after.value, rest); }
        OptionRoundTrip(after, Raw, DecodeId, rest);
        OneBack(after, tail, DecodeMaybeId, rest, 2);
      case FetchWelcomes(after) =>
        U64RoundTrip(after, rest);
        OneBack(after, tail, DecodeU64, rest, 2);
      case ReserveKeyPackage(recipient) =>
        ArrayRoundTrip(recipient, rest);
        OneBack(recipient, tail, DecodeId, rest, 2);
      case SetFetchGrant(requester, allowed) =>
        ArrayRoundTrip(requester, EncodeBool(allowed) + rest);
        BoolRoundTrip(allowed, rest);
        TwoBack(requester, allowed, requester, EncodeBool(allowed), DecodeId, DecodeBool, rest, 2);
    }
  }

  lemma RequestRoundTrip(r: WireRequest, rest: bytes)
    requires RequestOk(r)
    ensures DecodeRequest(EncodeRequest(r) + rest) == Some((r, rest))
  {
    var tag, tail := EncodeRequest(r)[0], EncodeRequest(r)[1..];
    assert EncodeRequest(r) == [tag] + tail;
    TagBack(tag, tail, rest, 3);
    RequestFieldsBack(r, tag, tail, rest);
  }

  // ----- responses -----

  datatype WireResponse =
    | RoomCreated(room: bytes)
    | KeyPackagesPublished(count: nat)
    | Acknowledged
    | AppendAccepted(event: LogEvent)
    | HeadConflict(room: bytes, head: nat)
    | RoomEvents(room: bytes, afterSequence: nat, events: seq<LogEvent>, more: bool)
    | RoomIndex(rooms: seq<Heading>, more: bool)
    | Welcomes(afterCursor: nat, welcomes: seq<Delivery>, more: bool)
    | KeyPackage(recipient: bytes, package: bytes)
    | FetchGrantSet
    | Rejected(reason: Rejection)

  predicate ResponseOk(r: WireResponse) {
    match r
    case RoomCreated(room) => IsId(room)
    case KeyPackagesPublished(count) => IsWord(count)
    case Acknowledged => true
    case AppendAccepted(event) => EventOk(event)
    case HeadConflict(room, head) => IsId(room) && IsWord(head)
    case RoomEvents(room, after, events, _) =>
      IsId(room) && IsWord(after) && |events| <= 100 && forall i :: 0 <= i < |events| ==> EventOk(events[i])
    case RoomIndex(rooms, _) => |rooms| <= 100 && forall i :: 0 <= i < |rooms| ==> HeadingOk(rooms[i])
    case Welcomes(after, welcomes, _) =>
      IsWord(after) && |welcomes| <= 100 && forall i :: 0 <= i < |welcomes| ==> DeliveryOk(welcomes[i])
    case KeyPackage(recipient, package) => IsId(recipient) && |package| <= MAX_KEY_PACKAGE_BYTES
    case FetchGrantSet => true
    case Rejected(_) => true
  }

  function ReasonTag(r: Rejection): byte {
    match r
    case Invalid => 0
    case Unauthorized => 1
    case NotFound => 2
    case RequestConflict => 3
    case Overloaded => 4
    case Quota => 5
    case Internal => 6
  }

  function DecodeReason(b: bytes): Option<(Rejection, bytes)> {
    var tag :- DecodeU8(b);
    match tag.0
    case 0 => Some((Invalid, tag.1))
    case 1 => Some((Unauthorized, tag.1))
    case 2 => Some((NotFound, tag.1))
    case 3 => Some((RequestConflict, tag.1))
    case 4 => Some((Overloaded, tag.1))
    case 5 => Some((Quota, tag.1))
    case 6 => Some((Internal, tag.1))
    case _ => None
  }

  function EncodeResponse(r: WireResponse): bytes {
    match r
    case RoomCreated(room) => [0] + room
    case KeyPackagesPublished(count) => [1] + EncodeVarint(count)
    case Acknowledged => [2]
    case AppendAccepted(event) => [3] + EncodeEvent(event)
    case HeadConflict(room, head) => [4] + (room + EncodeVarint(head))
    case RoomEvents(room, after, events, more) =>
      [5] + (room + (EncodeVarint(after) + (EncodeVec(events, EncodeEvent) + EncodeBool(more))))
    case RoomIndex(rooms, more) => [6] + (EncodeVec(rooms, EncodeHeading) + EncodeBool(more))
    case Welcomes(after, welcomes, more) =>
      [7] + (EncodeVarint(after) + (EncodeVec(welcomes, EncodeDelivery) + EncodeBool(more)))
    case KeyPackage(recipient, package) => [8] + (recipient + EncodeBytes(package))
    case FetchGrantSet => [9]
    case Rejected(reason) => [10] + [ReasonTag(reason)]
  }

  function DecodeEvents(b: bytes): Option<(seq<LogEvent>, bytes)> { DecodeVec(100, b, DecodeEvent) }
  function DecodeHeadings(b: bytes): Option<(seq<Heading>, bytes)> { DecodeVec(100, b, DecodeHeading) }
  function DecodeDeliveries(b: bytes): Option<(seq<Delivery>, bytes)> { DecodeVec(100, b, DecodeDelivery) }

  function ResponseFields(tag: byte, a: Access): Option<(WireResponse, bytes)> {
    match tag
    case 0 => var f :- One(a, DecodeId); Some((WireResponse.RoomCreated(f.0), f.1))
    case 1 => var f :- One(a, DecodeU64); Some((WireResponse.KeyPackagesPublished(f.0), f.1))
    case 2 => Some((WireResponse.Acknowledged, a.rest))
    case 3 => var f :- One(a, DecodeEvent); Some((WireResponse.AppendAccepted(f.0), f.1))
    case 4 => var f :- Two(a, DecodeId, DecodeU64); Some((WireResponse.HeadConflict(f.0.0, f.0.1), f.1))
    case 5 =>
      var f :- Four(a, DecodeId, DecodeU64, DecodeEvents, DecodeBool);
      Some((WireResponse.RoomEvents(f.0.0, f.0.1, f.0.2, f.0.3), f.1))
    case 6 => var f :- Two(a, DecodeHeadings, DecodeBool); Some((WireResponse.RoomIndex(f.0.0, f.0.1), f.1))
    case 7 =>
      var f :- Three(a, DecodeU64, DecodeDeliveries, DecodeBool);
      Some((WireResponse.Welcomes(f.0.0, f.0.1, f.0.2), f.1))
    case 8 => var f :- Two(a, DecodeId, DecodePackage); Some((WireResponse.KeyPackage(f.0.0, f.0.1), f.1))
    case 9 => Some((WireResponse.FetchGrantSet, a.rest))
    case 10 => var f :- One(a, DecodeReason); Some((WireResponse.Rejected(f.0), f.1))
    case _ => None
  }

  /** A response is read as a tuple of at most five elements. */
  function DecodeResponse(b: bytes): Option<(WireResponse, bytes)> {
    var tag :- Required(Access(b, 5), DecodeU8);
    ResponseFields(tag.0, tag.1)
  }

  lemma EventsRoundTrip(events: seq<LogEvent>, rest: bytes)
    requires |events| <= 100 && forall i :: 0 <= i < |events| ==> EventOk(events[i])
    ensures DecodeEvents(EncodeVec(events, EncodeEvent) + rest) == Some((events, rest))
  {
    forall i, tail | 0 <= i < |events| ensures DecodeEvent(EncodeEvent(events[i]) + tail) == Some((events[i], tail)) {
      EventRoundTrip(events[i], tail);
    }
    VecRoundTrip(events, EncodeEvent, DecodeEvent, 100, rest);
  }

  lemma HeadingsRoundTrip(rooms: seq<Heading>, rest: bytes)
    requires |rooms| <= 100 && forall i :: 0 <= i < |rooms| ==> HeadingOk(rooms[i])
    ensures DecodeHeadings(EncodeVec(rooms, EncodeHeading) + rest) == Some((rooms, rest))
  {
    forall i, tail | 0 <= i < |rooms| ensures DecodeHeading(EncodeHeading(rooms[i]) + tail) == Some((rooms[i], tail)) {
      HeadingRoundTrip(rooms[i], tail);
    }
    VecRoundTrip(rooms, EncodeHeading, DecodeHeading, 100, rest);
  }

  lemma DeliveriesRoundTrip(welcomes: seq<Delivery>, rest: bytes)
    requires |welcomes| <= 100 && forall i :: 0 <= i < |welcomes| ==> DeliveryOk(welcomes[i])
    ensures DecodeDeliveries(EncodeVec(welcomes, EncodeDelivery) + rest) == Some((welcomes, rest))
  {
    forall i, tail | 0 <= i < |welcomes|
      ensures DecodeDelivery(EncodeDelivery(welcomes[i]) + tail) == Some((welcomes[i], tail))
    {
      DeliveryRoundTrip(welcomes[i], tail);
    }
    VecRoundTrip(welcomes, EncodeDelivery, DecodeDelivery, 100, rest);
  }

  lemma ReasonRoundTrip(reason: Rejection, rest: bytes)
    ensures DecodeReason([ReasonTag(reason)] + rest) == Some((reason, rest))
  {
    assert ([ReasonTag(reason)] + rest)[1..] == rest;
  }

  lemma ConflictBack(room: bytes, head: nat, rest: bytes)
    requires ResponseOk(WireResponse.HeadConflict(room, head))
    ensures Two(Access((room + EncodeVarint(head)) + rest, 4), DecodeId, DecodeU64) == Some(((room, head), rest))
  {
    ArrayRoundTrip(room, EncodeVarint(head) + rest);
    U64RoundTrip(head, rest);
    TwoBack(room, head, room, EncodeVarint(head), DecodeId, DecodeU64, rest, 4);
  }

  lemma IndexBack(rooms: seq<Heading>, more: bool, rest: bytes)
    requires ResponseOk(WireResponse.RoomIndex(rooms, more))
    ensures var tail := EncodeVec(rooms, EncodeHeading) + EncodeBool(more);
            Two(Access(tail + rest, 4), DecodeHeadings, DecodeBool) == Some(((rooms, more), rest))
  {
    HeadingsRoundTrip(rooms, EncodeBool(more) + rest);
    BoolRoundTrip(more, rest);
    TwoBack(rooms, more, EncodeVec(rooms, EncodeHeading), EncodeBool(more), DecodeHeadings, DecodeBool, rest, 4);
  }

  lemma PackageBack(recipient: bytes, package: bytes, rest: bytes)
    requires ResponseOk(WireResponse.KeyPackage(recipient, package))
    ensures Two(Access((recipient + EncodeBytes(package)) + rest, 4), DecodeId, DecodePackage)
            == Some(((recipient, package), rest))
  {
    ArrayRoundTrip(recipient, EncodeBytes(package) + rest);
    BytesRoundTrip(package, MAX_KEY_PACKAGE_BYTES, rest);
    TwoBack(recipient, package, recipient, EncodeBytes(package), DecodeId, DecodePackage, rest, 4);
  }

  lemma EventPageBack(room: bytes, after: nat, events: seq<LogEvent>, more: bool, rest: bytes)
    requires ResponseOk(WireResponse.RoomEvents(room, after, events, more))
    ensures var tail := room + (EncodeVarint(after) + (EncodeVec(events, EncodeEvent) + EncodeBool(more)));
            Four(Access(tail + rest, 4), DecodeId, DecodeU64, DecodeEvents, DecodeBool)
            == Some(((room, after, events, more), rest))
  {
    var g, h := EncodeVec(events, EncodeEvent), EncodeBool(more);
    ArrayRoundTrip(room, (EncodeVarint(after) + (g + h)) + rest);
    U64RoundTrip(after, (g + h) + rest);
    EventsRoundTrip(events, h + rest);
    BoolRoundTrip(more, rest);
    FourBack(room, after, events, more, room, EncodeVarint(after), g, h, DecodeId, DecodeU64, DecodeEvents, DecodeBool,
             rest, 4);
  }

  lemma WelcomePageBack(after: nat, welcomes: seq<Delivery>, more: bool, rest: bytes)
    requires ResponseOk(WireResponse.Welcomes(after, welcomes, more))
    ensures var tail := EncodeVarint(after) + (EncodeVec(welcomes, EncodeDelivery) + EncodeBool(more));
            Three(Access(tail + rest, 4), DecodeU64, DecodeDeliveries, DecodeBool)
            == Some(((after, welcomes, more), rest))
  {
    var f, g := EncodeVec(welcomes, EncodeDelivery), EncodeBool(more);
    U64RoundTrip(after, (f + g) + rest);
    DeliveriesRoundTrip(welcomes, g + rest);
    BoolRoundTrip(more, rest);
    ThreeBack(after, welcomes, more, EncodeVarint(after), f, g, DecodeU64, DecodeDeliveries, DecodeBool, rest, 4);
  }

  /** The fields of every response fit the four elements after the tag and come back. */
  lemma ResponseFieldsBack(r: WireResponse, tag: byte, tail: bytes, rest: bytes)
    requires ResponseOk(r) && EncodeResponse(r) == [tag] + tail
    ensures ResponseFields(tag, Access(tail + rest, 4)) == Some((r, rest))
  {
    assert tail == EncodeResponse(r)[1..] && tag == EncodeResponse(r)[0];
    match r {
      case RoomCreated(room) =>
        ArrayRoundTrip(room, rest);
        OneBack(room, tail, DecodeId, rest, 4);
      case KeyPackagesPublished(count) =>
        U64RoundTrip(count, rest);
        OneBack(count, tail, DecodeU64, rest, 4);
      case Acknowledged => assert tail + rest == rest;
      case AppendAccepted(event) =>
        EventRoundTrip(event, rest);
        OneBack(event, tail, DecodeEvent, rest, 4);
      case HeadConflict(room, head) => ConflictBack(room, head, rest);
      case RoomEvents(room, after, events, more) => EventPageBack(room, after, events, more, rest);
      case RoomIndex(rooms, more) => IndexBack(rooms, more, rest);
      case Welcomes(after, welcomes, more) => WelcomePageBack(after, welcomes, more, rest);
      case KeyPackage(recipient, package) => PackageBack(recipient, package, rest);
      case FetchGrantSet => assert tail + rest == rest;
      case Rejected(reason) =>
        ReasonRoundTrip(reason, rest);
        OneBack(reason, tail, DecodeReason, rest, 4);
    }
  }

  lemma ResponseRoundTrip(r: WireResponse, rest: bytes)
    requires ResponseOk(r)
    ensures DecodeResponse(EncodeResponse(r) + rest) == Some((r, rest))
  {
    var tag, tail := EncodeResponse(r)[0], EncodeResponse(r)[1..];
    assert EncodeResponse(r) == [tag] + tail;
    TagBack(tag, tail, rest, 5);
    ResponseFieldsBack(r, tag, tail, rest);
  }

  // ----- messages -----

  datatype Kind = HelloKind | IdentifyKind | AuthenticationKind | DeliveryKind

  function KindTag(k: Kind): byte {
    match k case HelloKind => 1 case IdentifyKind => 102 case AuthenticationKind => 3 case DeliveryKind => 100
  }

  function DecodeKind(b: bytes): Option<(Kind, bytes)> {
    var tag :- DecodeU8(b);
    match tag.0
    case 1 => Some((HelloKind, tag.1))
    case 102 => Some((IdentifyKind, tag.1))
    case 3 => Some((AuthenticationKind, tag.1))
    case 100 => Some((DeliveryKind, tag.1))
    case _ => None
  }

  datatype Fault =
    | UnsupportedVersion(supported: nat, received: nat)
    | UnexpectedMessage(expected: Kind, got: Kind)
    | InvalidPublicKey
    | IdentityKeyConflict
    | AuthenticationFailed

  predicate FaultOk(f: Fault) { f.UnsupportedVersion? ==> f.supported < 0x1_0000 && f.received < 0x1_0000 }

  function EncodeKind(k: Kind): bytes { [KindTag(k)] }

  function EncodeFault(f: Fault): bytes {
    match f
    case UnsupportedVersion(supported, received) => [1] + (EncodeVarint(supported) + EncodeVarint(received))
    case UnexpectedMessage(expected, got) => [2] + (EncodeKind(expected) + EncodeKind(got))
    case InvalidPublicKey => [3]
    case IdentityKeyConflict => [4]
    case AuthenticationFailed => [5]
  }

  function FaultFields(tag: byte, a: Access): Option<(Fault, bytes)> {
    match tag
    case 1 => var f :- Two(a, DecodeU16, DecodeU16); Some((UnsupportedVersion(f.0.0, f.0.1), f.1))
    case 2 => var f :- Two(a, DecodeKind, DecodeKind); Some((UnexpectedMessage(f.0.0, f.0.1), f.1))
    case 3 => Some((InvalidPublicKey, a.rest))
    case 4 => Some((IdentityKeyConflict, a.rest))
    case 5 => Some((AuthenticationFailed, a.rest))
    case _ => None
  }

  /** A protocol error is read as a tuple of at most three elements. */
  function DecodeFault(b: bytes): Option<(Fault, bytes)> {
    var tag :- Required(Access(b, 3), DecodeU8);
    FaultFields(tag.0, tag.1)
  }

  lemma KindRoundTrip(k: Kind, rest: bytes)
    ensures DecodeKind(EncodeKind(k) + rest) == Some((k, rest))
  {
    assert (EncodeKind(k) + rest)[1..] == rest;
  }

  lemma FaultRoundTrip(f: Fault, rest: bytes)
    requires FaultOk(f)
    ensures DecodeFault(EncodeFault(f) + rest) == Some((f, rest))
  {
    var tag, tail := EncodeFault(f)[0], EncodeFault(f)[1..];
    assert EncodeFault(f) == [tag] + tail;
    TagBack(tag, tail, rest, 3);
    match f {
      case UnsupportedVersion(supported, received) =>
        U16RoundTrip(supported, EncodeVarint(received) + rest);
        U16RoundTrip(received, rest);
        TwoBack(supported, received, EncodeVarint(supported), EncodeVarint(received), DecodeU16, DecodeU16, rest, 2);
      case UnexpectedMessage(expected, got) =>
        KindRoundTrip(expected, EncodeKind(got) + rest);
        KindRoundTrip(got, rest);
        TwoBack(expected, got, EncodeKind(expected), EncodeKind(got), DecodeKind, DecodeKind, rest, 2);
      case _ => assert tail + rest == rest;
    }
  }

  datatype ClientMessage =
    | ClientHello(version: nat)
    | ClientIdentify(user: bytes, key: bytes, enrollment: Option<bytes>)
    | ClientAuthentication(signature: bytes)
    | ClientDelivery(id: bytes, request: WireRequest)

  predicate ClientOk(m: ClientMessage) {
    match m
    case ClientHello(version) => version < 0x1_0000
    case ClientIdentify(user, key, enrollment) =>
      IsId(user) && |key| == 32 && (enrollment.Some? ==> |enrollment.value| == 32)
    case ClientAuthentication(signature) => |signature| == 64
    case ClientDelivery(id, request) => IsId(id) && RequestOk(request)
  }

  function EncodeClient(m: ClientMessage): bytes {
    match m
    case ClientHello(version) => [1] + EncodeVarint(version)
    case ClientIdentify(user, key, enrollment) => [102] + (user + (key + EncodeOption(enrollment, Raw)))
    case ClientAuthentication(signature) => [3] + signature
    case ClientDelivery(id, request) => [100] + (id + EncodeRequest(request))
  }

  function DecodeEnrollment(b: bytes): Option<(Option<bytes>, bytes)> { DecodeOption(b, DecodeKey) }

  function ClientFields(tag: byte, a: Access): Option<(ClientMessage, bytes)> {
    match tag
    case 1 => var f :- One(a, DecodeU16); Some((ClientHello(f.0), f.1))
    case 102 =>
      var f :- Three(a, DecodeId, DecodeKey, DecodeEnrollment);
      Some((ClientIdentify(f.0.0, f.0.1, f.0.2), f.1))
    case 3 => var f :- One(a, DecodeSignature); Some((ClientAuthentication(f.0), f.1))
    case 100 => var f :- Two(a, DecodeId, DecodeRequest); Some((ClientDelivery(f.0.0, f.0.1), f.1))
    case _ => None
  }

  /** A client message is read as a tuple of at most four elements. */
  function DecodeClient(b: bytes): Option<(ClientMessage, bytes)> {
    var tag :- Required(Access(b, 4), DecodeU8);
    ClientFields(tag.0, tag.1)
  }

  lemma ClientFieldsBack(m: ClientMessage, tag: byte, tail: bytes, rest: bytes)
    requires ClientOk(m) && EncodeClient(m) == [tag] + tail
    ensures ClientFields(tag, Access(tail + rest, 3)) == Some((m, rest))
  {
    assert tail == EncodeClient(m)[1..] && tag == EncodeClient(m)[0];
    match m {
      case ClientHello(version) =>
        U16RoundTrip(version, rest);
        OneBack(version, tail, DecodeU16, rest, 3);
      case ClientIdentify(user, key, enrollment) =>
        var g := EncodeOption(enrollment, Raw);
        ArrayRoundTrip(user, (key + g) + rest);
        ArrayRoundTrip(key, g + rest);
        if enrollment.Some? { ArrayRoundTrip(enrollment.value, rest); }
        OptionRoundTrip(enrollment, Raw, DecodeKey, rest);
        ThreeBack(user, key, enrollment, user, key, g, DecodeId, DecodeKey, DecodeEnrollment, rest, 3);
      case ClientAuthentication(signature) =>
        ArrayRoundTrip(signature, rest);
        OneBack(signature, tail, DecodeSignature, rest, 3);
      case ClientDelivery(id, request) =>
        ArrayRoundTrip(id, EncodeRequest(request) + rest);
        RequestRoundTrip(request, rest);
        TwoBack(id, request, id, EncodeRequest(request), DecodeId, DecodeRequest, rest, 3);
    }
  }

  lemma ClientRoundTrip(m: ClientMessage, rest: bytes)
    requires ClientOk(m)
    ensures DecodeClient(EncodeClient(m) + rest) == Some((m, rest))
  {
    var tag, tail := EncodeClient(m)[0], EncodeClient(m)[1..];
    assert EncodeClient(m) == [tag] + tail;
    TagBack(tag, tail, rest, 4);
    ClientFieldsBack(m, tag, tail, rest);
  }

  datatype RelayMessage =
    | ServerHello(version: nat)
    | ServerIdentifyAccepted(user: bytes)
    | ServerChallenge(challenge: bytes)
    | ProtocolError(requestId: Option<bytes>, fault: Fault)
    | RelayDelivery(id: bytes, response: WireResponse)
    | DeliveryChanged

  predicate RelayOk(m: RelayMessage) {
    match m
    case ServerHello(version) => version < 0x1_0000
    case ServerIdentifyAccepted(user) => IsId(user)
    case ServerChallenge(challenge) => |challenge| == 32
    case ProtocolError(requestId, fault) => (requestId.Some? ==> IsId(requestId.value)) && FaultOk(fault)
    case RelayDelivery(id, response) => IsId(id) && ResponseOk(response)
    case DeliveryChanged => true
  }

  function EncodeRelay(m: RelayMessage): bytes {
    match m
    case ServerHello(version) => [1] + EncodeVarint(version)
    case ServerIdentifyAccepted(user) => [2] + user
    case ServerChallenge(challenge) => [3] + challenge
    case ProtocolError(requestId, fault) => [4] + (EncodeOption(requestId, Raw) + EncodeFault(fault))
    case RelayDelivery(id, response) => [100] + (id + EncodeResponse(response))
    case DeliveryChanged => [101]
  }

  function RelayFields(tag: byte, a: Access): Option<(RelayMessage, bytes)> {
    match tag
    case 1 => var f :- One(a, DecodeU16); Some((ServerHello(f.0), f.1))
    case 2 => var f :- One(a, DecodeId); Some((ServerIdentifyAccepted(f.0), f.1))
    case 3 => var f :- One(a, DecodeKey); Some((ServerChallenge(f.0), f.1))
    case 4 => var f :- Two(a, DecodeMaybeId, DecodeFault); Some((ProtocolError(f.0.0, f.0.1), f.1))
    case 100 => var f :- Two(a, DecodeId, DecodeResponse); Some((RelayDelivery(f.0.0, f.0.1), f.1))
    case 101 => Some((DeliveryChanged, a.rest))
    case _ => None
  }

  /** A relay message is read as a tuple of at most four elements. */
  function DecodeRelay(b: bytes): Option<(RelayMessage, bytes)> {
    var tag :- Required(Access(b, 4), DecodeU8);
    RelayFields(tag.0, tag.1)
  }

  lemma RelayFieldsBack(m: RelayMessage, tag: byte, tail: bytes, rest: bytes)
    requires RelayOk(m) && EncodeRelay(m) == [tag] + tail
    ensures RelayFields(tag, Access(tail + rest, 3)) == Some((m, rest))
  {
    assert tail == EncodeRelay(m)[1..] && tag == EncodeRelay(m)[0];
    match m {
      case ServerHello(version) =>
        U16RoundTrip(version, rest);
        OneBack(version, tail, DecodeU16, rest, 3);
      case ServerIdentifyAccepted(user) =>
        ArrayRoundTrip(user, rest);
        OneBack(user, tail, DecodeId, rest, 3);
      case ServerChallenge(challenge) =>
        ArrayRoundTrip(challenge, rest);
        OneBack(challenge, tail, DecodeKey, rest, 3);
      case ProtocolError(requestId, fault) =>
        if requestId.Some? { ArrayRoundTrip(requestId.value, EncodeFault(fault) + rest); }
        OptionRoundTrip(requestId, Raw, DecodeId, EncodeFault(fault) + rest);
        FaultRoundTrip(fault, rest);
        TwoBack(requestId, fault, EncodeOption(requestId, Raw), EncodeFault(fault),
                DecodeMaybeId, DecodeFault, rest, 3);
      case RelayDelivery(id, response) =>
        ArrayRoundTrip(id, EncodeResponse(response) + rest);
        ResponseRoundTrip(response, rest);
        TwoBack(id, response, id, EncodeResponse(response), DecodeId, DecodeResponse, rest, 3);
      case DeliveryChanged => assert tail + rest == rest;
    }
  }

  lemma RelayRoundTrip(m: RelayMessage, rest: bytes)
    requires RelayOk(m)
    ensures DecodeRelay(EncodeRelay(m) + rest) == Some((m, rest))
  {
    var tag, tail := EncodeRelay(m)[0], EncodeRelay(m)[1..];
    assert EncodeRelay(m) == [tag] + tail;
    TagBack(tag, tail, rest, 4);
    RelayFieldsBack(m, tag, tail, rest);
  }

  // ----- whole messages -----

  /** Refuse to produce more than 768 KiB. */
  function Pack<T>(encode: T -> bytes, m: T): Option<bytes> {
    if |encode(m)| > MAX_PAYLOAD then None else Some(encode(m))
  }

  /** Refuse more than 768 KiB and anything after the message. */
  function Unpack<T>(decode: Decoder<T>, b: bytes): Option<T> {
    if |b| > MAX_PAYLOAD then None
    else
      var message :- decode(b);
      if message.1 != [] then None else Some(message.0)
  }

  /** What a client sends is what the relay reads. */
  lemma ClientMessageRoundTrip(m: ClientMessage, b: bytes)
    requires ClientOk(m) && Pack(EncodeClient, m) == Some(b)
    ensures Unpack(DecodeClient, b) == Some(m)
  {
    ClientRoundTrip(m, []);
    assert b + [] == b;
  }

  /** What the relay sends is what a client reads. */
  lemma RelayMessageRoundTrip(m: RelayMessage, b: bytes)
    requires RelayOk(m) && Pack(EncodeRelay, m) == Some(b)
    ensures Unpack(DecodeRelay, b) == Some(m)
  {
    RelayRoundTrip(m, []);
    assert b + [] == b;
  }
}
