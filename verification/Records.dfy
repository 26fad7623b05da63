/**
  The V9 delivery records (crates/grotto-protocol/src/delivery.rs).

  Foreign cryptography is abstracted where the records mention it:
  - a SHA-256 based identifier or hash is an injective constructor, so a canonical
    receipt identifier remembers the user and the record it acknowledges;
  - an MLS blob is its bytes together with the message it opens to, so the relay
    can look at the length only while a member can look at the content;
  - a signature is the signer together with the signed transcript.
 */
module Records {
  type byte = b: int | 0 <= b < 256

  datatype Option<+T> = None | Some(value: T) {
    predicate IsFailure() { None? }
    function PropagateFailure<U>(): Option<U>
      requires None?
    {
      None
    }
    function Extract(): T
      requires Some?
    {
      value
    }
  }

  type UserId = nat
  /** Room identifiers are compared as 16 big-endian bytes, that is, numerically. */
  type RoomId = nat

  /** An identifier drawn at random, or the canonical identifier of a receipt. */
  datatype MessageId =
    | Random(bits: nat)
    | Receipt(user: UserId, events: seq<MessageId>, welcomes: seq<nat>)

  const MAX_PAYLOAD: nat := 768 * 1024
  const PAGE_SIZE: nat := 100
  const MAX_MESSAGE_BODY_BYTES: nat := 64 * 1024
  const MAX_MLS_BLOB_BYTES: nat := 512 * 1024
  const MAX_KEY_PACKAGE_BYTES: nat := 16 * 1024
  const I64_MAX: nat := 0x7fff_ffff_ffff_ffff
  const U64_MAX: nat := 0xffff_ffff_ffff_ffff

  /** The public part of an MLS group: its epoch and its members. */
  datatype Group = Group(epoch: nat, roster: set<UserId>)

  /** The data an event is bound to: room, event identifier and parent sequence. */
  datatype Binding = Binding(room: RoomId, event: MessageId, parent: nat)

  /** What a blob opens to for a member of the group it was made for. */
  datatype Content =
    | ApplicationMessage(epoch: nat, sender: UserId, binding: Binding, plaintext: seq<byte>)
    | CommitMessage(base: Group, sender: UserId, binding: Binding, added: UserId)
    | WelcomeMessage(room: RoomId, group: Group)
    | KeyPackageMessage(owner: UserId)
    | Malformed

  datatype Blob = Blob(bytes: seq<byte>, content: Content)

  datatype ContentType = Application | Proposal | Commit

  datatype Transcript = Transcript(recipient: UserId, room: RoomId, event: MessageId, sequence: nat, body: Blob)
  datatype Signature = Signature(signer: UserId, transcript: Transcript)

  datatype WelcomeAttachment = WelcomeAttachment(recipient: UserId, body: Blob, signature: Signature)

  datatype Append = Append(
    room: RoomId, parent: nat, epoch: nat, contentType: ContentType, body: Blob,
    welcome: Option<WelcomeAttachment>)

  datatype Event = Event(id: MessageId, sender: UserId, operation: Append)

  datatype WelcomeDelivery = WelcomeDelivery(
    roomName: string, cursor: nat, event: MessageId, room: RoomId, sequence: nat, inviter: UserId,
    attachment: WelcomeAttachment)

  datatype RoomHead = RoomHead(room: RoomId, name: string, sequence: nat)

  datatype Request =
    | CreateRoom(name: string)
    | PublishKeyPackages(packages: seq<Blob>)
    | Acknowledge(events: seq<MessageId>, welcomes: seq<nat>)
    | AppendRoomOperation(operation: Append)
    | FetchRoomEvents(room: RoomId, afterSequence: nat)
    | SyncIndex(afterRoom: Option<RoomId>)
    | FetchWelcomes(afterCursor: nat)
    | ReserveKeyPackage(recipient: UserId)
    | SetFetchGrant(requester: UserId, allowed: bool)

  datatype Rejection = Invalid | Unauthorized | NotFound | RequestConflict | Overloaded | Quota | Internal

  datatype Response =
    | RoomCreated(room: RoomId)
    | KeyPackagesPublished(count: nat)
    | Acknowledged
    | AppendAccepted(event: Event)
    | HeadConflict(room: RoomId, head: nat)
    | RoomEvents(room: RoomId, afterSequence: nat, events: seq<Event>, more: bool)
    | RoomIndex(rooms: seq<RoomHead>, more: bool)
    | Welcomes(afterCursor: nat, welcomes: seq<WelcomeDelivery>, more: bool)
    | KeyPackage(recipient: UserId, package: Blob)
    | FetchGrantSet
    | Rejected(reason: Rejection)

  /** The receipt identifier hashes the user and both lists with their lengths. */
  function AcknowledgementId(user: UserId, events: seq<MessageId>, welcomes: seq<nat>): MessageId {
    Receipt(user, events, welcomes)
  }

  /** Reads are answered afresh every time; everything else is journaled. */
  predicate IsDurable(request: Request) {
    !request.FetchRoomEvents? && !request.FetchWelcomes? && !request.SyncIndex?
  }

  /** Refusals that may change later, so that the exact request is kept for a retry. */
  predicate IsTransient(response: Response) {
    response.Rejected? && (response.reason.Overloaded? || response.reason.Quota? || response.reason.Internal?)
  }
}

/**
  Encoded sizes of the V9 records: one tag byte per variant, LEB128 lengths and
  integers, 16-byte identifiers, 64-byte signatures, UTF-8 names.
 */
module Sizes {
  import opened Records

  /** Bytes of the LEB128 encoding of an unsigned integer. */
  function VarintSize(n: nat): (s: nat)
    ensures 1 <= s
  {
    if n < 0x80 then 1 else 1 + VarintSize(n / 0x80)
  }

  function Power128(k: nat): (p: nat)
    ensures 1 <= p
  {
    if k == 0 then 1 else 0x80 * Power128(k - 1)
  }

  lemma {:induction false} VarintSizeBound(n: nat, k: nat)
    requires 1 <= k && n < Power128(k)
    ensures VarintSize(n) <= k
  {
    if 0x80 <= n {
      assert n / 0x80 < Power128(k - 1);
      VarintSizeBound(n / 0x80, k - 1);
    }
  }

  /** A 64-bit integer takes at most ten bytes, a length below 2 MiB at most three. */
  lemma VarintSizeOfWord(n: nat)
    ensures n <= U64_MAX ==> VarintSize(n) <= 10
    ensures n < 0x20_0000 ==> VarintSize(n) <= 3
  {
    assert Power128(3) == 0x20_0000;
    assert Power128(6) == 0x400_0000_0000;
    assert Power128(9) == 0x20_0000 * 0x400_0000_0000;
    if n < 0x20_0000 { VarintSizeBound(n, 3); }
    if n <= U64_MAX { VarintSizeBound(n, 10); }
  }

  function Utf8Size(name: string): nat {
    if name == "" then 0 else
      (if name[0] as int < 0x80 then 1
       else if name[0] as int < 0x800 then 2
       else if name[0] as int < 0x1_0000 then 3
       else 4) + Utf8Size(name[1..])
  }

  function BytesSize(length: nat): nat { VarintSize(length) + length }

  function BlobSize(blob: Blob): nat { BytesSize(|blob.bytes|) }

  function AttachmentSize(welcome: WelcomeAttachment): nat { 16 + BlobSize(welcome.body) + 64 }

  function AppendSize(operation: Append): nat {
    16 + VarintSize(operation.parent) + VarintSize(operation.epoch) + 1 + BlobSize(operation.body) + 1
    + (if operation.welcome.Some? then AttachmentSize(operation.welcome.value) else 0)
  }

  function EventSize(event: Event): nat { 32 + AppendSize(event.operation) }

  function WelcomeSize(welcome: WelcomeDelivery): nat {
    BytesSize(Utf8Size(welcome.roomName)) + VarintSize(welcome.cursor) + 32
    + VarintSize(welcome.sequence) + 16 + AttachmentSize(welcome.attachment)
  }

  function BlobsSize(blobs: seq<Blob>): nat {
    if blobs == [] then 0 else BlobSize(blobs[0]) + BlobsSize(blobs[1..])
  }

  function VarintsSize(words: seq<nat>): nat {
    if words == [] then 0 else VarintSize(words[0]) + VarintsSize(words[1..])
  }

  function EventsSize(events: seq<Event>): nat {
    if events == [] then 0 else EventSize(events[0]) + EventsSize(events[1..])
  }

  function HeadsSize(heads: seq<RoomHead>): nat {
    if heads == [] then 0 else
      16 + BytesSize(Utf8Size(heads[0].name)) + VarintSize(heads[0].sequence) + HeadsSize(heads[1..])
  }

  function WelcomesSize(welcomes: seq<WelcomeDelivery>): nat {
    if welcomes == [] then 0 else WelcomeSize(welcomes[0]) + WelcomesSize(welcomes[1..])
  }

  function RequestSize(request: Request): nat {
    1 + match request
        case CreateRoom(name) => BytesSize(Utf8Size(name))
        case PublishKeyPackages(packages) => VarintSize(|packages|) + BlobsSize(packages)
        case Acknowledge(events, welcomes) =>
          VarintSize(|events|) + 16 * |events| + VarintSize(|welcomes|) + VarintsSize(welcomes)
        case AppendRoomOperation(operation) => AppendSize(operation)
        case FetchRoomEvents(_, after) => 16 + VarintSize(after)
        case SyncIndex(after) => 1 + (if after.Some? then 16 else 0)
        case FetchWelcomes(after) => VarintSize(after)
        case ReserveKeyPackage(_) => 16
        case SetFetchGrant(_, _) => 17
  }

  function ResponseSize(response: Response): nat {
    1 + match response
        case RoomCreated(_) => 16
        case KeyPackagesPublished(count) => VarintSize(count)
        case Acknowledged => 0
        case AppendAccepted(event) => EventSize(event)
        case HeadConflict(_, head) => 16 + VarintSize(head)
        case RoomEvents(_, after, events, _) =>
          16 + VarintSize(after) + VarintSize(|events|) + EventsSize(events) + 1
        case RoomIndex(rooms, _) => VarintSize(|rooms|) + HeadsSize(rooms) + 1
        case Welcomes(after, welcomes, _) =>
          VarintSize(after) + VarintSize(|welcomes|) + WelcomesSize(welcomes) + 1
        case KeyPackage(_, package) => 16 + BlobSize(package)
        case FetchGrantSet => 0
        case Rejected(_) => 1
  }
}

/** Room names are trimmed, at most 100 characters long and free of control characters. */
module RoomNames {
  import opened Records

  predicate IsWhitespace(c: char) {
    var p := c as int;
    9 <= p <= 13 || p == 0x20 || p == 0x85 || p == 0xA0 || p == 0x1680 || 0x2000 <= p <= 0x200A
    || p == 0x2028 || p == 0x2029 || p == 0x202F || p == 0x205F || p == 0x3000
  }

  predicate IsControl(c: char) { c as int < 0x20 || 0x7F <= c as int < 0xA0 }

  function TrimStart(s: string): string {
    if s != "" && IsWhitespace(s[0]) then TrimStart(s[1..]) else s
  }

  function TrimEnd(s: string): string {
    if s != "" && IsWhitespace(s[|s| - 1]) then TrimEnd(s[..|s| - 1]) else s
  }

  function NormalizeRoomName(name: string): Option<string> {
    var trimmed := TrimEnd(TrimStart(name));
    if trimmed == "" || |trimmed| > 100 || exists i :: 0 <= i < |trimmed| && IsControl(trimmed[i])
    then None else Some(trimmed)
  }
}
