/** Length-prefixed frames over a byte stream that arrives in arbitrary pieces
    (crates/grotto-protocol/src/lib.rs). */
module Frames {
  import opened Records
  import opened Postcard
  import opened Wire

  const MAX_FRAME_SIZE: nat := 1024 * 1024

  // ----- the length -----

  function Header(n: nat): bytes
    requires n < 0x1_0000_0000
  {
    [n / 0x100_0000, n / 0x1_0000 % 0x100, n / 0x100 % 0x100, n % 0x100]
  }

  function BigEndian(b: bytes): nat
    requires |b| == 4
  {
    (b[0] as int) * 0x100_0000 + (b[1] as int) * 0x1_0000 + (b[2] as int) * 0x100 + b[3] as int
  }

  lemma HeaderRoundTrip(n: nat)
    requires n < 0x1_0000_0000
    ensures BigEndian(Header(n)) == n
  {
    assert n == n / 0x100 * 0x100 + n % 0x100;
    assert n / 0x100 == n / 0x1_0000 * 0x100 + n / 0x100 % 0x100;
    assert n / 0x1_0000 == n / 0x100_0000 * 0x100 + n / 0x1_0000 % 0x100;
  }

  /** The most significant byte comes first. */
  lemma HeaderOrder()
    ensures Header(0x0102_0304) == [1, 2, 3, 4]
  {}

  // ----- what a stream contains -----

  datatype FrameResult = Frame(payload: bytes, rest: bytes) | EndOfStream | Broken

  function FrameOf(payload: bytes): Option<bytes> {
    if |payload| > MAX_FRAME_SIZE then None else Some(Header(|payload|) + payload)
  }

  /** The stream may end only between two frames. */
  function NextFrame(stream: bytes): (r: FrameResult)
    ensures r.Frame? ==> |r.rest| < |stream|
  {
    if stream == [] then EndOfStream
    else if |stream| < 4 then Broken
    else
      var n := BigEndian(stream[..4]);
      if n > MAX_FRAME_SIZE || |stream| < 4 + n then Broken else Frame(stream[4..4 + n], stream[4 + n..])
  }

  lemma FrameRoundTrip(payload: bytes, rest: bytes)
    requires |payload| <= MAX_FRAME_SIZE
    ensures NextFrame(FrameOf(payload).value + rest) == Frame(payload, rest)
  {
    HeaderRoundTrip(|payload|);
    var stream := FrameOf(payload).value + rest;
    assert stream[..4] == Header(|payload|);
    assert stream[4..4 + |payload|] == payload;
    assert stream[4 + |payload|..] == rest;
  }

  /** Every message of a stream, or None if a frame or a message is malformed. */
  function Messages<T>(stream: bytes, decode: Decoder<T>): Option<seq<T>>
    decreases |stream|
  {
    match NextFrame(stream)
    case EndOfStream => Some([])
    case Broken => None
    case Frame(payload, rest) =>
      var first :- Unpack(decode, payload);
      var others :- Messages(rest, decode);
      Some([first] + others)
  }

  /** Encode, frame and concatenate. */
  function Stream<T>(messages: seq<T>, encode: T -> bytes): Option<bytes> {
    if messages == [] then Some([])
    else
      var payload :- Pack(encode, messages[0]);
      var frame :- FrameOf(payload);
      var others :- Stream(messages[1..], encode);
      Some(frame + others)
  }

  lemma {:induction false} StreamRoundTrip<T>(messages: seq<T>, encode: T -> bytes, decode: Decoder<T>, stream: bytes)
    requires forall i :: 0 <= i < |messages| && Pack(encode, messages[i]).Some? ==>
               Unpack(decode, Pack(encode, messages[i]).value) == Some(messages[i])
    requires Stream(messages, encode) == Some(stream)
    ensures Messages(stream, decode) == Some(messages)
    decreases |messages|
  {
    if messages != [] {
      var payload := Pack(encode, messages[0]).value;
      var others := Stream(messages[1..], encode).value;
      FrameRoundTrip(payload, others);
      StreamRoundTrip(messages[1..], encode, decode, others);
      assert messages == [messages[0]] + messages[1..];
    }
  }

  // ----- reading and writing -----

  /** A stream that hands out its bytes in pieces of any size. */
  class Reader {
    var stream: bytes

    constructor (stream: bytes)
      ensures this.stream == stream
    {
      this.stream := stream;
    }

    /** Read some bytes into the buffer from a position on; nothing only at the end. */
    method Read(buffer: array<byte>, from: nat) returns (n: nat)
      requires from < buffer.Length
      modifies this, buffer
      ensures n <= buffer.Length - from && n <= |old(stream)| && (n == 0 <==> old(stream) == [])
      ensures stream == old(stream)[n..]
      ensures buffer[..from + n] == old(buffer[..from]) + old(stream)[..n]
    {
      if stream == [] {
        assert buffer[..from] == old(buffer[..from]) + [];
        return 0;
      }
      var limit := if |stream| < buffer.Length - from then |stream| else buffer.Length - from;
      n :| 1 <= n <= limit;
      var i := 0;
      while i < n
        invariant 0 <= i <= n && stream == old(stream)
        invariant buffer[..from + i] == old(buffer[..from]) + stream[..i]
      {
        buffer[from + i] := stream[i];
        i := i + 1;
      }
      stream := stream[n..];
    }

    /** Read until the buffer is full or the stream ends. */
    method Fill(buffer: array<byte>) returns (got: nat)
      modifies this, buffer
      ensures got <= buffer.Length && got <= |old(stream)|
      ensures got < buffer.Length ==> got == |old(stream)|
      ensures buffer[..got] == old(stream)[..got] && stream == old(stream)[got..]
    {
      got := 0;
      while got < buffer.Length
        invariant got <= buffer.Length && got <= |old(stream)|
        invariant buffer[..got] == old(stream)[..got] && stream == old(stream)[got..]
      {
        var n := Read(buffer, got);
        if n == 0 { return; }
        assert old(stream)[..got + n] == old(stream)[..got] + old(stream)[got..][..n];
        got := got + n;
      }
    }

    /** One frame, whatever the pieces it arrives in. */
    method ReadFrame() returns (result: FrameResult)
      modifies this
      ensures result == NextFrame(old(stream))
      ensures result.Frame? ==> stream == result.rest
      ensures result.EndOfStream? ==> stream == []
    {
      var header := new byte[4];
      var got := Fill(header);
      if got == 0 { return EndOfStream; }
      if got < 4 { return Broken; }
      assert header[..] == old(stream)[..4];
      var length := BigEndian(header[..]);
      if length > MAX_FRAME_SIZE { return Broken; }
      var payload := new byte[length];
      got := Fill(payload);
      if got < length { return Broken; }
      assert payload[..] == old(stream)[4..][..length];
      return Frame(payload[..], stream);
    }

    /** Read and decode frames until the stream ends. */
    method ReadMessages<T>(decode: Decoder<T>) returns (messages: Option<seq<T>>)
      modifies this
      ensures messages == Messages(old(stream), decode)
    {
      var list: seq<T> := [];
      FollowingNothing(Messages(stream, decode));
      while true
        invariant Messages(old(stream), decode) == Following(list, Messages(stream, decode))
        decreases |stream|
      {
        ghost var before := stream;
        var result := ReadFrame();
        match result {
          case EndOfStream =>
            assert list + [] == list;
            return Some(list);
          case Broken => return None;
          case Frame(payload, rest) =>
            var message := Unpack(decode, payload);
            if message.None? { return None; }
            FollowingStep(list, before, decode, message.value, rest);
            list := list + [message.value];
        }
      }
    }
  }

  function Following<T>(list: seq<T>, r: Option<seq<T>>): Option<seq<T>> {
    match r
    case None => None
    case Some(others) => Some(list + others)
  }

  lemma FollowingNothing<T>(r: Option<seq<T>>)
    ensures Following([], r) == r
  {
    if r.Some? { assert [] + r.value == r.value; }
  }

  lemma FollowingStep<T>(list: seq<T>, stream: bytes, decode: Decoder<T>, message: T, rest: bytes)
    requires NextFrame(stream).Frame? && NextFrame(stream).rest == rest
    requires Unpack(decode, NextFrame(stream).payload) == Some(message)
    ensures Following(list, Messages(stream, decode)) == Following(list + [message], Messages(rest, decode))
  {
    match Messages(rest, decode) {
      case None =>
      case Some(others) => assert list + ([message] + others) == (list + [message]) + others;
    }
  }

  class Writer {
    var stream: bytes

    constructor ()
      ensures stream == []
    {
      stream := [];
    }

    method WriteFrame(payload: bytes) returns (ok: bool)
      modifies this
      ensures ok == FrameOf(payload).Some?
      ensures stream == if ok then old(stream) + FrameOf(payload).value else old(stream)
    {
      if |payload| > MAX_FRAME_SIZE { return false; }
      var length := Header(|payload|);
      stream := stream + length;
      stream := stream + payload;
      return true;
    }
  }

  /** Codec and framing round trip, towards the relay: any list of client messages that can be
      sent reads back as exactly that list, then the end of the stream. */
  lemma ClientStreamRoundTrip(messages: seq<ClientMessage>, stream: bytes)
    requires forall i :: 0 <= i < |messages| ==> ClientOk(messages[i])
    requires Stream(messages, EncodeClient) == Some(stream)
    ensures Messages(stream, DecodeClient) == Some(messages)
  {
    forall i | 0 <= i < |messages| && Pack(EncodeClient, messages[i]).Some?
      ensures Unpack(DecodeClient, Pack(EncodeClient, messages[i]).value) == Some(messages[i])
    {
      ClientMessageRoundTrip(messages[i], Pack(EncodeClient, messages[i]).value);
    }
    StreamRoundTrip(messages, EncodeClient, DecodeClient, stream);
  }

  /** The same towards a client. */
  lemma RelayStreamRoundTrip(messages: seq<RelayMessage>, stream: bytes)
    requires forall i :: 0 <= i < |messages| ==> RelayOk(messages[i])
    requires Stream(messages, EncodeRelay) == Some(stream)
    ensures Messages(stream, DecodeRelay) == Some(messages)
  {
    forall i | 0 <= i < |messages| && Pack(EncodeRelay, messages[i]).Some?
      ensures Unpack(DecodeRelay, Pack(EncodeRelay, messages[i]).value) == Some(messages[i])
    {
      RelayMessageRoundTrip(messages[i], Pack(EncodeRelay, messages[i]).value);
    }
    StreamRoundTrip(messages, EncodeRelay, DecodeRelay, stream);
  }

  /** A list can be sent exactly when every message fits 768 KiB. */
  lemma {:induction false} StreamExists<T>(messages: seq<T>, encode: T -> bytes)
    ensures Stream(messages, encode).Some? <==> forall i :: 0 <= i < |messages| ==> |encode(messages[i])| <= MAX_PAYLOAD
    decreases |messages|
  {
    if messages != [] {
      StreamExists(messages[1..], encode);
      assert forall i :: 0 < i < |messages| ==> messages[i] == messages[1..][i - 1];
    }
  }
}
