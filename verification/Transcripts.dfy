/**
  The byte strings that are hashed, signed or authenticated
  (crates/grotto-protocol/src/delivery.rs). Each determines the data it was made from, which is
  what lets a hash or a signature over it stand for that data.
 */
module Transcripts {
  import opened Records
  import opened Postcard

  /** Big-endian 64-bit integers. */
  function Word(n: nat): (b: bytes)
    requires n <= U64_MAX
    ensures |b| == 8
  {
    Digits(n, 8)
  }

  function Digits(n: nat, k: nat): (b: bytes)
    ensures |b| == k
  {
    if k == 0 then [] else Digits(n / 0x100, k - 1) + [n % 0x100]
  }

  function Value(b: bytes): nat {
    if b == [] then 0 else Value(b[..|b| - 1]) * 0x100 + b[|b| - 1]
  }

  function Power256(k: nat): nat { if k == 0 then 1 else 0x100 * Power256(k - 1) }

  lemma {:induction false} DigitsBack(n: nat, k: nat)
    requires n < Power256(k)
    ensures Value(Digits(n, k)) == n
  {
    if k > 0 {
      DigitsBack(n / 0x100, k - 1);
      assert Digits(n, k)[..k - 1] == Digits(n / 0x100, k - 1);
    }
  }

  lemma WordInjective(a: nat, b: nat)
    requires a <= U64_MAX && b <= U64_MAX && Word(a) == Word(b)
    ensures a == b
  {
    assert Power256(4) == 0x1_0000_0000;
    assert Power256(8) == 0x1_0000_0000 * Power256(4);
    DigitsBack(a, 8);
    DigitsBack(b, 8);
  }

  /** Equal concatenations with first parts of equal length have equal parts. */
  lemma SplitEqual(a: bytes, b: bytes, c: bytes, d: bytes)
    requires a + b == c + d && |a| == |c|
    ensures a == c && b == d
  {
    assert (a + b)[..|a|] == a && (c + d)[..|c|] == c;
    assert (a + b)[|a|..] == b && (c + d)[|c|..] == d;
  }

  // ----- receipts -----

  predicate AllWords(words: seq<nat>) { forall i :: 0 <= i < |words| ==> words[i] <= U64_MAX }

  function Words(words: seq<nat>): bytes
    requires AllWords(words)
  {
    if words == [] then [] else Word(words[0]) + Words(words[1..])
  }

  predicate ReceiptData(user: bytes, events: seq<bytes>, welcomes: seq<nat>) {
    IsId(user) && AllIds(events) && AllWords(welcomes) && |events| <= U64_MAX && |welcomes| <= U64_MAX
  }

  /** The bytes of "GROTTO-RECEIPT-V9", "GROTTO-EVENT-V9" and "GROTTO-WELCOME-V9", each with a zero. */
  const RECEIPT_TAG: bytes :=
    [0x47, 0x52, 0x4f, 0x54, 0x54, 0x4f, 0x2d, 0x52, 0x45, 0x43, 0x45, 0x49, 0x50, 0x54, 0x2d, 0x56, 0x39, 0]
  const EVENT_TAG: bytes :=
    [0x47, 0x52, 0x4f, 0x54, 0x54, 0x4f, 0x2d, 0x45, 0x56, 0x45, 0x4e, 0x54, 0x2d, 0x56, 0x39, 0]
  const WELCOME_TAG: bytes :=
    [0x47, 0x52, 0x4f, 0x54, 0x54, 0x4f, 0x2d, 0x57, 0x45, 0x4c, 0x43, 0x4f, 0x4d, 0x45, 0x2d, 0x56, 0x39, 0]

  /** What the identifier of a receipt is the hash of. */
  function ReceiptPreimage(user: bytes, events: seq<bytes>, welcomes: seq<nat>): bytes
    requires ReceiptData(user, events, welcomes)
  {
    RECEIPT_TAG + (user + (Word(|events|) + (Ids(events) + (Word(|welcomes|) + Words(welcomes)))))
  }

  lemma {:induction false} IdsInjective(a: seq<bytes>, b: seq<bytes>)
    requires AllIds(a) && AllIds(b) && |a| == |b| && Ids(a) == Ids(b)
    ensures a == b
  {
    if a != [] {
      assert IsId(a[0]) && IsId(b[0]);
      SplitEqual(a[0], Ids(a[1..]), b[0], Ids(b[1..]));
      IdsInjective(a[1..], b[1..]);
      assert a == [a[0]] + a[1..] && b == [b[0]] + b[1..];
    }
  }

  lemma {:induction false} WordsInjective(a: seq<nat>, b: seq<nat>)
    requires AllWords(a) && AllWords(b) && |a| == |b| && Words(a) == Words(b)
    ensures a == b
  {
    if a != [] {
      SplitEqual(Word(a[0]), Words(a[1..]), Word(b[0]), Words(b[1..]));
      WordInjective(a[0], b[0]);
      WordsInjective(a[1..], b[1..]);
      assert a == [a[0]] + a[1..] && b == [b[0]] + b[1..];
    }
  }

  /** A receipt's identifier is canonical: different users or records hash different bytes. */
  lemma ReceiptInjective(u: bytes, es: seq<bytes>, ws: seq<nat>, v: bytes, fs: seq<bytes>, xs: seq<nat>)
    requires ReceiptData(u, es, ws) && ReceiptData(v, fs, xs)
    requires ReceiptPreimage(u, es, ws) == ReceiptPreimage(v, fs, xs)
    ensures u == v && es == fs && ws == xs
  {
    var tailE, tailF := Word(|ws|) + Words(ws), Word(|xs|) + Words(xs);
    SplitEqual(RECEIPT_TAG, u + (Word(|es|) + (Ids(es) + tailE)), RECEIPT_TAG, v + (Word(|fs|) + (Ids(fs) + tailF)));
    SplitEqual(u, Word(|es|) + (Ids(es) + tailE), v, Word(|fs|) + (Ids(fs) + tailF));
    SplitEqual(Word(|es|), Ids(es) + tailE, Word(|fs|), Ids(fs) + tailF);
    WordInjective(|es|, |fs|);
    IdsLength(es);
    IdsLength(fs);
    SplitEqual(Ids(es), tailE, Ids(fs), tailF);
    IdsInjective(es, fs);
    SplitEqual(Word(|ws|), Words(ws), Word(|xs|), Words(xs));
    WordInjective(|ws|, |xs|);
    WordsInjective(ws, xs);
  }

  // ----- events and Welcomes -----

  /** What an event's ciphertext authenticates. */
  function EventData(room: bytes, event: bytes, parent: nat): bytes
    requires parent <= U64_MAX
  {
    EVENT_TAG + (room + (event + Word(parent)))
  }

  /** An event's ciphertext is bound to one room, one identifier and one parent. */
  lemma EventDataInjective(r: bytes, e: bytes, p: nat, s: bytes, f: bytes, q: nat)
    requires IsId(r) && IsId(e) && IsId(s) && IsId(f) && p <= U64_MAX && q <= U64_MAX
    requires EventData(r, e, p) == EventData(s, f, q)
    ensures r == s && e == f && p == q
  {
    SplitEqual(EVENT_TAG, r + (e + Word(p)), EVENT_TAG, s + (f + Word(q)));
    SplitEqual(r, e + Word(p), s, f + Word(q));
    SplitEqual(e, Word(p), f, Word(q));
    WordInjective(p, q);
  }

  /** What a Welcome's signature covers: the body enters as its digest. */
  function WelcomeData(recipient: bytes, room: bytes, event: bytes, sequence: nat, digest: bytes): bytes
    requires sequence <= U64_MAX
  {
    WELCOME_TAG + (recipient + (room + (event + (Word(sequence) + digest))))
  }

  /** A Welcome's signature is for one recipient, room, event, sequence and body digest. */
  lemma WelcomeDataInjective(
    u: bytes, r: bytes, e: bytes, n: nat, d: bytes, v: bytes, s: bytes, f: bytes, m: nat, c: bytes)
    requires IsId(u) && IsId(r) && IsId(e) && IsId(v) && IsId(s) && IsId(f) && n <= U64_MAX && m <= U64_MAX
    requires WelcomeData(u, r, e, n, d) == WelcomeData(v, s, f, m, c)
    ensures u == v && r == s && e == f && n == m && d == c
  {
    SplitEqual(WELCOME_TAG, u + (r + (e + (Word(n) + d))), WELCOME_TAG, v + (s + (f + (Word(m) + c))));
    SplitEqual(u, r + (e + (Word(n) + d)), v, s + (f + (Word(m) + c)));
    SplitEqual(r, e + (Word(n) + d), s, f + (Word(m) + c));
    SplitEqual(e, Word(n) + d, f, Word(m) + c);
    SplitEqual(Word(n), d, Word(m), c);
    WordInjective(n, m);
  }

  /** Data of different kinds never coincide, so that nothing signed or hashed for one purpose counts
      for another. */
  lemma DomainsApart(u: bytes, es: seq<bytes>, ws: seq<nat>, r: bytes, e: bytes, p: nat, v: bytes, s: bytes, f: bytes,
                     n: nat, d: bytes)
    requires ReceiptData(u, es, ws) && p <= U64_MAX && n <= U64_MAX
    ensures ReceiptPreimage(u, es, ws) != EventData(r, e, p)
    ensures ReceiptPreimage(u, es, ws) != WelcomeData(v, s, f, n, d)
    ensures EventData(r, e, p) != WelcomeData(v, s, f, n, d)
  {
    assert ReceiptPreimage(u, es, ws)[7] == 0x52;
    assert EventData(r, e, p)[7] == 0x45;
    assert WelcomeData(v, s, f, n, d)[7] == 0x57;
  }

  /** The first byte in which they differ is the smaller one. */
  ghost predicate Before(a: bytes, b: bytes) {
    |a| == |b| && exists i :: 0 <= i < |a| && a[..i] == b[..i] && a[i] < b[i]
  }

  /** The most significant byte comes first: numbers and their bytes are in the same order. */
  lemma {:induction false} DigitsAscend(a: nat, b: nat, k: nat)
    requires a < b < Power256(k)
    ensures Before(Digits(a, k), Digits(b, k))
    decreases k
  {
    var x, y := Digits(a, k), Digits(b, k);
    var head, tail := Digits(a / 0x100, k - 1), Digits(b / 0x100, k - 1);
    if a / 0x100 < b / 0x100 {
      DigitsAscend(a / 0x100, b / 0x100, k - 1);
      var i :| 0 <= i < |head| && head[..i] == tail[..i] && head[i] < tail[i];
      assert x[..i] == head[..i] && y[..i] == tail[..i] && x[i] < y[i];
    } else {
      assert x[..k - 1] == head && y[..k - 1] == tail && x[k - 1] < y[k - 1];
    }
  }

  lemma WordsAscend(a: nat, b: nat)
    requires a < b <= U64_MAX
    ensures Before(Word(a), Word(b))
  {
    assert Power256(4) == 0x1_0000_0000;
    assert Power256(8) == 0x1_0000_0000 * Power256(4);
    DigitsAscend(a, b, 8);
  }
}
