/**
  The hourly allocation limit and the clock: the rate check and the insert of one reservation
  read the clock separately (crates/grotto-relay/src/delivery.rs).
 */
module ClockWindow {
  import opened Records
  import opened Sizes
  import opened RelaySpec
  import opened RelayInvariants
  import opened RelayTheorems

  // ----- four reservations, and a fifth whose clock runs back -----

  const PACKAGE := Blob([0], Malformed)

  function EnvAt(checkedAt: int, allocatedAt: int): Environment {
    Environment(0, checkedAt, allocatedAt, 0, 0, 0x1_0000_0000)
  }

  function Publication(recipient: UserId): Call {
    Call(recipient, Random(0), PublishKeyPackages([PACKAGE, PACKAGE, PACKAGE, PACKAGE, PACKAGE]), EnvAt(0, 0))
  }

  function Grant(recipient: UserId, requester: UserId): Call {
    Call(recipient, Random(1), SetFetchGrant(requester, true), EnvAt(0, 0))
  }

  function Reservation(recipient: UserId, requester: UserId, k: nat, env: Environment): Call {
    Call(requester, Random(k + 2), ReserveKeyPackage(recipient), env)
  }

  /** The time of the first four reservations: outside the check of the fifth, and within one
      hour of its insert. */
  function Early(checkedAt: int, allocatedAt: int): int {
    if allocatedAt <= checkedAt - 3600 then allocatedAt else checkedAt - 3600
  }

  /** The first `n` reservations after the publication and the grant. */
  function Calls(recipient: UserId, requester: UserId, at: int, n: nat): (calls: seq<Call>)
    ensures |calls| == n + 2
  {
    if n == 0 then [Publication(recipient), Grant(recipient, requester)]
    else Calls(recipient, requester, at, n - 1) + [Reservation(recipient, requester, n - 1, EnvAt(at, at))]
  }

  lemma {:induction false} CallsSteady(recipient: UserId, requester: UserId, at: int, n: nat)
    ensures ClockSteadyWithinCalls(Calls(recipient, requester, at, n))
  {
    if n > 0 { CallsSteady(recipient, requester, at, n - 1); }
  }

  // ----- the tables on the way -----

  function Copies(a: Allocation, n: nat): (rows: seq<Allocation>)
    ensures |rows| == n
  {
    if n == 0 then [] else Copies(a, n - 1) + [a]
  }

  lemma {:induction false} CopiesCounted(a: Allocation, n: nat, requester: Option<UserId>, after: int, start: int)
    requires requester.Some? ==> requester.value == a.requester
    ensures AllocationsAfter(Copies(a, n), a.recipient, requester, after) == if a.at > after then n else 0
    ensures InWindow(Copies(a, n), a.recipient, requester, start) == if start < a.at <= start + 3600 then n else 0
  {
    if n > 0 {
      assert Copies(a, n)[..n - 1] == Copies(a, n - 1);
      CopiesCounted(a, n - 1, requester, after, start);
    }
  }

  ghost predicate Unused(journal: seq<JournalRow>, n: nat) {
    forall i :: 0 <= i < |journal| ==> journal[i].id.Random? && journal[i].id.bits < n
  }

  ghost predicate Cheap(t: Tables, n: nat) { forall user :: Used(t.usageSender, user) <= 20000 * n }

  /** After the publication, the grant and `n` reservations at one time. */
  ghost predicate Stocked(t: Tables, recipient: UserId, requester: UserId, at: int, n: nat) {
    && (recipient, requester) in t.grants && |Pool(t.packages, recipient)| == 5 - n
    && (forall i :: 0 <= i < |Pool(t.packages, recipient)| ==> Pool(t.packages, recipient)[i] == PACKAGE)
    && t.allocations == Copies(Allocation(requester, recipient, at), n)
    && Unused(t.journal, n + 2) && Cheap(t, n + 2)
  }

  lemma Sized(recipient: UserId, requester: UserId, k: nat, env: Environment)
    ensures RequestSize(Publication(recipient).request) == 12 && Charge(Publication(recipient).request) <= 20000
    ensures Charge(Grant(recipient, requester).request) <= 20000
    ensures Charge(Reservation(recipient, requester, k, env).request) <= 20000
  {
    OneByteEach(Publication(recipient).request.packages);
  }

  lemma {:induction false} OneByteEach(packages: seq<Blob>)
    requires forall i :: 0 <= i < |packages| ==> |packages[i].bytes| == 1
    ensures BlobsSize(packages) == 2 * |packages| && TotalBytes(packages) == |packages|
  {
    if packages != [] { OneByteEach(packages[1..]); }
  }

  lemma NotYet(journal: seq<JournalRow>, user: UserId, n: nat)
    requires Unused(journal, n)
    ensures Lookup(journal, user, Random(n)).None?
  {
    LookupFinds(journal, user, Random(n));
  }

  lemma Published(recipient: UserId)
    ensures var t := After(EMPTY, DEFAULT_LIMITS, Publication(recipient));
            && t == EMPTY.(packages := t.packages, journal := t.journal, usageSender := t.usageSender)
            && Pool(t.packages, recipient) == Publication(recipient).request.packages
            && Unused(t.journal, 1) && Cheap(t, 1)
  {
    var call := Publication(recipient);
    Sized(recipient, recipient, 0, call.env);
    PoolOfRows(recipient, call.request.packages, recipient);
    assert [] + PackageRows(recipient, call.request.packages) == PackageRows(recipient, call.request.packages);
    OneByteEach(call.request.packages);
  }

  lemma ChargedCheap(t: Tables, user: UserId, request: Request, n: nat)
    requires Cheap(t, n) && Charge(request) <= 20000 && !request.AppendRoomOperation?
    ensures Cheap(ChargeLedgers(t, user, request), n + 1)
  {
    var t' := ChargeLedgers(t, user, request);
    forall other ensures Used(t'.usageSender, other) <= 20000 * (n + 1) {
      assert Used(t.usageSender, other) <= 20000 * n;
    }
  }

  /** An admitted request that is answered for good is charged and journaled. */
  lemma Recorded(t: Tables, call: Call, t1: Tables, response: Response, n: nat)
    requires Cheap(t, n) && Unused(t.journal, n) && n < 10 && call.id == Random(n)
    requires call.request.SetFetchGrant? || call.request.ReserveKeyPackage?
    requires Charge(call.request) <= 20000 && call.env.logical == call.env.wal == 0 && call.env.free == 0x1_0000_0000
    requires Execute(t, call.user, call.id, call.request, call.env) == Done(t1, response)
    requires t1.journal == t.journal && t1.usageSender == t.usageSender
    requires !IsTransient(response) && ResponseSize(response) <= MAX_PAYLOAD
    ensures var t' := After(t, DEFAULT_LIMITS, call);
            && t' == t1.(journal := t'.journal, usageSender := t'.usageSender)
            && Unused(t'.journal, n + 1) && Cheap(t', n + 1)
  {
    NotYet(t.journal, call.user, n);
    assert Used(t.usageSender, call.user) <= 20000 * n;
    ChargedCheap(t1, call.user, call.request, n);
  }

  lemma Granted(t: Tables, recipient: UserId, requester: UserId, at: int)
    requires t.grants == {} && t.allocations == [] && Unused(t.journal, 1) && Cheap(t, 1)
    requires Pool(t.packages, recipient) == Publication(recipient).request.packages
    ensures Stocked(After(t, DEFAULT_LIMITS, Grant(recipient, requester)), recipient, requester, at, 0)
  {
    Sized(recipient, requester, 0, EnvAt(0, 0));
    Recorded(t, Grant(recipient, requester), t.(grants := {(recipient, requester)}), FetchGrantSet, 1);
  }

  /** A reservation that passes the rate check. */
  lemma Reserved(t: Tables, recipient: UserId, requester: UserId, at: int, n: nat, env: Environment)
    requires Stocked(t, recipient, requester, at, n) && n < 5
    requires env == EnvAt(env.checkedAt, env.allocatedAt)
    requires RateAllows(t.allocations, recipient, requester, env.checkedAt)
    ensures var t' := After(t, DEFAULT_LIMITS, Reservation(recipient, requester, n, env));
            && t'.allocations == t.allocations + [Allocation(requester, recipient, env.allocatedAt)]
            && (env.allocatedAt == at ==> Stocked(t', recipient, requester, at, n + 1))
  {
    Sized(recipient, requester, n, env);
    PoolWithoutFirst(t.packages, recipient, recipient);
    var t1 := t.(packages := WithoutFirst(t.packages, recipient),
                 allocations := t.allocations + [Allocation(requester, recipient, env.allocatedAt)]);
    Recorded(t, Reservation(recipient, requester, n, env), t1, KeyPackage(recipient, PACKAGE), n + 2);
  }

  lemma FirstStocked(recipient: UserId, requester: UserId, at: int)
    ensures Stocked(Run(EMPTY, DEFAULT_LIMITS, [Publication(recipient), Grant(recipient, requester)]),
                    recipient, requester, at, 0)
  {
    var first, second := Publication(recipient), Grant(recipient, requester);
    Published(recipient);
    RunLast(EMPTY, DEFAULT_LIMITS, [first], second);
    RunLast(EMPTY, DEFAULT_LIMITS, [], first);
    assert [] + [first] == [first] && [first] + [second] == [first, second];
    Granted(After(EMPTY, DEFAULT_LIMITS, first), recipient, requester, at);
  }

  lemma {:induction false} AllStocked(recipient: UserId, requester: UserId, at: int, n: nat)
    requires n <= 4
    ensures Stocked(Run(EMPTY, DEFAULT_LIMITS, Calls(recipient, requester, at, n)), recipient, requester, at, n)
  {
    if n == 0 {
      FirstStocked(recipient, requester, at);
    } else {
      AllStocked(recipient, requester, at, n - 1);
      var t := Run(EMPTY, DEFAULT_LIMITS, Calls(recipient, requester, at, n - 1));
      var a := Allocation(requester, recipient, at);
      CopiesCounted(a, n - 1, None, at - 3600, at);
      CopiesCounted(a, n - 1, Some(requester), at - 3600, at);
      Reserved(t, recipient, requester, at, n - 1, EnvAt(at, at));
      RunLast(EMPTY, DEFAULT_LIMITS, Calls(recipient, requester, at, n - 1),
              Reservation(recipient, requester, n - 1, EnvAt(at, at)));
    }
  }

  // ----- the limit is broken -----

  function Fifth(recipient: UserId, requester: UserId, checkedAt: int, allocatedAt: int): Call {
    Reservation(recipient, requester, 4, EnvAt(checkedAt, allocatedAt))
  }

  function Breaking(recipient: UserId, requester: UserId, checkedAt: int, allocatedAt: int): seq<Call> {
    Calls(recipient, requester, Early(checkedAt, allocatedAt), 4)
    + [Fifth(recipient, requester, checkedAt, allocatedAt)]
  }

  lemma FiveInWindow(a: Allocation, last: Allocation)
    requires last.recipient == a.recipient && last.requester == a.requester && a.at <= last.at < a.at + 3600
    ensures !WindowOk(Copies(a, 4) + [last])
  {
    CopiesCounted(a, 4, Some(a.requester), a.at, a.at - 1);
    InWindowAppend(Copies(a, 4), last, a.recipient, Some(a.requester), a.at - 1);
    var rows := Copies(a, 4) + [last];
    assert InWindow(rows, a.recipient, Some(a.requester), a.at - 1) == 5;
    assert !(InWindow(rows, a.recipient, None, a.at - 1) <= 16
             && InWindow(rows, a.recipient, Some(a.requester), a.at - 1) <= 4);
  }

  /** If the clock runs back inside the fifth reservation of a run whose other calls are steady,
      five packages of one pair of users are allocated within one hour. */
  lemma ClockRunningBack(recipient: UserId, requester: UserId, checkedAt: int, allocatedAt: int)
    requires allocatedAt < checkedAt
    ensures var calls := Breaking(recipient, requester, checkedAt, allocatedAt);
            && SteadyExcept(calls, |calls| - 1)
            && calls[|calls| - 1] == Fifth(recipient, requester, checkedAt, allocatedAt)
            && !WindowOk(Run(EMPTY, DEFAULT_LIMITS, calls).allocations)
  {
    var at := Early(checkedAt, allocatedAt);
    var steady := Calls(recipient, requester, at, 4);
    var fifth := Fifth(recipient, requester, checkedAt, allocatedAt);
    CallsSteady(recipient, requester, at, 4);
    AllStocked(recipient, requester, at, 4);
    RunLast(EMPTY, DEFAULT_LIMITS, steady, fifth);
    var t := Run(EMPTY, DEFAULT_LIMITS, steady);
    var a := Allocation(requester, recipient, at);
    CopiesCounted(a, 4, None, checkedAt - 3600, at);
    CopiesCounted(a, 4, Some(requester), checkedAt - 3600, at);
    Reserved(t, recipient, requester, at, 4, EnvAt(checkedAt, allocatedAt));
    FiveInWindow(a, Allocation(requester, recipient, allocatedAt));
  }

  // ----- the exact condition -----

  ghost predicate SteadyExcept(calls: seq<Call>, k: int) {
    forall i :: 0 <= i < |calls| && i != k ==> calls[i].env.checkedAt <= calls[i].env.allocatedAt
  }

  /** Call `k` of the run is the reservation with these two readings; all others are steady. */
  ghost predicate Reads(
    calls: seq<Call>, k: nat, recipient: UserId, requester: UserId, checkedAt: int, allocatedAt: int)
  {
    && k < |calls| && SteadyExcept(calls, k)
    && calls[k].user == requester && calls[k].request == ReserveKeyPackage(recipient)
    && calls[k].env.checkedAt == checkedAt && calls[k].env.allocatedAt == allocatedAt
  }

  lemma NoneAllocated(rows: seq<Allocation>)
    requires rows == []
    ensures WindowOk(rows)
  {
    forall recipient: UserId, requester: Option<UserId>, start: int
      ensures InWindow(rows, recipient, requester, start) == 0
    {}
  }

  ghost predicate LimitHolds(recipient: UserId, requester: UserId, checkedAt: int, allocatedAt: int) {
    forall limits, calls, k: nat :: Reads(calls, k, recipient, requester, checkedAt, allocatedAt) ==>
      WindowOk(Run(EMPTY, limits, calls).allocations)
  }

  /** The limit holds after every run with a given reservation, all other calls being steady, if
      and only if the clock does not run back between the check and the insert of that one. */
  lemma WindowConditionExact(recipient: UserId, requester: UserId, checkedAt: int, allocatedAt: int)
    ensures LimitHolds(recipient, requester, checkedAt, allocatedAt) <==> checkedAt <= allocatedAt
  {
    if checkedAt <= allocatedAt {
      forall limits, calls, k: nat | Reads(calls, k, recipient, requester, checkedAt, allocatedAt)
        ensures WindowOk(Run(EMPTY, limits, calls).allocations)
      {
        assert ClockSteadyWithinCalls(calls);
        RelayStart(limits);
        NoneAllocated(EMPTY.allocations);
        SlidingWindow(EMPTY, limits, calls);
      }
    } else {
      ClockRunningBack(recipient, requester, checkedAt, allocatedAt);
      var calls := Breaking(recipient, requester, checkedAt, allocatedAt);
      assert Reads(calls, |calls| - 1, recipient, requester, checkedAt, allocatedAt);
    }
  }
}
