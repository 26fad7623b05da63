/** Leases of unfinished handshakes, counted per address and in all
    (crates/grotto-relay/src/lib.rs). */
module Handshakes {
  type Address = nat

  class HandshakeLeases {
    var counts: map<Address, nat>
    const limit: nat
    const perAddress: nat
    /** The leases that are held. */
    ghost var live: multiset<Address>

    /** The counts are exactly the held leases, without zero entries and within both limits. */
    ghost predicate Valid()
      reads this
    {
      && (forall ip: Address :: ip in counts <==> ip in live)
      && (forall ip :: ip in counts ==> counts[ip] == live[ip] > 0)
      && |live| <= limit
      && (forall ip: Address :: live[ip] <= perAddress)
    }

    constructor (limit: nat, perAddress: nat)
      ensures Valid() && live == multiset{} && counts == map[]
      ensures this.limit == limit && this.perAddress == perAddress
    {
      counts, this.limit, this.perAddress, live := map[], limit, perAddress, multiset{};
    }

    /** The sum of all counts is the number of leases. */
    method Total() returns (total: nat)
      requires Valid()
      ensures total == |live|
    {
      total := 0;
      var left: set<Address> := counts.Keys;
      ghost var counted: multiset<Address> := multiset{};
      while left != {}
        invariant left <= counts.Keys && total == |counted|
        invariant forall ip: Address :: counted[ip] == if ip in counts && ip !in left then live[ip] else 0
        decreases |left|
      {
        var ip: Address :| ip in left;
        counted := counted[ip := live[ip]];
        total := total + counts[ip];
        left := left - {ip};
      }
      assert counted == live;
    }

    /** A lease is given exactly when both limits leave room. */
    method Acquire(ip: Address) returns (ok: bool)
      requires Valid()
      modifies this
      ensures Valid()
      ensures ok <==> |old(live)| < limit && old(live)[ip] < perAddress
      ensures live == if ok then old(live) + multiset{ip} else old(live)
    {
      var total := Total();
      var own := if ip in counts then counts[ip] else 0;
      if total >= limit || own >= perAddress { return false; }
      counts := counts[ip := own + 1];
      live := live + multiset{ip};
      return true;
    }

    /** Whatever ends the handshake, dropping its lease gives back exactly one. */
    method Drop(ip: Address)
      requires Valid() && ip in live
      modifies this
      ensures Valid() && live == old(live) - multiset{ip}
    {
      if ip in counts {
        var count := counts[ip] - 1;
        if count == 0 {
          counts := counts - {ip};
        } else {
          counts := counts[ip := count];
        }
      }
      live := live - multiset{ip};
    }
  }
}
