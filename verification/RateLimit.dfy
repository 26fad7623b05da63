/**
  Request admission: a token bucket per user, whose entry is dropped after 60 idle seconds
  (crates/grotto-relay/src/lib.rs). Time and tokens are real numbers.

  A request reads the clock before it takes the lock. A run lists the readings in the order
  in which the lock is taken, so the readings of different users can be out of order.
 */
module RateLimit {
  import opened Records

  datatype Bucket = Bucket(last: real, tokens: real)
  datatype Config = Config(rate: nat, burst: nat)

  type Rates = map<UserId, Bucket>

  function Min(a: real, b: real): real { if a < b then a else b }

  /** A difference of two readings is never negative. */
  function Elapsed(now: real, last: real): real { if now < last then 0.0 else now - last }

  /** What the rate adds over a time. */
  function Gain(config: Config, elapsed: real): real { elapsed * config.rate as real }

  /** The tokens at a time; a new user has a full bucket. */
  function Refilled(bucket: Option<Bucket>, now: real, config: Config): real {
    match bucket
    case None => config.burst as real
    case Some(b) => Min(b.tokens + Gain(config, Elapsed(now, b.last)), config.burst as real)
  }

  predicate Allows(bucket: Option<Bucket>, now: real, config: Config) { Refilled(bucket, now, config) >= 1.0 }

  function Spent(bucket: Option<Bucket>, now: real, config: Config): Bucket {
    var tokens := Refilled(bucket, now, config);
    Bucket(now, if tokens < 1.0 then tokens else tokens - 1.0)
  }

  function Entry(rates: Rates, user: UserId): Option<Bucket> { if user in rates then Some(rates[user]) else None }

  /** Entries that have been idle for 60 whole seconds are dropped. */
  function Retained(rates: Rates, now: real): Rates {
    map user | user in rates && Elapsed(now, rates[user].last).Floor < 60 :: rates[user]
  }

  function AfterRequest(rates: Rates, now: real, user: UserId, config: Config): Rates {
    var kept := Retained(rates, now);
    kept[user := Spent(Entry(kept, user), now, config)]
  }

  class RateLimiter {
    var rates: Rates
    const config: Config

    constructor (config: Config)
      ensures rates == map[] && this.config == config
    {
      rates := map[];
      this.config := config;
    }

    /** The section under the lock, with the reading made before it. */
    method AdmitRequest(user: UserId, now: real) returns (ok: bool)
      modifies this
      ensures ok == Allows(Entry(Retained(old(rates), now), user), now, config)
      ensures rates == AfterRequest(old(rates), now, user, config)
    {
      rates := map other | other in rates && Elapsed(now, rates[other].last).Floor < 60 :: rates[other];
      var bucket := if user in rates then rates[user] else Bucket(now, config.burst as real);
      var tokens := Min(bucket.tokens + Gain(config, Elapsed(now, bucket.last)), config.burst as real);
      rates := rates[user := Bucket(now, tokens)];
      if tokens < 1.0 { return false; }
      rates := rates[user := Bucket(now, tokens - 1.0)];
      return true;
    }
  }

  // ----- runs, and the bucket that forgets nothing -----

  datatype Arrival = Arrival(at: real, user: UserId)

  /** A user's readings are in order; another reading is late by at most the lag. */
  predicate Paced(run: seq<Arrival>, lag: real) {
    forall i, j :: 0 <= i < j < |run| ==>
      run[i].at <= run[j].at + lag && (run[i].user == run[j].user ==> run[i].at <= run[j].at)
  }

  function Answers(rates: Rates, run: seq<Arrival>, config: Config): (answers: seq<bool>)
    ensures |answers| == |run|
    decreases |run|
  {
    if run == [] then []
    else
      var a := run[0];
      [Allows(Entry(Retained(rates, a.at), a.user), a.at, config)]
      + Answers(AfterRequest(rates, a.at, a.user, config), run[1..], config)
  }

  /** The ideal map after one request. */
  function Next(rates: Rates, a: Arrival, config: Config): Rates {
    rates[a.user := Spent(Entry(rates, a.user), a.at, config)]
  }

  function IdealAnswers(rates: Rates, run: seq<Arrival>, config: Config): (answers: seq<bool>)
    ensures |answers| == |run|
    decreases |run|
  {
    if run == [] then []
    else
      [Allows(Entry(rates, run[0].user), run[0].at, config)]
      + IdealAnswers(Next(rates, run[0], config), run[1..], config)
  }

  lemma GainPositive(config: Config, elapsed: real)
    requires elapsed >= 0.0
    ensures Gain(config, elapsed) >= 0.0
  {}

  lemma GainAdds(config: Config, a: real, b: real)
    ensures Gain(config, a + b) == Gain(config, a) + Gain(config, b)
  {}

  lemma GainGrows(config: Config, a: real, b: real)
    requires a <= b
    ensures Gain(config, a) <= Gain(config, b)
  {
    GainAdds(config, a, b - a);
    GainPositive(config, b - a);
    assert b == a + (b - a);
  }

  lemma SpentPositive(bucket: Option<Bucket>, now: real, config: Config)
    requires bucket.Some? ==> bucket.value.tokens >= 0.0
    ensures Refilled(bucket, now, config) >= 0.0 && Spent(bucket, now, config).tokens >= 0.0
  {
    if bucket.Some? { GainPositive(config, Elapsed(now, bucket.value.last)); }
  }

  // ----- when eviction cannot be seen -----

  /** Tokens are never negative, and no entry is newer than what its user still reads. */
  ghost predicate Sound(rates: Rates, run: seq<Arrival>) {
    && (forall user :: user in rates ==> rates[user].tokens >= 0.0)
    && (forall k :: 0 <= k < |run| && run[k].user in rates ==> rates[run[k].user].last <= run[k].at)
  }

  /** The maps agree, but for entries that had been idle for 60 seconds at the latest reading. */
  ghost predicate Agree(rates: Rates, ideal: Rates, latest: real) {
    && (forall user :: user in rates ==> user in ideal && ideal[user] == rates[user])
    && (forall user :: user in ideal && user !in rates ==> ideal[user].last + 60.0 <= latest)
  }

  /** Every reading to come is late by at most the lag. */
  ghost predicate Recent(latest: real, run: seq<Arrival>, lag: real) {
    forall k :: 0 <= k < |run| ==> latest <= run[k].at + lag
  }

  function Later(a: real, b: real): real { if a < b then b else a }

  lemma RetainedAgrees(rates: Rates, ideal: Rates, latest: real, now: real)
    requires Agree(rates, ideal, latest)
    ensures Agree(Retained(rates, now), ideal, Later(latest, now))
  {
    forall user | user in ideal && user !in Retained(rates, now) ensures ideal[user].last + 60.0 <= Later(latest, now) {
      if user in rates {
        assert Elapsed(now, rates[user].last) >= 60.0;
      }
    }
  }

  /** What 60 seconds add, less the lag, fills any bucket. */
  predicate Quick(config: Config, lag: real) { config.burst as real <= Gain(config, 60.0 - lag) }

  /** A dropped entry would have been full again. */
  lemma IdleIsFull(bucket: Bucket, now: real, lag: real, config: Config)
    requires bucket.tokens >= 0.0 && bucket.last + 60.0 <= now + lag && bucket.last <= now && Quick(config, lag)
    ensures Refilled(Some(bucket), now, config) == config.burst as real
  {
    GainGrows(config, 60.0 - lag, now - bucket.last);
  }

  lemma NextSound(rates: Rates, run: seq<Arrival>, lag: real, config: Config)
    requires run != [] && Sound(rates, run) && Paced(run, lag)
    ensures Sound(Next(rates, run[0], config), run[1..])
  {
    SpentPositive(Entry(rates, run[0].user), run[0].at, config);
  }

  /** One request: the same decision, and the maps agree again. */
  lemma RequestAgrees(rates: Rates, ideal: Rates, latest: real, run: seq<Arrival>, lag: real, config: Config)
    requires run != [] && Agree(rates, ideal, latest) && Sound(ideal, run) && Recent(latest, run, lag) && lag >= 0.0
    requires Quick(config, lag)
    ensures var a := run[0];
            && Allows(Entry(Retained(rates, a.at), a.user), a.at, config) == Allows(Entry(ideal, a.user), a.at, config)
            && Agree(AfterRequest(rates, a.at, a.user, config), Next(ideal, a, config), Later(latest, a.at))
  {
    var a := run[0];
    RetainedAgrees(rates, ideal, latest, a.at);
    if a.user in ideal && a.user !in Retained(rates, a.at) {
      IdleIsFull(ideal[a.user], a.at, lag, config);
    }
  }

  /** With a burst of at most 60 seconds' worth, less the lag, eviction is invisible: every run
      gets exactly the answers of buckets that are never dropped. */
  lemma {:induction false} EvictionInvisible(
    rates: Rates, ideal: Rates, latest: real, run: seq<Arrival>, lag: real, config: Config)
    requires Quick(config, lag) && lag >= 0.0 && Paced(run, lag)
    requires Agree(rates, ideal, latest) && Sound(ideal, run) && Recent(latest, run, lag)
    ensures Answers(rates, run, config) == IdealAnswers(ideal, run, config)
    decreases |run|
  {
    if run != [] {
      var a := run[0];
      RequestAgrees(rates, ideal, latest, run, lag, config);
      NextSound(ideal, run, lag, config);
      EvictionInvisible(AfterRequest(rates, a.at, a.user, config), Next(ideal, a, config), Later(latest, a.at),
                        run[1..], lag, config);
    }
  }

  lemma InvisibleFromStart(config: Config, run: seq<Arrival>, lag: real)
    requires Quick(config, lag) && lag >= 0.0 && Paced(run, lag)
    ensures Answers(map[], run, config) == IdealAnswers(map[], run, config)
  {
    if run != [] {
      assert forall k :: 1 <= k < |run| ==> run[0].at <= run[k].at + lag;
      EvictionInvisible(map[], map[], run[0].at, run, lag, config);
    }
  }

  // ----- the bound -----

  /** The readings of one user. */
  function TimesOf(run: seq<Arrival>, user: UserId): seq<real> {
    if run == [] then []
    else (if run[0].user == user then [run[0].at] else []) + TimesOf(run[1..], user)
  }

  predicate Ascending(times: seq<real>) { forall i, j :: 0 <= i < j < |times| ==> times[i] <= times[j] }

  /** How many requests at these times one bucket admits. */
  function Admitted(bucket: Option<Bucket>, times: seq<real>, config: Config): nat
    decreases |times|
  {
    if times == [] then 0
    else
      (if Allows(bucket, times[0], config) then 1 else 0)
      + Admitted(Some(Spent(bucket, times[0], config)), times[1..], config)
  }

  /** How many of the answers let the user through. */
  function Granted(answers: seq<bool>, run: seq<Arrival>, user: UserId): nat
    requires |answers| == |run|
  {
    if run == [] then 0
    else (if answers[0] && run[0].user == user then 1 else 0) + Granted(answers[1..], run[1..], user)
  }

  /** A user's answers are those of the user's own bucket. */
  lemma {:induction false} GrantedIsAdmitted(rates: Rates, run: seq<Arrival>, user: UserId, config: Config)
    ensures Granted(IdealAnswers(rates, run, config), run, user)
            == Admitted(Entry(rates, user), TimesOf(run, user), config)
    decreases |run|
  {
    if run != [] {
      var next := Next(rates, run[0], config);
      assert IdealAnswers(rates, run, config)[1..] == IdealAnswers(next, run[1..], config);
      GrantedIsAdmitted(next, run[1..], user, config);
      if run[0].user == user {
        assert TimesOf(run, user)[0] == run[0].at && TimesOf(run, user)[1..] == TimesOf(run[1..], user);
      } else {
        assert Entry(next, user) == Entry(rates, user);
        assert TimesOf(run, user) == TimesOf(run[1..], user);
      }
    }
  }

  /** Waiting adds at most the rate. */
  lemma Waited(bucket: Option<Bucket>, now: real, later: real, config: Config)
    requires now <= later && (bucket.Some? ==> bucket.value.last <= now)
    ensures Refilled(bucket, later, config) <= Refilled(bucket, now, config) + Gain(config, later - now)
  {
    GainPositive(config, later - now);
    if bucket.Some? {
      GainAdds(config, now - bucket.value.last, later - now);
      assert later - bucket.value.last == (now - bucket.value.last) + (later - now);
    }
  }

  /** A request takes one token if it is admitted. */
  lemma Charged(bucket: Option<Bucket>, now: real, config: Config)
    requires bucket.Some? ==> bucket.value.tokens >= 0.0
    ensures Refilled(Some(Spent(bucket, now, config)), now, config)
            == Refilled(bucket, now, config) - (if Allows(bucket, now, config) then 1.0 else 0.0)
  {
    assert Gain(config, Elapsed(now, now)) == 0.0;
  }

  /** The tokens of a bucket, plus what the rate adds, pay for every admitted request. */
  lemma {:induction false} TokensPay(bucket: Option<Bucket>, times: seq<real>, now: real, config: Config)
    requires Ascending(times) && times != [] && now <= times[0]
    requires bucket.Some? ==> bucket.value.tokens >= 0.0 && bucket.value.last <= now
    ensures Admitted(bucket, times, config) as real
            <= Refilled(bucket, now, config) + Gain(config, times[|times| - 1] - now)
    decreases |times|
  {
    var t, end := times[0], times[|times| - 1];
    var next := Some(Spent(bucket, t, config));
    Waited(bucket, now, t, config);
    SpentPositive(bucket, t, config);
    Charged(bucket, t, config);
    GainAdds(config, t - now, end - t);
    assert end - now == (t - now) + (end - t);
    if |times| > 1 {
      TokensPay(next, times[1..], t, config);
    } else {
      assert times[1..] == [];
      SpentPositive(next, t, config);
      GainPositive(config, end - t);
    }
  }

  /** From the first to the last reading. */
  function Span(times: seq<real>): real { if times == [] then 0.0 else times[|times| - 1] - times[0] }

  /** One bucket admits at most burst + rate * elapsed requests. */
  lemma RateBound(bucket: Option<Bucket>, times: seq<real>, config: Config)
    requires Ascending(times)
    requires bucket.Some? ==> bucket.value.tokens >= 0.0 && (times != [] ==> bucket.value.last <= times[0])
    ensures Admitted(bucket, times, config) as real <= config.burst as real + Gain(config, Span(times))
  {
    if times != [] {
      TokensPay(bucket, times, times[0], config);
    }
  }

  lemma {:induction false} TimesIn(run: seq<Arrival>, user: UserId, lag: real)
    requires Paced(run, lag)
    ensures Ascending(TimesOf(run, user))
    ensures forall t :: t in TimesOf(run, user) ==> exists k :: 0 <= k < |run| && run[k] == Arrival(t, user)
    decreases |run|
  {
    if run != [] {
      TimesIn(run[1..], user, lag);
      var rest := TimesOf(run[1..], user);
      forall t | t in rest ensures exists k :: 0 <= k < |run| && run[k] == Arrival(t, user) {
        var k :| 0 <= k < |run[1..]| && run[1..][k] == Arrival(t, user);
        assert run[k + 1] == Arrival(t, user);
      }
      if run[0].user == user {
        forall j | 0 <= j < |rest| ensures run[0].at <= rest[j] {
          assert rest[j] in rest;
          var k :| 0 <= k < |run[1..]| && run[1..][k] == Arrival(rest[j], user);
          assert run[k + 1] == Arrival(rest[j], user);
        }
        assert TimesOf(run, user) == [run[0].at] + rest;
      }
    }
  }

  lemma {:induction false} IdealPrefix(rates: Rates, run: seq<Arrival>, n: nat, config: Config)
    requires n <= |run|
    ensures IdealAnswers(rates, run, config)[..n] == IdealAnswers(rates, run[..n], config)
    decreases |run|
  {
    if n > 0 {
      assert run[..n][1..] == run[1..][..n - 1];
      IdealPrefix(Next(rates, run[0], config), run[1..], n - 1, config);
    }
  }

  lemma PrefixBound(rates: Rates, run: seq<Arrival>, n: nat, user: UserId, lag: real, config: Config)
    requires n <= |run| && Paced(run, lag) && Sound(rates, run)
    ensures Granted(IdealAnswers(rates, run, config)[..n], run[..n], user) as real
            <= config.burst as real + Gain(config, Span(TimesOf(run[..n], user)))
  {
    var part := run[..n];
    IdealPrefix(rates, run, n, config);
    GrantedIsAdmitted(rates, part, user, config);
    TimesIn(part, user, lag);
    var times := TimesOf(part, user);
    if user in rates && times != [] {
      assert times[0] in times;
      var k :| 0 <= k < |part| && part[k] == Arrival(times[0], user);
      assert run[k].user in rates;
    }
    RateBound(Entry(rates, user), times, config);
  }

  lemma {:induction false} IdealInterval(
    rates: Rates, run: seq<Arrival>, i: nat, j: nat, user: UserId, lag: real, config: Config)
    requires i <= j <= |run| && Paced(run, lag) && Sound(rates, run)
    ensures Granted(IdealAnswers(rates, run, config)[i..j], run[i..j], user) as real
            <= config.burst as real + Gain(config, Span(TimesOf(run[i..j], user)))
    decreases i
  {
    if i == 0 {
      PrefixBound(rates, run, j, user, lag, config);
      assert run[0..j] == run[..j] && IdealAnswers(rates, run, config)[0..j] == IdealAnswers(rates, run, config)[..j];
    } else {
      var next := Next(rates, run[0], config);
      NextSound(rates, run, lag, config);
      IdealInterval(next, run[1..], i - 1, j - 1, user, lag, config);
      assert run[i..j] == run[1..][i - 1..j - 1];
      assert IdealAnswers(rates, run, config)[i..j] == IdealAnswers(next, run[1..], config)[i - 1..j - 1];
    }
  }

  /** In every run of the evicting limiter whose burst is quick enough for the lag, any interval
      lets a user through at most burst + rate * elapsed times. */
  lemma IntervalBound(run: seq<Arrival>, i: nat, j: nat, user: UserId, lag: real, config: Config)
    requires Quick(config, lag) && lag >= 0.0 && Paced(run, lag) && i <= j <= |run|
    ensures Granted(Answers(map[], run, config)[i..j], run[i..j], user) as real
            <= config.burst as real + Gain(config, Span(TimesOf(run[i..j], user)))
  {
    InvisibleFromStart(config, run, lag);
    IdealInterval(map[], run, i, j, user, lag, config);
  }
}
