/**
  Exactly when the eviction of idle rate entries cannot be seen: for readings that are only
  ordered per user, and for the requests of the relay, which serves one user's requests one
  after another.
 */
module RateExactness {
  import opened Records
  import opened RateLimit

  // ----- runs of user 0 -----

  function Repeat(n: nat, at: real): (run: seq<Arrival>)
    ensures |run| == n
  {
    seq(n, i => Arrival(at, 0))
  }

  lemma RepeatFirst(n: nat, at: real, rest: seq<Arrival>)
    requires n > 0
    ensures var run := Repeat(n, at) + rest; run[0] == Arrival(at, 0) && run[1..] == Repeat(n - 1, at) + rest
  {
    assert Repeat(n, at)[1..] == Repeat(n - 1, at);
  }

  /** What the evicting map lets user 0 do. */
  function Through(rates: Rates, run: seq<Arrival>, config: Config): nat {
    Granted(Answers(rates, run, config), run, 0)
  }

  lemma ThroughStep(rates: Rates, run: seq<Arrival>, config: Config)
    requires run != []
    ensures var a := run[0];
            Through(rates, run, config)
            == (if a.user == 0 && Allows(Entry(Retained(rates, a.at), 0), a.at, config) then 1 else 0)
               + Through(AfterRequest(rates, a.at, a.user, config), run[1..], config)
  {
    var a := run[0];
    assert Answers(rates, run, config)[1..] == Answers(AfterRequest(rates, a.at, a.user, config), run[1..], config);
  }

  /** Requests at one time all get through while the tokens last. */
  lemma {:induction false} Spending(rates: Rates, n: nat, at: real, rest: seq<Arrival>, config: Config)
    returns (after: Rates)
    requires Refilled(Entry(Retained(rates, at), 0), at, config) >= n as real
    ensures Through(rates, Repeat(n, at) + rest, config) == n + Through(after, rest, config)
    ensures n > 0 ==> 0 in after
                      && after[0] == Bucket(at, Refilled(Entry(Retained(rates, at), 0), at, config) - n as real)
    ensures n == 0 ==> after == rates
    decreases n
  {
    if n == 0 {
      assert Repeat(n, at) + rest == rest;
      after := rates;
    } else {
      RepeatFirst(n, at, rest);
      ThroughStep(rates, Repeat(n, at) + rest, config);
      var next := AfterRequest(rates, at, 0, config);
      assert Elapsed(at, next[0].last) == 0.0 && Gain(config, 0.0) == 0.0;
      assert Entry(Retained(next, at), 0) == Some(next[0]);
      after := Spending(next, n - 1, at, rest, config);
    }
  }

  /** User 1 comes 60 seconds after user 0 was last seen at time 0. */
  lemma Evicted(rates: Rates, rest: seq<Arrival>, config: Config) returns (after: Rates)
    requires 0 in rates && rates[0].last == 0.0
    ensures Through(rates, [Arrival(60.0, 1)] + rest, config) == Through(after, rest, config) && 0 !in after
  {
    var run := [Arrival(60.0, 1)] + rest;
    ThroughStep(rates, run, config);
    assert run[1..] == rest;
    assert Elapsed(60.0, rates[0].last).Floor == 60;
    after := AfterRequest(rates, 60.0, 1, config);
  }

  /** The start of every probe: spend the burst at time 0, and be evicted at 60. */
  function Opening(config: Config, rest: seq<Arrival>): seq<Arrival> {
    Repeat(config.burst, 0.0) + ([Arrival(60.0, 1)] + rest)
  }

  lemma Opened(config: Config, rest: seq<Arrival>) returns (after: Rates)
    requires config.burst > 0
    ensures Through(map[], Opening(config, rest), config) == config.burst + Through(after, rest, config)
    ensures 0 !in after
  {
    var spent := Spending(map[], config.burst, 0.0, [Arrival(60.0, 1)] + rest, config);
    after := Evicted(spent, rest, config);
  }

  lemma {:induction false} TimesAppend(a: seq<Arrival>, b: seq<Arrival>, user: UserId)
    ensures TimesOf(a + b, user) == TimesOf(a, user) + TimesOf(b, user)
  {
    if a == [] {
      assert a + b == b;
    } else {
      assert (a + b)[1..] == a[1..] + b;
      TimesAppend(a[1..], b, user);
    }
  }

  lemma {:induction false} RepeatTimes(n: nat, at: real)
    ensures TimesOf(Repeat(n, at), 0) == seq(n, i => at)
  {
    if n > 0 {
      assert Repeat(n, at)[1..] == Repeat(n - 1, at);
      RepeatTimes(n - 1, at);
    }
  }

  /** Never-dropped buckets let user 0 through at most burst + rate * elapsed times. */
  lemma IdealBound(config: Config, rest: seq<Arrival>, lag: real, end: real)
    requires config.burst > 0 && Paced(Opening(config, rest), lag) && end >= 0.0
    requires forall k :: 0 <= k < |rest| ==> rest[k].at <= end
    ensures Granted(IdealAnswers(map[], Opening(config, rest), config), Opening(config, rest), 0) as real
            <= config.burst as real + Gain(config, end)
  {
    var run := Opening(config, rest);
    var times := TimesOf(run, 0);
    GrantedIsAdmitted(map[], run, 0, config);
    TimesIn(run, 0, lag);
    FirstTime(config, rest);
    TokensPay(None, times, 0.0, config);
    LastTime(config, rest, end);
    GainGrows(config, times[|times| - 1], end);
  }

  lemma LastTime(config: Config, rest: seq<Arrival>, end: real)
    requires config.burst > 0 && end >= 0.0 && forall k :: 0 <= k < |rest| ==> rest[k].at <= end
    ensures var times := TimesOf(Opening(config, rest), 0);
            times != [] && times[|times| - 1] <= end
  {
    OpeningTimes(config, rest);
    TimesBelow(rest, end);
    LastBelow(seq(config.burst, i => 0.0), TimesOf(rest, 0), end);
  }

  lemma FirstTime(config: Config, rest: seq<Arrival>)
    requires config.burst > 0
    ensures var times := TimesOf(Opening(config, rest), 0);
            times != [] && times[0] == 0.0
  {
    OpeningTimes(config, rest);
  }

  lemma OpeningTimes(config: Config, rest: seq<Arrival>)
    ensures TimesOf(Opening(config, rest), 0) == seq(config.burst, i => 0.0) + TimesOf(rest, 0)
  {
    TimesAppend(Repeat(config.burst, 0.0), [Arrival(60.0, 1)] + rest, 0);
    TimesAppend([Arrival(60.0, 1)], rest, 0);
    assert [Arrival(60.0, 1)][1..] == [];
    assert TimesOf([Arrival(60.0, 1)], 0) == [];
    RepeatTimes(config.burst, 0.0);
  }

  lemma LastBelow(a: seq<real>, b: seq<real>, end: real)
    requires a != [] && a[|a| - 1] <= end && forall i :: 0 <= i < |b| ==> b[i] <= end
    ensures (a + b)[|a + b| - 1] <= end
  {}

  lemma {:induction false} TimesBelow(run: seq<Arrival>, end: real)
    requires forall k :: 0 <= k < |run| ==> run[k].at <= end
    ensures forall i :: 0 <= i < |TimesOf(run, 0)| ==> TimesOf(run, 0)[i] <= end
  {
    if run != [] { TimesBelow(run[1..], end); }
  }

  // ----- readings that are ordered per user -----

  /** The earliest reading that can still come after one of 60 seconds. */
  function Late(lag: real): real { if lag < 60.0 then 60.0 - lag else 0.0 }

  function Probe(config: Config, lag: real): seq<Arrival> { Opening(config, Repeat(config.burst, Late(lag))) }

  /** With a larger burst, eviction gives tokens away: the probe is answered differently. */
  lemma EvictionVisible(config: Config, lag: real)
    requires lag >= 0.0 && config.burst > 0 && !Quick(config, lag)
    ensures Paced(Probe(config, lag), lag)
    ensures Answers(map[], Probe(config, lag), config) != IdealAnswers(map[], Probe(config, lag), config)
  {
    var rest := Repeat(config.burst, Late(lag));
    var after := Opened(config, rest);
    assert rest == rest + [];
    var done := Spending(after, config.burst, Late(lag), [], config);
    assert Through(map[], Probe(config, lag), config) >= 2 * config.burst;
    IdealBound(config, rest, lag, Late(lag));
    assert Gain(config, Late(lag)) < config.burst as real;
  }

  ghost predicate Invisible(config: Config, lag: real) {
    forall run :: Paced(run, lag) ==> Answers(map[], run, config) == IdealAnswers(map[], run, config)
  }

  lemma {:induction false} NothingGranted(rates: Rates, ideal: Rates, run: seq<Arrival>, config: Config)
    requires config.burst == 0
    ensures Answers(rates, run, config) == IdealAnswers(ideal, run, config)
    decreases |run|
  {
    if run != [] {
      var a := run[0];
      NothingGranted(AfterRequest(rates, a.at, a.user, config), Next(ideal, a, config), run[1..], config);
    }
  }

  /** The rate map with eviction admits exactly what never-dropped buckets admit, on every run
      whose readings are ordered per user and late by at most the lag, if and only if the burst
      is at most what the rate adds in 60 seconds less the lag. */
  lemma EvictionExact(config: Config, lag: real)
    requires lag >= 0.0
    ensures Invisible(config, lag) <==> config.burst == 0 || Quick(config, lag)
  {
    if config.burst == 0 {
      forall run | Paced(run, lag) ensures Answers(map[], run, config) == IdealAnswers(map[], run, config) {
        NothingGranted(map[], map[], run, config);
      }
    } else if Quick(config, lag) {
      forall run | Paced(run, lag) ensures Answers(map[], run, config) == IdealAnswers(map[], run, config) {
        InvisibleFromStart(config, run, lag);
      }
    } else {
      EvictionVisible(config, lag);
    }
  }

  // ----- requests that are served one after another -----

  /** A request: the reading, and when the lock was taken. */
  datatype Visit = Visit(user: UserId, read: real, locked: real)

  /** In the order of the lock, which is taken within the lag after the reading; a user's next
      request is read after the one before it was served. */
  predicate Timely(visits: seq<Visit>, lag: real) {
    && (forall i :: 0 <= i < |visits| ==> visits[i].read <= visits[i].locked <= visits[i].read + lag)
    && (forall i, j :: 0 <= i < j < |visits| ==>
          visits[i].locked <= visits[j].locked
          && (visits[i].user == visits[j].user ==> visits[i].locked <= visits[j].read))
  }

  function RunOf(visits: seq<Visit>): (run: seq<Arrival>)
    ensures |run| == |visits|
  {
    seq(|visits|, i requires 0 <= i < |visits| => Arrival(visits[i].read, visits[i].user))
  }

  lemma TimelyIsPaced(visits: seq<Visit>, lag: real)
    requires Timely(visits, lag)
    ensures Paced(RunOf(visits), lag)
  {}

  /** Every user can be answered once more from what 60 seconds less the lag have added, and is
      full again one token later. */
  predicate Patient(config: Config, lag: real) {
    config.burst + 1 <= 60 * config.rate && Gain(config, 60.0 - lag) >= 1.0
  }

  predicate IsFull(bucket: Bucket, now: real, config: Config) {
    Refilled(Some(bucket), now, config) == config.burst as real
  }

  /** Two buckets that no request to come can tell apart. */
  ghost predicate Alike(b: Bucket, c: Bucket, user: UserId, visits: seq<Visit>, config: Config) {
    && b.last == c.last
    && (b == c
        || forall k :: 0 <= k < |visits| && visits[k].user == user ==>
             IsFull(b, visits[k].read, config) && IsFull(c, visits[k].read, config))
  }

  ghost predicate Close(rates: Rates, ideal: Rates, latest: real, visits: seq<Visit>, config: Config) {
    && (forall user :: user in rates ==> user in ideal && Alike(rates[user], ideal[user], user, visits, config))
    && (forall user :: user in ideal && user !in rates ==> ideal[user].last + 60.0 <= latest)
    && (forall user :: user in ideal ==> ideal[user].tokens >= 0.0)
    && (forall k :: 0 <= k < |visits| ==> latest <= visits[k].locked)
    && (forall k :: 0 <= k < |visits| && visits[k].user in ideal ==> ideal[visits[k].user].last <= visits[k].read)
  }

  lemma AlikeLater(b: Bucket, c: Bucket, user: UserId, visits: seq<Visit>, config: Config)
    requires visits != [] && Alike(b, c, user, visits, config)
    ensures Alike(b, c, user, visits[1..], config)
  {}

  /** A returning user whose entry was dropped: both buckets allow the request, and afterwards
      both are full at the user's next reading. */
  lemma Returning(bucket: Bucket, visits: seq<Visit>, lag: real, config: Config)
    requires visits != [] && Timely(visits, lag) && Patient(config, lag) && config.burst > 0 && lag >= 0.0
    requires bucket.tokens >= 0.0 && bucket.last <= visits[0].read && bucket.last + 60.0 <= visits[0].locked
    ensures var v := visits[0];
            && Allows(Some(bucket), v.read, config) && Allows(None, v.read, config)
            && Alike(Spent(None, v.read, config), Spent(Some(bucket), v.read, config), v.user, visits[1..], config)
  {
    var v := visits[0];
    var tokens := Refilled(Some(bucket), v.read, config);
    GainGrows(config, 60.0 - lag, v.read - bucket.last);
    forall k | 0 <= k < |visits[1..]| && visits[1..][k].user == v.user && tokens < config.burst as real
      ensures IsFull(Spent(None, v.read, config), visits[1..][k].read, config)
      ensures IsFull(Spent(Some(bucket), v.read, config), visits[1..][k].read, config)
    {
      var w := visits[k + 1];
      assert v.locked <= w.read;
      FullAgain(bucket, v.read, w.read, config);
    }
  }

  lemma FullAgain(bucket: Bucket, read: real, later: real, config: Config)
    requires bucket.tokens >= 0.0 && bucket.last <= read <= later && bucket.last + 60.0 <= later
    requires config.burst + 1 <= 60 * config.rate
    requires 1.0 <= Refilled(Some(bucket), read, config) < config.burst as real
    ensures IsFull(Spent(None, read, config), later, config) && IsFull(Spent(Some(bucket), read, config), later, config)
  {
    GainAdds(config, read - bucket.last, later - read);
    assert later - bucket.last == (read - bucket.last) + (later - read);
    GainGrows(config, 60.0, later - bucket.last);
    assert Gain(config, 60.0) == (60 * config.rate) as real;
  }

  /** One request: the same decision, and the maps stay close. */
  lemma VisitClose(rates: Rates, ideal: Rates, latest: real, visits: seq<Visit>, lag: real, config: Config)
    requires visits != [] && Timely(visits, lag) && Patient(config, lag) && config.burst > 0 && lag >= 0.0
    requires Close(rates, ideal, latest, visits, config)
    ensures var v := visits[0];
            && Allows(Entry(Retained(rates, v.read), v.user), v.read, config)
               == Allows(Entry(ideal, v.user), v.read, config)
            && Close(AfterRequest(rates, v.read, v.user, config), Next(ideal, Arrival(v.read, v.user), config),
                     Later(latest, v.read), visits[1..], config)
  {
    var v := visits[0];
    var kept := Retained(rates, v.read);
    var rates', ideal' := AfterRequest(rates, v.read, v.user, config), Next(ideal, Arrival(v.read, v.user), config);
    SpentPositive(Entry(ideal, v.user), v.read, config);
    forall user | user in ideal && user !in kept ensures ideal[user].last + 60.0 <= Later(latest, v.read) {
      if user in rates {
        assert Elapsed(v.read, rates[user].last) >= 60.0;
      }
    }
    OwnClose(kept, ideal, Later(latest, v.read), visits, lag, config);
    forall user | user in rates'
      ensures user in ideal' && Alike(rates'[user], ideal'[user], user, visits[1..], config)
    {
      if user != v.user {
        AlikeLater(rates[user], ideal[user], user, visits, config);
      }
    }
  }

  lemma OwnClose(kept: Rates, ideal: Rates, latest: real, visits: seq<Visit>, lag: real, config: Config)
    requires visits != [] && Timely(visits, lag) && Patient(config, lag) && config.burst > 0 && lag >= 0.0
    requires var user := visits[0].user;
             && (user in kept ==> user in ideal && Alike(kept[user], ideal[user], user, visits, config))
             && (user in ideal && user !in kept ==> ideal[user].last + 60.0 <= latest)
             && (user in ideal ==> ideal[user].tokens >= 0.0 && ideal[user].last <= visits[0].read)
    requires latest <= visits[0].locked
    ensures var v := visits[0];
            && Allows(Entry(kept, v.user), v.read, config) == Allows(Entry(ideal, v.user), v.read, config)
            && Alike(Spent(Entry(kept, v.user), v.read, config), Spent(Entry(ideal, v.user), v.read, config), v.user,
                     visits[1..], config)
  {
    var v := visits[0];
    if v.user in ideal && v.user !in kept {
      Returning(ideal[v.user], visits, lag, config);
    }
  }

  lemma {:induction false} SerialInvisible(
    rates: Rates, ideal: Rates, latest: real, visits: seq<Visit>, lag: real, config: Config)
    requires Timely(visits, lag) && Patient(config, lag) && config.burst > 0 && lag >= 0.0
    requires Close(rates, ideal, latest, visits, config)
    ensures Answers(rates, RunOf(visits), config) == IdealAnswers(ideal, RunOf(visits), config)
    decreases |visits|
  {
    if visits != [] {
      var v := visits[0];
      VisitClose(rates, ideal, latest, visits, lag, config);
      assert RunOf(visits)[1..] == RunOf(visits[1..]);
      SerialInvisible(AfterRequest(rates, v.read, v.user, config), Next(ideal, Arrival(v.read, v.user), config),
                      Later(latest, v.read), visits[1..], lag, config);
    }
  }

  // ----- the probes of the serial relay -----

  function Prompt(n: nat, at: real): (visits: seq<Visit>)
    ensures |visits| == n
  {
    seq(n, i => Visit(0, at, at))
  }

  /** Spend the burst, be evicted while a request waits for the lock, and ask `m` times at `r`. */
  function SerialProbe(config: Config, lag: real, m: nat, r: real): seq<Visit> {
    Prompt(config.burst, 0.0) + ([Visit(1, 60.0, 60.0)] + ([Visit(0, Late(lag), 60.0)] + Prompt(m, r)))
  }

  lemma ProbeTimely(config: Config, lag: real, m: nat, r: real)
    requires lag >= 0.0 && r >= 60.0
    ensures Timely(SerialProbe(config, lag, m, r), lag)
  {}

  lemma RunAppend(a: seq<Visit>, b: seq<Visit>)
    ensures RunOf(a + b) == RunOf(a) + RunOf(b)
  {}

  lemma ProbeRun(config: Config, lag: real, m: nat, r: real)
    ensures RunOf(SerialProbe(config, lag, m, r)) == Opening(config, Repeat(1, Late(lag)) + Repeat(m, r))
  {
    var last := [Visit(0, Late(lag), 60.0)] + Prompt(m, r);
    RunAppend(Prompt(config.burst, 0.0), [Visit(1, 60.0, 60.0)] + last);
    RunAppend([Visit(1, 60.0, 60.0)], last);
    RunAppend([Visit(0, Late(lag), 60.0)], Prompt(m, r));
    assert RunOf(Prompt(config.burst, 0.0)) == Repeat(config.burst, 0.0) && RunOf(Prompt(m, r)) == Repeat(m, r);
    assert RunOf([Visit(1, 60.0, 60.0)]) == [Arrival(60.0, 1)];
    assert RunOf([Visit(0, Late(lag), 60.0)]) == Repeat(1, Late(lag));
  }

  ghost predicate Differs(visits: seq<Visit>, config: Config) {
    Answers(map[], RunOf(visits), config) != IdealAnswers(map[], RunOf(visits), config)
  }

  /** The evicting map lets the probe through more often than never-dropped buckets can. */
  lemma Distinguished(config: Config, lag: real, m: nat, r: real)
    requires lag >= 0.0 && r >= 60.0 && config.burst > 0
    requires Refilled(Some(Bucket(Late(lag), config.burst as real - 1.0)), r, config) >= m as real
    requires Gain(config, if m == 0 then Late(lag) else r) < 1.0 + m as real
    ensures Timely(SerialProbe(config, lag, m, r), lag) && Differs(SerialProbe(config, lag, m, r), config)
  {
    var rest := Repeat(1, Late(lag)) + Repeat(m, r);
    var end := if m == 0 then Late(lag) else r;
    ProbeTimely(config, lag, m, r);
    ProbeRun(config, lag, m, r);
    TimelyIsPaced(SerialProbe(config, lag, m, r), lag);
    var after := Opened(config, rest);
    var waited := Spending(after, 1, Late(lag), Repeat(m, r), config);
    assert Repeat(m, r) == Repeat(m, r) + [];
    assert Refilled(Entry(Retained(waited, r), 0), r, config) >= m as real;
    var done := Spending(waited, m, r, [], config);
    assert Through(map[], Opening(config, rest), config) >= config.burst + 1 + m;
    IdealBound(config, rest, lag, end);
  }

  lemma Quotient(x: real, rate: real)
    requires rate > 0.0
    ensures x / rate * rate == x
  {}

  /** A probe for every burst that is neither quick nor patient. */
  lemma SerialVisible(config: Config, lag: real) returns (visits: seq<Visit>)
    requires lag >= 0.0 && config.burst > 0 && !Quick(config, lag) && !Patient(config, lag)
    ensures Timely(visits, lag) && Differs(visits, config)
  {
    if Gain(config, 60.0 - lag) < 1.0 {
      visits := TooSoon(config, lag);
    } else {
      TimeLeft(config, lag);
      if config.burst > 60 * config.rate {
        visits := TooMuch(config, lag);
      } else {
        visits := FullBurst(config, lag);
      }
    }
  }

  lemma TimeLeft(config: Config, lag: real)
    requires Gain(config, 60.0 - lag) >= 1.0
    ensures lag < 60.0 && config.rate > 0
  {
    assert Gain(config, 0.0) == 0.0;
    NoRate(config, 60.0 - lag);
    if lag >= 60.0 { GainGrows(config, 60.0 - lag, 0.0); }
  }

  lemma NoRate(config: Config, elapsed: real)
    ensures config.rate == 0 ==> Gain(config, elapsed) == 0.0
  {}

  /** The waiting request comes before a token was added. */
  lemma TooSoon(config: Config, lag: real) returns (visits: seq<Visit>)
    requires lag >= 0.0 && config.burst > 0 && Gain(config, 60.0 - lag) < 1.0
    ensures Timely(visits, lag) && Differs(visits, config)
  {
    visits := SerialProbe(config, lag, 0, 60.0);
    SpentPositive(Some(Bucket(Late(lag), config.burst as real - 1.0)), 60.0, config);
    Distinguished(config, lag, 0, 60.0);
  }

  /** The burst is more than 60 seconds add. */
  lemma TooMuch(config: Config, lag: real) returns (visits: seq<Visit>)
    requires lag >= 0.0 && config.burst > 60 * config.rate
    ensures Timely(visits, lag) && Differs(visits, config)
  {
    visits := SerialProbe(config, lag, 60 * config.rate, 60.0);
    GainPositive(config, Elapsed(60.0, Late(lag)));
    assert Gain(config, 60.0) == (60 * config.rate) as real;
    if config.rate == 0 { assert Gain(config, Late(lag)) == 0.0; }
    Distinguished(config, lag, 60 * config.rate, 60.0);
  }

  /** With a burst of exactly 60 seconds' worth, any lag is too long. */
  lemma FullBurst(config: Config, lag: real) returns (visits: seq<Visit>)
    requires 0.0 <= lag < 60.0 && config.burst == 60 * config.rate && config.rate > 0 && !Quick(config, lag)
    ensures Timely(visits, lag) && Differs(visits, config)
  {
    var rate := config.rate as real;
    var wait := if Gain(config, lag) < 1.0 then (1.0 - Gain(config, lag)) / rate else 0.0;
    var r := 60.0 + wait;
    GainAdds(config, 60.0 - lag, lag);
    assert Gain(config, 60.0) == config.burst as real;
    Quotient(1.0 - Gain(config, lag), rate);
    GainAdds(config, lag, wait);
    GainAdds(config, 60.0, wait);
    assert r - Late(lag) == lag + wait;
    visits := SerialProbe(config, lag, config.burst, r);
    Distinguished(config, lag, config.burst, r);
  }

  // ----- the exact condition of the relay -----

  ghost predicate SerialAgrees(config: Config, lag: real) {
    forall visits :: Timely(visits, lag) ==>
      Answers(map[], RunOf(visits), config) == IdealAnswers(map[], RunOf(visits), config)
  }

  lemma SerialFromStart(config: Config, visits: seq<Visit>, lag: real)
    requires lag >= 0.0 && Timely(visits, lag) && (config.burst == 0 || Quick(config, lag) || Patient(config, lag))
    ensures Answers(map[], RunOf(visits), config) == IdealAnswers(map[], RunOf(visits), config)
  {
    if config.burst == 0 {
      NothingGranted(map[], map[], RunOf(visits), config);
    } else if Quick(config, lag) {
      TimelyIsPaced(visits, lag);
      InvisibleFromStart(config, RunOf(visits), lag);
    } else if visits != [] {
      SerialInvisible(map[], map[], visits[0].locked, visits, lag, config);
    }
  }

  /** For the relay, which serves one user's requests one after another: eviction cannot be seen
      if and only if the burst is quick enough for the lag, or leaves one token to spare over 60
      seconds while the lag leaves time for one token. */
  lemma SerialExact(config: Config, lag: real)
    requires lag >= 0.0
    ensures SerialAgrees(config, lag) <==> config.burst == 0 || Quick(config, lag) || Patient(config, lag)
  {
    if config.burst == 0 || Quick(config, lag) || Patient(config, lag) {
      forall visits | Timely(visits, lag)
        ensures Answers(map[], RunOf(visits), config) == IdealAnswers(map[], RunOf(visits), config)
      {
        SerialFromStart(config, visits, lag);
      }
    } else {
      var visits := SerialVisible(config, lag);
    }
  }

  const DEFAULT_RATE := Config(20, 40)

  /** The default of 20 requests a second and a burst of 40 tolerates a lag of 58 seconds. */
  lemma DefaultIsQuick(lag: real)
    requires 0.0 <= lag <= 58.0
    ensures Quick(DEFAULT_RATE, lag) && Invisible(DEFAULT_RATE, lag)
  {
    EvictionExact(DEFAULT_RATE, lag);
  }
}
