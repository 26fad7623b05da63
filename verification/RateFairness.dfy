/** The limiter refuses no more than it has to: a request is let through if and only if that leaves
    every interval up to it within the burst and what the rate adds. */
module RateFairness {
  import opened Records
  import opened RateLimit

  /** The map of buckets after the first requests of a run. */
  function RatesAfter(rates: Rates, run: seq<Arrival>, n: nat, config: Config): Rates
    requires n <= |run|
  {
    if n == 0 then rates else Next(RatesAfter(rates, run, n - 1, config), run[n - 1], config)
  }

  lemma {:induction false} RatesShift(rates: Rates, run: seq<Arrival>, n: nat, config: Config)
    requires 0 < n <= |run|
    ensures RatesAfter(rates, run, n, config) == RatesAfter(Next(rates, run[0], config), run[1..], n - 1, config)
    decreases n
  {
    if n > 1 { RatesShift(rates, run, n - 1, config); }
  }

  lemma {:induction false} AnswerAt(rates: Rates, run: seq<Arrival>, n: nat, config: Config)
    requires n < |run|
    ensures IdealAnswers(rates, run, config)[n]
            == Allows(Entry(RatesAfter(rates, run, n, config), run[n].user), run[n].at, config)
    decreases n
  {
    if n > 0 {
      AnswerAt(Next(rates, run[0], config), run[1..], n - 1, config);
      RatesShift(rates, run, n, config);
    }
  }

  lemma GrantedFirst(answers: seq<bool>, run: seq<Arrival>, i: nat, n: nat, user: UserId)
    requires |answers| == |run| && i < n <= |run|
    ensures Granted(answers[i..n], run[i..n], user)
            == (if answers[i] && run[i].user == user then 1 else 0) + Granted(answers[i + 1..n], run[i + 1..n], user)
  {
    assert run[i..n] != [] && answers[i..n][0] == answers[i] && run[i..n][0] == run[i];
    assert answers[i..n][1..] == answers[i + 1..n] && run[i..n][1..] == run[i + 1..n];
  }

  lemma {:induction false} GrantedMore(answers: seq<bool>, run: seq<Arrival>, i: nat, n: nat, user: UserId)
    requires |answers| == |run| && i <= n < |run|
    ensures Granted(answers[i..n + 1], run[i..n + 1], user)
            == Granted(answers[i..n], run[i..n], user) + (if answers[n] && run[n].user == user then 1 else 0)
    decreases n - i
  {
    if i == n {
      assert answers[i..n + 1] == [answers[n]] && run[i..n + 1] == [run[n]];
      assert answers[i..n] == [] && run[i..n] == [];
    } else {
      GrantedMore(answers, run, i + 1, n, user);
      GrantedFirst(answers, run, i, n + 1, user);
      GrantedFirst(answers, run, i, n, user);
    }
  }

  /** What the interval from a request to a time leaves: the burst and what the rate adds, less what
      was let through. */
  function Slack(answers: seq<bool>, run: seq<Arrival>, i: nat, n: nat, user: UserId, now: real, config: Config): real
    requires |answers| == |run| && i <= n <= |run| && i < |run|
  {
    config.burst as real + Gain(config, now - run[i].at) - Granted(answers[i..n], run[i..n], user) as real
  }

  /** The least slack of all intervals from an earlier request of the user, and the burst at most. */
  ghost predicate IsLevel(level: real, answers: seq<bool>, run: seq<Arrival>, n: nat, user: UserId, now: real,
                          config: Config)
    requires |answers| == |run| && n <= |run|
  {
    && level <= config.burst as real
    && (forall i :: 0 <= i < n && run[i].user == user ==> level <= Slack(answers, run, i, n, user, now, config))
    && (|| level == config.burst as real
        || exists i :: 0 <= i < n && run[i].user == user && level == Slack(answers, run, i, n, user, now, config))
  }

  /** Time passes, and somebody else's request does not matter. */
  lemma SlackLater(answers: seq<bool>, run: seq<Arrival>, i: nat, n: nat, user: UserId, at: real, now: real,
                   config: Config)
    requires |answers| == |run| && i <= n < |run|
    ensures Slack(answers, run, i, n + 1, user, now, config)
            == Slack(answers, run, i, n, user, at, config) + Gain(config, now - at)
               - (if answers[n] && run[n].user == user then 1.0 else 0.0)
  {
    GrantedMore(answers, run, i, n, user);
    GainAdds(config, at - run[i].at, now - at);
    assert now - run[i].at == (at - run[i].at) + (now - at);
  }

  /** The tokens after the user's next request. */
  function Left(level: real, ok: bool, at: real, now: real, config: Config): real {
    Min(level - (if ok then 1.0 else 0.0) + Gain(config, now - at), config.burst as real)
  }

  lemma LevelNext(level: real, answers: seq<bool>, run: seq<Arrival>, n: nat, now: real, config: Config)
    requires |answers| == |run| && n < |run| && run[n].at <= now
    requires IsLevel(level, answers, run, n, run[n].user, run[n].at, config)
    ensures IsLevel(Left(level, answers[n], run[n].at, now, config), answers, run, n + 1, run[n].user, now, config)
  {
    var user, at := run[n].user, run[n].at;
    var next := Left(level, answers[n], at, now, config);
    NoneYet(answers, run, n, config);
    SlackLater(answers, run, n, n, user, at, now, config);
    forall i | 0 <= i < n + 1 && run[i].user == user ensures next <= Slack(answers, run, i, n + 1, user, now, config) {
      SlackLater(answers, run, i, n, user, at, now, config);
    }
    if next != config.burst as real {
      if level == config.burst as real {
        assert next == Slack(answers, run, n, n + 1, user, now, config);
      } else {
        var i :| 0 <= i < n && run[i].user == user && level == Slack(answers, run, i, n, user, at, config);
        SlackLater(answers, run, i, n, user, at, now, config);
        assert next == Slack(answers, run, i, n + 1, user, now, config);
      }
    }
  }

  lemma LevelOther(level: real, answers: seq<bool>, run: seq<Arrival>, n: nat, user: UserId, now: real, config: Config)
    requires |answers| == |run| && n < |run| && run[n].user != user
    requires IsLevel(level, answers, run, n, user, now, config)
    ensures IsLevel(level, answers, run, n + 1, user, now, config)
  {
    forall i | 0 <= i < n && run[i].user == user
      ensures Slack(answers, run, i, n + 1, user, now, config) == Slack(answers, run, i, n, user, now, config)
    {
      GrantedMore(answers, run, i, n, user);
    }
    if level != config.burst as real {
      var i :| 0 <= i < n && run[i].user == user && level == Slack(answers, run, i, n, user, now, config);
      assert level == Slack(answers, run, i, n + 1, user, now, config);
    }
  }

  /** A user's readings are in order. */
  predicate InOrder(run: seq<Arrival>) {
    forall i, j :: 0 <= i < j < |run| && run[i].user == run[j].user ==> run[i].at <= run[j].at
  }

  predicate NotBefore(run: seq<Arrival>, n: nat, user: UserId, now: real)
    requires n <= |run|
  {
    forall i :: 0 <= i < n && run[i].user == user ==> run[i].at <= now
  }

  lemma SpentLeft(bucket: Option<Bucket>, at: real, now: real, config: Config)
    requires at <= now
    ensures Refilled(Some(Spent(bucket, at, config)), now, config)
            == Left(Refilled(bucket, at, config), Allows(bucket, at, config), at, now, config)
  {}

  /** The tokens a user has at a time, after the first requests of a run. */
  function Tokens(run: seq<Arrival>, n: nat, user: UserId, now: real, config: Config): real
    requires n <= |run|
  {
    Refilled(Entry(RatesAfter(map[], run, n, config), user), now, config)
  }

  lemma TokensNext(run: seq<Arrival>, n: nat, user: UserId, now: real, config: Config)
    requires n < |run|
    ensures run[n].user != user ==> Tokens(run, n + 1, user, now, config) == Tokens(run, n, user, now, config)
    ensures run[n].user == user && run[n].at <= now ==>
              Tokens(run, n + 1, user, now, config)
              == Left(Tokens(run, n, user, run[n].at, config), IdealAnswers(map[], run, config)[n], run[n].at, now,
                      config)
  {
    AnswerAt(map[], run, n, config);
    if run[n].user == user && run[n].at <= now {
      SpentLeft(Entry(RatesAfter(map[], run, n, config), user), run[n].at, now, config);
    }
  }

  /** A bucket holds the least slack. */
  lemma {:induction false} TokensAreLevel(run: seq<Arrival>, n: nat, user: UserId, now: real, config: Config)
    returns (level: real)
    requires n <= |run| && InOrder(run) && NotBefore(run, n, user, now)
    ensures level == Tokens(run, n, user, now, config)
    ensures IsLevel(level, IdealAnswers(map[], run, config), run, n, user, now, config)
    decreases n
  {
    if n == 0 {
      level := config.burst as real;
    } else if run[n - 1].user != user {
      level := TokensAreLevel(run, n - 1, user, now, config);
      OtherLevel(run, n - 1, user, now, config, level);
    } else {
      var before := TokensAreLevel(run, n - 1, user, run[n - 1].at, config);
      level := OwnLevel(run, n - 1, now, config, before);
    }
  }

  lemma OtherLevel(run: seq<Arrival>, n: nat, user: UserId, now: real, config: Config, level: real)
    requires n < |run| && run[n].user != user && level == Tokens(run, n, user, now, config)
    requires IsLevel(level, IdealAnswers(map[], run, config), run, n, user, now, config)
    ensures level == Tokens(run, n + 1, user, now, config)
    ensures IsLevel(level, IdealAnswers(map[], run, config), run, n + 1, user, now, config)
  {
    TokensNext(run, n, user, now, config);
    LevelOther(level, IdealAnswers(map[], run, config), run, n, user, now, config);
  }

  lemma OwnLevel(run: seq<Arrival>, n: nat, now: real, config: Config, before: real) returns (level: real)
    requires n < |run| && run[n].at <= now && before == Tokens(run, n, run[n].user, run[n].at, config)
    requires IsLevel(before, IdealAnswers(map[], run, config), run, n, run[n].user, run[n].at, config)
    ensures level == Tokens(run, n + 1, run[n].user, now, config)
    ensures IsLevel(level, IdealAnswers(map[], run, config), run, n + 1, run[n].user, now, config)
  {
    TokensNext(run, n, run[n].user, now, config);
    LevelNext(before, IdealAnswers(map[], run, config), run, n, now, config);
    level := Left(before, IdealAnswers(map[], run, config)[n], run[n].at, now, config);
  }

  /** Exactly when a request is let through: when every interval from an earlier request of the user,
      or from this one, then stays within the burst and what the rate adds. */
  lemma AdmittedExactly(run: seq<Arrival>, n: nat, config: Config)
    requires n < |run| && InOrder(run)
    ensures var answers, user, at := IdealAnswers(map[], run, config), run[n].user, run[n].at;
            answers[n] <==>
              forall i :: 0 <= i <= n && run[i].user == user ==>
                1.0 <= Slack(answers, run, i, n, user, at, config)
  {
    var answers, user, at := IdealAnswers(map[], run, config), run[n].user, run[n].at;
    AnswerAt(map[], run, n, config);
    var level := TokensAreLevel(run, n, user, at, config);
    NoneYet(answers, run, n, config);
    if level >= 1.0 {
      forall i | 0 <= i <= n && run[i].user == user ensures 1.0 <= Slack(answers, run, i, n, user, at, config) {
        if i < n { assert level <= Slack(answers, run, i, n, user, at, config); }
      }
    } else if level != config.burst as real {
      var i :| 0 <= i < n && run[i].user == user && level == Slack(answers, run, i, n, user, at, config);
    }
  }

  /** At its own time a request has the whole burst. */
  lemma NoneYet(answers: seq<bool>, run: seq<Arrival>, n: nat, config: Config)
    requires |answers| == |run| && n < |run|
    ensures Slack(answers, run, n, n, run[n].user, run[n].at, config) == config.burst as real
  {
    assert answers[n..n] == [] && run[n..n] == [];
    assert Gain(config, 0.0) == 0.0;
  }

  /** The same of the limiter that drops idle entries, where that cannot be seen. */
  lemma LimiterIsFair(run: seq<Arrival>, n: nat, lag: real, config: Config)
    requires n < |run| && Quick(config, lag) && lag >= 0.0 && Paced(run, lag)
    ensures var answers, user, at := Answers(map[], run, config), run[n].user, run[n].at;
            answers[n] <==>
              forall i :: 0 <= i <= n && run[i].user == user ==>
                1.0 <= Slack(answers, run, i, n, user, at, config)
  {
    InvisibleFromStart(config, run, lag);
    AdmittedExactly(run, n, config);
  }
}
