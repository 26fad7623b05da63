/** Exact retries: the journal makes a repeated request indistinguishable from one request. */
module Replay {
  import opened Records
  import opened Sizes
  import opened RelaySpec
  import opened RelayInvariants

  function Replies(t: Tables, limits: Limits, calls: seq<Call>): (replies: seq<Response>)
    ensures |replies| == |calls|
    decreases |calls|
  {
    if calls == [] then []
    else [Reply(t, limits, calls[0])] + Replies(After(t, limits, calls[0]), limits, calls[1..])
  }

  /** The journal has a result for exactly this request under this identifier. */
  predicate Saved(t: Tables, call: Call) {
    Lookup(t.journal, call.user, call.id).Some? && Lookup(t.journal, call.user, call.id).value.request == call.request
  }

  /** The marked calls are exact repeats of requests journaled when they arrive. */
  predicate RepeatsSaved(t: Tables, limits: Limits, calls: seq<Call>, repeated: seq<bool>)
    requires |repeated| == |calls|
    decreases |calls|
  {
    calls != [] ==>
      && (repeated[0] ==> Saved(t, calls[0]))
      && RepeatsSaved(After(t, limits, calls[0]), limits, calls[1..], repeated[1..])
  }

  /** What is left of a list without its marked elements. */
  function Unmarked<T>(list: seq<T>, marked: seq<bool>): seq<T>
    requires |marked| == |list|
  {
    if list == [] then []
    else (if marked[0] then [] else [list[0]]) + Unmarked(list[1..], marked[1..])
  }

  lemma SavedAnswer(t: Tables, limits: Limits, call: Call)
    requires JournalOk(t.journal) && Lookup(t.journal, call.user, call.id).Some?
    ensures After(t, limits, call) == t
    ensures Saved(t, call) ==> Reply(t, limits, call) == Lookup(t.journal, call.user, call.id).value.response
    ensures !Saved(t, call) && RequestSize(call.request) <= MAX_PAYLOAD ==>
              Reply(t, limits, call) == Rejected(RequestConflict)
  {
    LookupFinds(t.journal, call.user, call.id);
  }

  /** Exact repeats inserted anywhere change neither the final tables nor the answer to any
      other call. */
  lemma {:induction false} ReplayInsensitive(t: Tables, limits: Limits, calls: seq<Call>, repeated: seq<bool>)
    requires RelayOk(t, limits) && |repeated| == |calls| && RepeatsSaved(t, limits, calls, repeated)
    ensures Run(t, limits, calls) == Run(t, limits, Unmarked(calls, repeated))
    ensures Unmarked(Replies(t, limits, calls), repeated) == Replies(t, limits, Unmarked(calls, repeated))
    decreases |calls|
  {
    if calls != [] {
      var next := After(t, limits, calls[0]);
      RelayKept(t, limits, calls[0]);
      ReplayInsensitive(next, limits, calls[1..], repeated[1..]);
      assert Replies(t, limits, calls)[1..] == Replies(next, limits, calls[1..]);
      if repeated[0] {
        SavedAnswer(t, limits, calls[0]);
        assert Unmarked(calls, repeated) == Unmarked(calls[1..], repeated[1..]);
      } else {
        var rest := Unmarked(calls, repeated);
        assert rest[0] == calls[0] && rest[1..] == Unmarked(calls[1..], repeated[1..]);
      }
    }
  }

  lemma {:induction false} LookupStays(journal: seq<JournalRow>, longer: seq<JournalRow>, user: UserId, id: MessageId)
    requires journal <= longer && JournalOk(longer) && Lookup(journal, user, id).Some?
    ensures Lookup(longer, user, id) == Lookup(journal, user, id)
    decreases |longer|
  {
    if |journal| < |longer| {
      var init := longer[..|longer| - 1];
      LookupStays(journal, init, user, id);
      LookupFinds(init, user, id);
    } else {
      assert journal == longer;
    }
  }

  lemma AfterExtendsJournal(t: Tables, limits: Limits, call: Call)
    requires RelayOk(t, limits)
    ensures RelayOk(After(t, limits, call), limits)
    ensures t.journal <= After(t, limits, call).journal
  {
    DeliverEffect(t, limits, call);
    RelayKept(t, limits, call);
  }

  lemma {:induction false} RunExtendsJournal(t: Tables, limits: Limits, calls: seq<Call>)
    requires RelayOk(t, limits)
    ensures RelayOk(Run(t, limits, calls), limits)
    ensures t.journal <= Run(t, limits, calls).journal
    decreases |calls|
  {
    if calls != [] {
      AfterExtendsJournal(t, limits, calls[0]);
      RunExtendsJournal(After(t, limits, calls[0]), limits, calls[1..]);
    }
  }

  /** Once a call has left its result in the journal, the same request gets the same answer
      after any further calls, with the tables as they are, and any other request under
      that identifier is refused without effect. */
  lemma RetryIsExact(t: Tables, limits: Limits, first: Call, between: seq<Call>, retry: Call)
    requires RelayOk(t, limits)
    requires retry.user == first.user && retry.id == first.id && RequestSize(retry.request) <= MAX_PAYLOAD
    requires Saved(After(t, limits, first), first)
    ensures var later := Run(After(t, limits, first), limits, between);
            && After(later, limits, retry) == later
            && (retry.request == first.request ==> Reply(later, limits, retry) == Reply(t, limits, first))
            && (retry.request != first.request ==> Reply(later, limits, retry) == Rejected(RequestConflict))
  {
    var after := After(t, limits, first);
    var later := Run(after, limits, between);
    AfterExtendsJournal(t, limits, first);
    RunExtendsJournal(after, limits, between);
    LookupStays(after.journal, later.journal, first.user, first.id);
    SavedAnswer(later, limits, retry);
    if Lookup(t.journal, first.user, first.id).Some? {
      SavedAnswer(t, limits, first);
    } else {
      DeliverEffect(t, limits, first);
      LookupAppend(t.journal, JournalRow(first.user, first.id, first.request, Reply(t, limits, first)),
                   first.user, first.id);
    }
  }
}
