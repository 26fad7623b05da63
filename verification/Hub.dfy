/**
  The relay's connection hub under every interleaving of its lock sections
  (crates/grotto-relay/src/lib.rs). A task of a connection claims its user, draws an
  identifier, enters its sender, and later withdraws in two sections; a notifier takes a
  snapshot of the senders, works on it without the lock, and evicts what failed.
 */
module HubSpec {
  import opened Records

  const CHANNEL_CAPACITY := 64

  datatype Session = Claimed(user: UserId) | Numbered(user: UserId, id: nat) | Live(user: UserId, id: nat)
                   | Leaving(user: UserId)

  /** A sender's queue, the number of the last append announced to it, and how many appends
      there were when its client last received a notification. */
  datatype Channel = Channel(queue: nat, announced: nat, woken: nat, closed: bool)

  datatype Target = Target(user: UserId, id: nat)

  /** A notification of one append: not yet gathered, or on its way through its targets. The
      first target may have passed its check. The last field only remembers the snapshot. */
  datatype Notice =
    | Gathering(number: nat)
    | Sending(number: nat, targets: seq<Target>, checked: bool, failed: set<Target>, gathered: set<Target>)

  datatype Hub = Hub(
    active: set<UserId>,
    nextId: nat,
    connections: map<UserId, set<nat>>,
    channels: map<nat, Channel>,
    sessions: map<nat, Session>,
    notices: map<nat, Notice>,
    appends: nat)

  datatype Step =
    | Claim(task: nat, user: UserId)
    | Number(task: nat)
    | Enter(task: nat)
    | Withdraw(task: nat)
    | Release(task: nat)
    | Append(notifier: nat)
    | Gather(notifier: nat, recipients: seq<UserId>)
    | Check(notifier: nat)
    | Send(notifier: nat)
    | Evict(notifier: nat)
    | Receive(id: nat)
    | Close(id: nat)

  const EMPTY_HUB := Hub({}, 0, map[], map[], map[], map[], 0)

  // ----- the lock sections on the connections -----

  function Ids(connections: map<UserId, set<nat>>, user: UserId): set<nat> {
    if user in connections then connections[user] else {}
  }

  function Entered(connections: map<UserId, set<nat>>, user: UserId, id: nat): map<UserId, set<nat>> {
    connections[user := Ids(connections, user) + {id}]
  }

  /** Remove a sender, and the user's entry with its last sender. */
  function Without(connections: map<UserId, set<nat>>, user: UserId, id: nat): map<UserId, set<nat>> {
    if user !in connections then connections
    else if connections[user] - {id} == {} then connections - {user}
    else connections[user := connections[user] - {id}]
  }

  /** Remove every failed sender. */
  function WithoutAll(connections: map<UserId, set<nat>>, failed: set<Target>): map<UserId, set<nat>> {
    map user | user in connections && Remaining(connections, failed, user) != {} :: Remaining(connections, failed, user)
  }

  function Remaining(connections: map<UserId, set<nat>>, failed: set<Target>, user: UserId): set<nat>
    requires user in connections
  {
    set id | id in connections[user] && Target(user, id) !in failed
  }

  /** The list holds every sender of the recipients, and nothing else. */
  predicate AreTargets(connections: map<UserId, set<nat>>, recipients: seq<UserId>, targets: seq<Target>) {
    && (forall i :: 0 <= i < |targets| ==>
          targets[i].user in recipients && targets[i].id in Ids(connections, targets[i].user))
    && (forall i :: 0 <= i < |recipients| ==> Covered(connections, recipients[i], targets))
  }

  predicate Covered(connections: map<UserId, set<nat>>, user: UserId, targets: seq<Target>) {
    forall id :: id in Ids(connections, user) ==> Target(user, id) in targets
  }

  /** A notification that starts on its way with a snapshot. */
  function Gathered(number: nat, targets: seq<Target>): Notice {
    Sending(number, targets, false, {}, set i | 0 <= i < |targets| :: targets[i])
  }

  // ----- steps -----

  function Max(a: nat, b: nat): nat { if a < b then b else a }

  function Announce(channel: Channel, number: nat): Channel {
    channel.(announced := Max(channel.announced, number))
  }

  /** The state after one section; a step that is not enabled changes nothing. The snapshot of
      a gathering notifier lists all current senders of its recipients, in some order. */
  ghost predicate Takes(h: Hub, step: Step, h': Hub) {
    match step
    case Claim(task, user) =>
      if task in h.sessions || user in h.active then h' == h
      else h' == h.(active := h.active + {user}, sessions := h.sessions[task := Claimed(user)])
    case Number(task) =>
      if task !in h.sessions || !h.sessions[task].Claimed? then h' == h
      else
        h' == h.(nextId := h.nextId + 1, sessions := h.sessions[task := Numbered(h.sessions[task].user, h.nextId)],
                 channels := h.channels[h.nextId := Channel(0, 0, h.appends, false)])
    case Enter(task) =>
      if task !in h.sessions || !h.sessions[task].Numbered? then h' == h
      else
        var s := h.sessions[task];
        h' == h.(connections := Entered(h.connections, s.user, s.id),
                 sessions := h.sessions[task := Live(s.user, s.id)])
    case Withdraw(task) =>
      if task !in h.sessions || !h.sessions[task].Live? then h' == h
      else
        var s := h.sessions[task];
        h' == h.(connections := Without(h.connections, s.user, s.id), sessions := h.sessions[task := Leaving(s.user)])
    case Release(task) =>
      if task !in h.sessions || !h.sessions[task].Leaving? then h' == h
      else h' == h.(active := h.active - {h.sessions[task].user}, sessions := h.sessions - {task})
    case Append(notifier) =>
      if notifier in h.notices then h' == h
      else h' == h.(appends := h.appends + 1, notices := h.notices[notifier := Gathering(h.appends + 1)])
    case Gather(notifier, recipients) =>
      if notifier !in h.notices || !h.notices[notifier].Gathering? then h' == h
      else
        exists targets ::
          AreTargets(h.connections, recipients, targets)
          && h' == h.(notices := h.notices[notifier := Gathered(h.notices[notifier].number, targets)])
    case Check(notifier) =>
      if !AtTarget(h, notifier) || h.notices[notifier].checked then h' == h
      else
        var n := h.notices[notifier];
        var channel := h.channels[n.targets[0].id];
        if channel.queue > 0 then
          h' == h.(channels := h.channels[n.targets[0].id := Announce(channel, n.number)],
                   notices := h.notices[notifier := n.(targets := n.targets[1..])])
        else if channel.closed then
          h' == h.(notices := h.notices[notifier := n.(targets := n.targets[1..], failed := n.failed + {n.targets[0]})])
        else h' == h.(notices := h.notices[notifier := n.(checked := true)])
    case Send(notifier) =>
      if !AtTarget(h, notifier) || !h.notices[notifier].checked then h' == h
      else
        var n := h.notices[notifier];
        var channel := h.channels[n.targets[0].id];
        if channel.closed || channel.queue >= CHANNEL_CAPACITY then
          h' == h.(notices := h.notices[notifier := n.(targets := n.targets[1..], checked := false,
                                                       failed := n.failed + {n.targets[0]})])
        else
          h' == h.(channels := h.channels[n.targets[0].id
                                          := Announce(channel.(queue := channel.queue + 1), n.number)],
                   notices := h.notices[notifier := n.(targets := n.targets[1..], checked := false)])
    case Evict(notifier) =>
      if notifier !in h.notices || !h.notices[notifier].Sending? || h.notices[notifier].targets != [] then h' == h
      else
        h' == h.(connections := WithoutAll(h.connections, h.notices[notifier].failed),
                 notices := h.notices - {notifier})
    case Receive(id) =>
      if id !in h.channels || h.channels[id].queue == 0 then h' == h
      else
        h' == h.(channels := h.channels[id := h.channels[id].(queue := h.channels[id].queue - 1, woken := h.appends)])
    case Close(id) =>
      if id !in h.channels then h' == h
      else h' == h.(channels := h.channels[id := h.channels[id].(closed := true)])
  }

  predicate AtTarget(h: Hub, notifier: nat) {
    notifier in h.notices && h.notices[notifier].Sending? && h.notices[notifier].targets != []
    && h.notices[notifier].targets[0].id in h.channels
  }

  // ----- what every interleaving keeps -----

  /** A user is active exactly while one task has a session for that user. */
  ghost predicate SessionsOk(h: Hub) {
    && (forall a, b :: a in h.sessions && b in h.sessions && h.sessions[a].user == h.sessions[b].user ==> a == b)
    && (forall task :: task in h.sessions ==> h.sessions[task].user in h.active)
    && (forall user :: user in h.active ==> HasSession(h, user))
    && (forall task :: task in h.sessions && (h.sessions[task].Numbered? || h.sessions[task].Live?) ==>
          h.sessions[task].id < h.nextId)
  }

  ghost predicate HasSession(h: Hub, user: UserId) {
    exists task :: task in h.sessions && h.sessions[task].user == user
  }

  /** Every entry is the sender of the live session of its user. */
  ghost predicate EntriesOk(h: Hub) {
    forall user :: user in h.connections ==>
      h.connections[user] != {} && forall id :: id in h.connections[user] ==> IsLive(h, user, id)
  }

  ghost predicate IsLive(h: Hub, user: UserId, id: nat) {
    exists task :: task in h.sessions && h.sessions[task] == Live(user, id)
  }

  /** A sender of the snapshot is still to come, has failed, or knows of the append. */
  ghost predicate Handled(h: Hub, n: Notice, target: Target)
    requires n.Sending?
  {
    || target in n.targets || target in n.failed
    || (target.id in h.channels && n.number <= h.channels[target.id].announced)
  }

  ghost predicate NoticeOk(h: Hub, n: Notice) {
    && n.number <= h.appends
    && (n.Sending? ==>
          && (forall i :: 0 <= i < |n.targets| ==> n.targets[i] in n.gathered)
          && n.failed <= n.gathered
          && (forall target :: target in n.gathered ==> target.id < h.nextId && Handled(h, n, target)))
  }

  ghost predicate NoticesOk(h: Hub) { forall k :: k in h.notices ==> NoticeOk(h, h.notices[k]) }

  /** No wake-up is lost: a client with an empty queue has received a notification after every
      append that was announced to it. */
  ghost predicate ChannelOk(h: Hub, c: Channel) {
    && c.announced <= h.appends && c.woken <= h.appends && c.queue <= CHANNEL_CAPACITY
    && (c.queue == 0 ==> c.announced <= c.woken)
  }

  ghost predicate ChannelsOk(h: Hub) {
    && (forall id: nat :: id in h.channels <==> id < h.nextId)
    && (forall id :: id in h.channels ==> ChannelOk(h, h.channels[id]))
  }

  ghost predicate HubOk(h: Hub) { SessionsOk(h) && EntriesOk(h) && NoticesOk(h) && ChannelsOk(h) }

  predicate OfTask(step: Step) {
    step.Claim? || step.Number? || step.Enter? || step.Withdraw? || step.Release?
  }

  /** Only a task's own steps touch the sessions, and it keeps its user while it has one. */
  lemma SessionsFrame(h: Hub, step: Step, h': Hub)
    requires Takes(h, step, h')
    ensures !OfTask(step) ==> h'.sessions == h.sessions && h'.active == h.active && h'.nextId == h.nextId
    ensures OfTask(step) ==>
              forall task :: task != step.task ==>
                (task in h'.sessions <==> task in h.sessions)
                && (task in h.sessions ==> h'.sessions[task] == h.sessions[task])
    ensures OfTask(step) && step.task in h.sessions && step.task in h'.sessions ==>
              h'.sessions[step.task].user == h.sessions[step.task].user
  {}

  lemma SessionsKept(h: Hub, step: Step, h': Hub)
    requires SessionsOk(h) && Takes(h, step, h')
    ensures SessionsOk(h')
  {
    SessionsFrame(h, step, h');
    if !OfTask(step) {
      forall user | user in h'.active ensures HasSession(h', user) {
        assert HasSession(h, user);
      }
    } else {
      TaskKept(h, step, h');
    }
  }

  lemma ClaimIsNew(h: Hub, step: Step, h': Hub)
    requires SessionsOk(h) && Takes(h, step, h') && OfTask(step)
    ensures forall task :: task in h'.sessions ==> h'.sessions[task].user in h'.active
    ensures step.task in h'.sessions && step.task !in h.sessions ==> h'.sessions[step.task].user !in h.active
    ensures forall task :: task in h'.sessions && (h'.sessions[task].Numbered? || h'.sessions[task].Live?) ==>
              h'.sessions[task].id < h'.nextId
  {}

  lemma UsersDistinct(h: Hub, step: Step, h': Hub)
    requires SessionsOk(h) && Takes(h, step, h') && OfTask(step)
    ensures forall a, b :: a in h'.sessions && b in h'.sessions && h'.sessions[a].user == h'.sessions[b].user ==> a == b
  {
    SessionsFrame(h, step, h');
    ClaimIsNew(h, step, h');
    forall a, b | a in h'.sessions && b in h'.sessions && h'.sessions[a].user == h'.sessions[b].user ensures a == b {
      assert a in h.sessions ==> h.sessions[a].user in h.active;
      assert b in h.sessions ==> h.sessions[b].user in h.active;
    }
  }

  lemma TaskKept(h: Hub, step: Step, h': Hub)
    requires SessionsOk(h) && Takes(h, step, h') && OfTask(step)
    ensures SessionsOk(h')
  {
    ClaimIsNew(h, step, h');
    UsersDistinct(h, step, h');
    forall user | user in h'.active ensures HasSession(h', user) {
      if user in h.active {
        assert HasSession(h, user);
        var task :| task in h.sessions && h.sessions[task].user == user;
        assert task in h'.sessions && h'.sessions[task].user == user;
      } else {
        assert step.task in h'.sessions;
      }
    }
  }

  /** A step adds at most the sender of its own task. */
  lemma EntriesFrame(h: Hub, step: Step, h': Hub, user: UserId, id: nat)
    requires Takes(h, step, h') && id in Ids(h'.connections, user)
    ensures id in Ids(h.connections, user)
            || (step.Enter? && step.task in h'.sessions && h'.sessions[step.task] == Live(user, id))
    ensures step.Withdraw? && h' != h ==> h.sessions[step.task] != Live(user, id)
  {}

  lemma EntryKept(h: Hub, step: Step, h': Hub, user: UserId, id: nat)
    requires EntriesOk(h) && Takes(h, step, h') && id in Ids(h'.connections, user)
    ensures IsLive(h', user, id)
  {
    EntriesFrame(h, step, h', user, id);
    SessionsFrame(h, step, h');
    if id in Ids(h.connections, user) {
      assert IsLive(h, user, id);
      var task :| task in h.sessions && h.sessions[task] == Live(user, id);
      assert task in h'.sessions && h'.sessions[task] == Live(user, id);
    }
  }

  lemma NoEmptyEntries(h: Hub, step: Step, h': Hub)
    requires EntriesOk(h) && Takes(h, step, h')
    ensures forall user :: user in h'.connections ==> h'.connections[user] != {}
  {}

  lemma EntriesKept(h: Hub, step: Step, h': Hub)
    requires EntriesOk(h) && Takes(h, step, h')
    ensures EntriesOk(h')
  {
    NoEmptyEntries(h, step, h');
    forall user | user in h'.connections ensures forall id :: id in h'.connections[user] ==> IsLive(h', user, id) {
      forall id | id in h'.connections[user] ensures IsLive(h', user, id) {
        EntryKept(h, step, h', user, id);
      }
    }
  }

  /** What a channel was told is never forgotten. */
  lemma AnnouncedStays(h: Hub, step: Step, h': Hub, id: nat)
    requires ChannelsOk(h) && Takes(h, step, h') && id in h.channels
    ensures id in h'.channels && h.channels[id].announced <= h'.channels[id].announced
  {}

  lemma NoticeKept(h: Hub, step: Step, h': Hub, k: nat)
    requires ChannelsOk(h) && NoticesOk(h) && Takes(h, step, h')
    requires k in h.notices && k in h'.notices && h'.notices[k] == h.notices[k]
    ensures NoticeOk(h', h'.notices[k])
  {
    var n := h.notices[k];
    assert NoticeOk(h, n);
    if n.Sending? {
      forall target | target in n.gathered ensures target.id < h'.nextId && Handled(h', n, target) {
        assert Handled(h, n, target);
        if target.id in h.channels { AnnouncedStays(h, step, h', target.id); }
      }
    }
  }

  lemma PassedKept(h: Hub, step: Step, h': Hub)
    requires ChannelsOk(h) && NoticesOk(h) && Takes(h, step, h') && (step.Check? || step.Send?) && h' != h
    ensures step.notifier in h'.notices && NoticeOk(h', h'.notices[step.notifier])
  {
    var n, n' := h.notices[step.notifier], h'.notices[step.notifier];
    assert NoticeOk(h, n);
    forall target | target in n.gathered ensures Handled(h', n', target) {
      assert Handled(h, n, target);
      if target.id in h.channels { AnnouncedStays(h, step, h', target.id); }
      assert target in n.targets ==> target == n.targets[0] || target in n.targets[1..];
    }
  }

  lemma GatheredOk(h: Hub, recipients: seq<UserId>, targets: seq<Target>, number: nat)
    requires SessionsOk(h) && EntriesOk(h) && AreTargets(h.connections, recipients, targets) && number <= h.appends
    ensures NoticeOk(h, Gathered(number, targets))
  {
    TargetsKnown(h, recipients, targets);
  }

  lemma GatherKept(h: Hub, notifier: nat, recipients: seq<UserId>, h': Hub)
    requires SessionsOk(h) && EntriesOk(h) && NoticesOk(h) && Takes(h, Gather(notifier, recipients), h') && h' != h
    ensures notifier in h'.notices && NoticeOk(h', h'.notices[notifier])
  {
    assert NoticeOk(h, h.notices[notifier]);
    var number := h.notices[notifier].number;
    var targets :| AreTargets(h.connections, recipients, targets)
                   && h' == h.(notices := h.notices[notifier := Gathered(number, targets)]);
    GatheredOk(h, recipients, targets, number);
    forall target | target in h'.notices[notifier].gathered ensures Handled(h', h'.notices[notifier], target) {
      assert Handled(h, Gathered(number, targets), target);
    }
  }

  lemma NoticesKept(h: Hub, step: Step, h': Hub)
    requires HubOk(h) && Takes(h, step, h')
    ensures NoticesOk(h')
  {
    forall k | k in h'.notices ensures NoticeOk(h', h'.notices[k]) {
      if k in h.notices && h'.notices[k] == h.notices[k] {
        NoticeKept(h, step, h', k);
      } else if step.Gather? {
        GatherKept(h, step.notifier, step.recipients, h');
      } else if step.Check? || step.Send? {
        PassedKept(h, step, h');
      }
    }
  }

  lemma TargetsKnown(h: Hub, recipients: seq<UserId>, targets: seq<Target>)
    requires SessionsOk(h) && EntriesOk(h) && AreTargets(h.connections, recipients, targets)
    ensures forall i :: 0 <= i < |targets| ==> targets[i].id < h.nextId
  {
    forall i | 0 <= i < |targets| ensures targets[i].id < h.nextId {
      assert IsLive(h, targets[i].user, targets[i].id);
    }
  }

  lemma ChannelsKept(h: Hub, step: Step, h': Hub)
    requires NoticesOk(h) && ChannelsOk(h) && Takes(h, step, h')
    ensures ChannelsOk(h')
  {
    forall id | id in h'.channels ensures ChannelOk(h', h'.channels[id]) {
      if id in h.channels { assert ChannelOk(h, h.channels[id]); }
      if (step.Check? || step.Send?) && step.notifier in h.notices {
        assert NoticeOk(h, h.notices[step.notifier]);
      }
    }
  }

  lemma HubKept(h: Hub, step: Step, h': Hub)
    requires HubOk(h) && Takes(h, step, h')
    ensures HubOk(h')
  {
    SessionsKept(h, step, h');
    EntriesKept(h, step, h');
    NoticesKept(h, step, h');
    ChannelsKept(h, step, h');
  }

  // ----- every run -----

  /** A run: states linked by steps. */
  ghost predicate IsRun(states: seq<Hub>, steps: seq<Step>) {
    && |states| == |steps| + 1 && states[0] == EMPTY_HUB
    && forall i :: 0 <= i < |steps| ==> Takes(states[i], steps[i], states[i + 1])
  }

  lemma {:induction false} RunOk(states: seq<Hub>, steps: seq<Step>, n: nat)
    requires IsRun(states, steps) && n <= |steps|
    ensures HubOk(states[n])
  {
    if n > 0 {
      RunOk(states, steps, n - 1);
      assert Takes(states[n - 1], steps[n - 1], states[n - 1 + 1]);
      HubKept(states[n - 1], steps[n - 1], states[n]);
    }
  }

  /** Hub safety under every interleaving: a user has at most one session and one sender entry,
      the entry belongs to the user's live session and the user is active. */
  lemma OneSessionPerUser(states: seq<Hub>, steps: seq<Step>, n: nat, user: UserId, id: nat, other: nat)
    requires IsRun(states, steps) && n <= |steps|
    ensures var h := states[n];
            && (forall a, b ::
                  a in h.sessions && b in h.sessions && h.sessions[a].user == h.sessions[b].user ==> a == b)
            && (id in Ids(h.connections, user) ==> user in h.active && IsLive(h, user, id))
            && (id in Ids(h.connections, user) && other in Ids(h.connections, user) ==> id == other)
  {
    RunOk(states, steps, n);
    var h := states[n];
    if id in Ids(h.connections, user) && other in Ids(h.connections, user) {
      assert IsLive(h, user, id) && IsLive(h, user, other);
    }
  }

  /** The notification was gathered at step `m`: its snapshot is what the recipients had then. */
  ghost predicate GatheredAt(states: seq<Hub>, steps: seq<Step>, m: nat, notifier: nat, n: Notice)
    requires IsRun(states, steps) && m < |steps|
  {
    && n.Sending? && steps[m].Gather? && steps[m].notifier == notifier
    && (forall target :: target in n.gathered <==>
          target.user in steps[m].recipients && target.id in Ids(states[m].connections, target.user))
    && notifier in states[m].notices && states[m].notices[notifier] == Gathering(n.number)
  }

  lemma GatheredIs(states: seq<Hub>, steps: seq<Step>, m: nat, notifier: nat)
    requires IsRun(states, steps) && m < |steps| && steps[m].Gather? && steps[m].notifier == notifier
    requires states[m + 1] != states[m]
    ensures notifier in states[m + 1].notices
    ensures GatheredAt(states, steps, m, notifier, states[m + 1].notices[notifier])
  {
    var h, h', recipients := states[m], states[m + 1], steps[m].recipients;
    assert Takes(h, steps[m], states[m + 1]);
    var number := h.notices[notifier].number;
    var targets :| AreTargets(h.connections, recipients, targets)
                   && h' == h.(notices := h.notices[notifier := Gathered(number, targets)]);
    forall target: Target | target.user in recipients && target.id in Ids(h.connections, target.user)
      ensures target in h'.notices[notifier].gathered
    {
      assert Covered(h.connections, target.user, targets);
      assert Target(target.user, target.id) in targets;
    }
  }

  lemma SnapshotStays(h: Hub, step: Step, h': Hub, k: nat)
    requires Takes(h, step, h') && k in h'.notices && h'.notices[k].Sending?
    requires !(step.Gather? && step.notifier == k && h' != h)
    ensures k in h.notices && h.notices[k].Sending?
    ensures h'.notices[k].gathered == h.notices[k].gathered && h'.notices[k].number == h.notices[k].number
  {}

  /** Every notification on its way was gathered at some step of the run. */
  lemma {:induction false} WasGathered(states: seq<Hub>, steps: seq<Step>, n: nat, notifier: nat) returns (m: nat)
    requires IsRun(states, steps) && n <= |steps|
    requires notifier in states[n].notices && states[n].notices[notifier].Sending?
    ensures m < n && GatheredAt(states, steps, m, notifier, states[n].notices[notifier])
  {
    assert n > 0;
    var step := steps[n - 1];
    assert Takes(states[n - 1], step, states[n - 1 + 1]);
    if step.Gather? && step.notifier == notifier && states[n] != states[n - 1] {
      m := n - 1;
      GatheredIs(states, steps, m, notifier);
    } else {
      SnapshotStays(states[n - 1], step, states[n], notifier);
      m := WasGathered(states, steps, n - 1, notifier);
    }
  }

  /** An eviction works on a stale snapshot, taken at step `m`. It removes no sender that was
      not entered then, whoever the user is and whenever its identifier was drawn, and adds none. */
  lemma EvictionSparesNewer(states: seq<Hub>, steps: seq<Step>, n: nat, notifier: nat) returns (m: nat)
    requires IsRun(states, steps) && n < |steps| && steps[n] == Evict(notifier) && states[n + 1] != states[n]
    ensures m < n && steps[m].Gather? && steps[m].notifier == notifier
    ensures forall user, id :: id in Ids(states[n].connections, user) && id !in Ids(states[m].connections, user) ==>
              id in Ids(states[n + 1].connections, user)
    ensures forall user, id :: id in Ids(states[n + 1].connections, user) ==> id in Ids(states[n].connections, user)
  {
    RunOk(states, steps, n);
    assert Takes(states[n], steps[n], states[n + 1]);
    m := WasGathered(states, steps, n, notifier);
    var notice := states[n].notices[notifier];
    assert NoticeOk(states[n], notice);
    forall user, id | id in Ids(states[n].connections, user) && id !in Ids(states[m].connections, user)
      ensures id in Ids(states[n + 1].connections, user)
    {
      assert Target(user, id) !in notice.gathered;
      assert id in Remaining(states[n].connections, notice.failed, user);
    }
  }

  /** A sender nothing can be sent to. */
  predicate Unfit(c: Channel) { c.closed || c.queue >= CHANNEL_CAPACITY }

  lemma FailsNow(h: Hub, step: Step, h': Hub, k: nat, target: Target)
    requires ChannelsOk(h) && Takes(h, step, h') && k in h.notices && h.notices[k].Sending?
    requires k in h'.notices && h'.notices[k].Sending? && target in h'.notices[k].failed
    ensures target in h.notices[k].failed || (target.id in h.channels && Unfit(h.channels[target.id]))
  {}

  /** A sender counts as failed only after a look at it, since the snapshot, that found it unfit. */
  lemma {:induction false} FailedSince(states: seq<Hub>, steps: seq<Step>, n: nat, notifier: nat, target: Target)
    returns (m: nat, j: nat)
    requires IsRun(states, steps) && n <= |steps| && notifier in states[n].notices
    requires states[n].notices[notifier].Sending? && target in states[n].notices[notifier].failed
    ensures m < j < n && GatheredAt(states, steps, m, notifier, states[n].notices[notifier])
    ensures target.id in states[j].channels && Unfit(states[j].channels[target.id])
  {
    assert n > 0;
    var h, h', step := states[n - 1], states[n], steps[n - 1];
    assert Takes(h, step, states[n - 1 + 1]);
    RunOk(states, steps, n - 1);
    FreshlyGathered(h, step, h', notifier, target);
    SnapshotStays(h, step, h', notifier);
    FailsNow(h, step, h', notifier, target);
    if target in h.notices[notifier].failed {
      m, j := FailedSince(states, steps, n - 1, notifier, target);
    } else {
      j := n - 1;
      m := WasGathered(states, steps, n - 1, notifier);
    }
  }

  lemma FreshlyGathered(h: Hub, step: Step, h': Hub, k: nat, target: Target)
    requires Takes(h, step, h') && k in h'.notices && h'.notices[k].Sending? && target in h'.notices[k].failed
    ensures !(step.Gather? && step.notifier == k && h' != h)
  {}

  /** Nobody is evicted without cause: a sender that an eviction removes was in its snapshot, taken
      at step `m`, and at a later step `j` its channel was closed or full. */
  lemma EvictionHasCause(states: seq<Hub>, steps: seq<Step>, n: nat, notifier: nat, user: UserId, id: nat)
    returns (m: nat, j: nat)
    requires IsRun(states, steps) && n < |steps| && steps[n] == Evict(notifier)
    requires id in Ids(states[n].connections, user) && id !in Ids(states[n + 1].connections, user)
    ensures m < j < n && steps[m].Gather? && steps[m].notifier == notifier
    ensures user in steps[m].recipients && id in Ids(states[m].connections, user)
    ensures id in states[j].channels && (states[j].channels[id].closed || states[j].channels[id].queue >= 64)
  {
    RunOk(states, steps, n);
    assert Takes(states[n], steps[n], states[n + 1]);
    var notice := states[n].notices[notifier];
    assert NoticeOk(states[n], notice);
    assert Target(user, id) in notice.failed by {
      assert id !in Remaining(states[n].connections, notice.failed, user);
    }
    m, j := FailedSince(states, steps, n, notifier, Target(user, id));
  }

  lemma LeavesBy(h: Hub, step: Step, h': Hub, user: UserId, id: nat)
    requires Takes(h, step, h') && id in Ids(h.connections, user) && id !in Ids(h'.connections, user)
    ensures step.Evict? || (step.Withdraw? && step.task in h.sessions && h.sessions[step.task] == Live(user, id))
  {}

  /** A sender whose channel is never closed or full stays entered until its own session withdraws. */
  lemma {:induction false} FitSenderStays(states: seq<Hub>, steps: seq<Step>, first: nat, n: nat, user: UserId, id: nat)
    requires IsRun(states, steps) && first <= n <= |steps| && id in Ids(states[first].connections, user)
    requires forall j :: 0 <= j < n && id in states[j].channels ==> !Unfit(states[j].channels[id])
    requires forall j :: first <= j < n && steps[j].Withdraw? && steps[j].task in states[j].sessions ==>
               states[j].sessions[steps[j].task] != Live(user, id)
    ensures id in Ids(states[n].connections, user)
    decreases n
  {
    if first < n {
      FitSenderStays(states, steps, first, n - 1, user, id);
      assert Takes(states[n - 1], steps[n - 1], states[n - 1 + 1]);
      if id !in Ids(states[n].connections, user) {
        LeavesBy(states[n - 1], steps[n - 1], states[n], user, id);
        var m, j := EvictionHasCause(states, steps, n - 1, steps[n - 1].notifier, user, id);
      }
    }
  }

  lemma {:induction false} AnnouncedForGood(states: seq<Hub>, steps: seq<Step>, n: nat, later: nat, id: nat)
    requires IsRun(states, steps) && n <= later <= |steps| && id in states[n].channels
    ensures id in states[later].channels
    ensures states[n].channels[id].announced <= states[later].channels[id].announced
    decreases later
  {
    if n < later {
      AnnouncedForGood(states, steps, n, later - 1, id);
      RunOk(states, steps, later - 1);
      assert Takes(states[later - 1], steps[later - 1], states[later - 1 + 1]);
      AnnouncedStays(states[later - 1], steps[later - 1], states[later], id);
    }
  }

  /** No lost wake-up. A notification of append `number` that was gathered at `m` and ends at `n`
      has dealt with every sender its recipients had at `m`: the sender is evicted, or from
      then on its client has a notification waiting or has received one since the append. */
  lemma NoLostWakeup(states: seq<Hub>, steps: seq<Step>, n: nat, notifier: nat, later: nat) returns (m: nat)
    requires IsRun(states, steps) && n < later <= |steps| && steps[n] == Evict(notifier) && states[n + 1] != states[n]
    ensures m < n && steps[m].Gather? && steps[m].notifier == notifier && notifier in states[m].notices
    ensures forall user, id :: user in steps[m].recipients && id in Ids(states[m].connections, user) ==>
              || id !in Ids(states[n + 1].connections, user)
              || (id in states[later].channels
                  && (states[later].channels[id].queue > 0
                      || states[m].notices[notifier].number <= states[later].channels[id].woken))
  {
    RunOk(states, steps, n);
    RunOk(states, steps, later);
    assert Takes(states[n], steps[n], states[n + 1]);
    m := WasGathered(states, steps, n, notifier);
    var notice := states[n].notices[notifier];
    assert NoticeOk(states[n], notice);
    forall user, id | user in steps[m].recipients && id in Ids(states[m].connections, user)
                      && id in Ids(states[n + 1].connections, user)
      ensures id in states[later].channels
              && (states[later].channels[id].queue > 0 || notice.number <= states[later].channels[id].woken)
    {
      assert Target(user, id) in notice.gathered;
      SenderTold(states[n], notice, user, id);
      AnnouncedForGood(states, steps, n, later, id);
      assert ChannelOk(states[later], states[later].channels[id]);
    }
  }

  lemma SenderTold(h: Hub, notice: Notice, user: UserId, id: nat)
    requires NoticeOk(h, notice) && notice.Sending? && notice.targets == [] && Target(user, id) in notice.gathered
    requires id in Ids(WithoutAll(h.connections, notice.failed), user)
    ensures id in h.channels && notice.number <= h.channels[id].announced
  {
    assert Handled(h, notice, Target(user, id));
    assert id in Remaining(h.connections, notice.failed, user);
  }
}

/** The hub object: one method per lock section. */
module Hubs {
  import opened Records
  import opened HubSpec

  predicate NoneEmpty(connections: map<UserId, set<nat>>) {
    forall user :: user in connections ==> connections[user] != {}
  }

  lemma EvictNone(connections: map<UserId, set<nat>>)
    requires NoneEmpty(connections)
    ensures WithoutAll(connections, {}) == connections
  {
    forall user | user in connections ensures Remaining(connections, {}, user) == connections[user] {}
  }

  /** Removing one more failed sender from what is left. */
  lemma EvictMore(connections: map<UserId, set<nat>>, failed: set<Target>, target: Target)
    ensures Without(WithoutAll(connections, failed), target.user, target.id)
            == WithoutAll(connections, failed + {target})
  {
    var before, after := WithoutAll(connections, failed), WithoutAll(connections, failed + {target});
    forall user | user in connections
      ensures Remaining(connections, failed + {target}, user)
              == Remaining(connections, failed, user) - (if user == target.user then {target.id} else {})
    {}
    var without := Without(before, target.user, target.id);
    forall user ensures user in without <==> user in after {
      assert user in connections && user != target.user ==> (user in before <==> user in after);
    }
    forall user | user in after ensures without[user] == after[user] {
      assert user in before && before[user] == Remaining(connections, failed, user);
    }
  }

  datatype Verdict = Done | Failed | Passed

  /** A notification after a verdict on its first target. */
  function Judged(n: Notice, verdict: Verdict): Notice
    requires n.Sending? && n.targets != []
  {
    match verdict
    case Done => n.(targets := n.targets[1..], checked := false)
    case Failed => n.(targets := n.targets[1..], checked := false, failed := n.failed + {n.targets[0]})
    case Passed => n.(checked := true)
  }

  ghost predicate OnTarget(h: Hub, notifier: nat, target: Target, number: nat) {
    AtTarget(h, notifier) && h.notices[notifier].targets[0] == target && h.notices[notifier].number == number
  }

  function SetOf(targets: seq<Target>): set<Target> { set i | 0 <= i < |targets| :: targets[i] }

  lemma SetOfMore(targets: seq<Target>, target: Target)
    ensures SetOf(targets + [target]) == SetOf(targets) + {target}
  {
    var longer := targets + [target];
    assert longer[|targets|] == target;
    assert forall i :: 0 <= i < |targets| ==> longer[i] == targets[i];
  }

  /** The channel after it was offered a notification: a waiting one or a closed end makes no
      difference, otherwise one notification waits. */
  predicate Offered(before: Channel, after: Channel) {
    && after.queue == (if before.queue == 0 && !before.closed then 1 else before.queue)
    && after.closed == before.closed && after.woken == before.woken
  }

  /** Nobody listens and nothing waits. */
  predicate Dead(c: Channel) { c.closed && c.queue == 0 }

  predicate Untouched(before: Channel, after: Channel) {
    after.queue == before.queue && after.closed == before.closed && after.woken == before.woken
  }

  ghost predicate OnlyAt(before: map<nat, Channel>, id: nat, after: map<nat, Channel>) {
    id in before && after.Keys == before.Keys && forall k :: k in before && k != id ==> after[k] == before[k]
  }

  /** The three outcomes of a look at a queue. */
  predicate Checked(before: Channel, verdict: Verdict, after: Channel) {
    match verdict
    case Done => before.queue > 0 && Untouched(before, after)
    case Failed => Dead(before) && after == before
    case Passed => before.queue == 0 && !before.closed && after == before
  }

  predicate Sent(before: Channel, verdict: Verdict, after: Channel) {
    if verdict.Failed? then Unfit(before) && after == before
    else
      !Unfit(before) && after.queue == before.queue + 1 && after.closed == before.closed && after.woken == before.woken
  }

  /** What offering to a list of targets does to the channels. */
  ghost predicate AllOffered(before: map<nat, Channel>, targets: seq<Target>, after: map<nat, Channel>) {
    && after.Keys == before.Keys
    && forall id :: id in before ==>
         if Aims(targets, id) then Offered(before[id], after[id]) else Untouched(before[id], after[id])
  }

  ghost predicate Aims(targets: seq<Target>, id: nat) { exists i :: 0 <= i < |targets| && targets[i].id == id }

  lemma AimsMore(targets: seq<Target>, target: Target, id: nat)
    ensures Aims(targets + [target], id) <==> Aims(targets, id) || target.id == id
  {
    var longer := targets + [target];
    if Aims(targets, id) {
      var i :| 0 <= i < |targets| && targets[i].id == id;
      assert longer[i].id == id;
    }
    if target.id == id { assert longer[|targets|].id == id; }
  }

  /** One more target. */
  lemma OfferedMore(before: map<nat, Channel>, targets: seq<Target>, mid: map<nat, Channel>, target: Target,
                    after: map<nat, Channel>)
    requires AllOffered(before, targets, mid) && OnlyAt(mid, target.id, after)
    requires Offered(mid[target.id], after[target.id])
    ensures AllOffered(before, targets + [target], after)
  {
    forall id | id in before
      ensures if Aims(targets + [target], id) then Offered(before[id], after[id]) else Untouched(before[id], after[id])
    {
      AimsMore(targets, target, id);
    }
  }

  lemma OfferedDead(before: map<nat, Channel>, targets: seq<Target>, mid: map<nat, Channel>, id: nat)
    requires AllOffered(before, targets, mid) && id in before
    ensures Dead(mid[id]) <==> Dead(before[id])
  {}

  lemma TargetKnown(h: Hub, notifier: nat)
    requires HubOk(h) && notifier in h.notices && h.notices[notifier].Sending? && h.notices[notifier].targets != []
    ensures AtTarget(h, notifier)
  {
    assert NoticeOk(h, h.notices[notifier]);
  }

  lemma NeverSeen(h: Hub, id: nat)
    requires HubOk(h) && id >= h.nextId
    ensures id !in h.channels && forall user :: id !in Ids(h.connections, user)
    ensures forall k :: k in h.notices && h.notices[k].Sending? ==>
              forall target :: target in h.notices[k].gathered ==> target.id != id
  {
    forall user, other | other in Ids(h.connections, user) ensures other < h.nextId {
      assert IsLive(h, user, other);
    }
    forall k | k in h.notices && h.notices[k].Sending?
      ensures forall target :: target in h.notices[k].gathered ==> target.id != id
    {
      assert NoticeOk(h, h.notices[k]);
    }
  }

  lemma OnlyEntry(h: Hub, user: UserId, id: nat, task: nat)
    requires HubOk(h) && task in h.sessions && h.sessions[task] == Live(user, id) && id in Ids(h.connections, user)
    ensures Ids(h.connections, user) == {id}
  {
    forall other | other in Ids(h.connections, user) ensures other == id {
      assert IsLive(h, user, other);
    }
  }

  lemma NoEntry(h: Hub, user: UserId, task: nat)
    requires HubOk(h) && task in h.sessions && h.sessions[task] == Leaving(user)
    ensures Ids(h.connections, user) == {}
  {
    forall id: nat ensures !IsLive(h, user, id) {}
    forall id: nat ensures id in Ids(h.connections, user) ==> IsLive(h, user, id) {}
  }

  /** The states of a piece of a run, from one state to another. */
  ghost predicate Path(h: Hub, states: seq<Hub>, steps: seq<Step>, h': Hub) {
    && |states| == |steps| + 1 && states[0] == h && states[|steps|] == h'
    && forall i :: 0 <= i < |steps| ==> Takes(states[i], steps[i], states[i + 1])
  }

  lemma PathOn(h: Hub, states: seq<Hub>, steps: seq<Step>, mid: Hub, step: Step, h': Hub)
    requires Path(h, states, steps, mid) && Takes(mid, step, h')
    ensures Path(h, states + [h'], steps + [step], h')
  {
    var longer, more := states + [h'], steps + [step];
    forall i | 0 <= i < |more| ensures Takes(longer[i], more[i], longer[i + 1]) {
      if i < |steps| { assert Takes(states[i], steps[i], states[i + 1]); }
    }
  }

  lemma PathOne(h: Hub, step: Step, h': Hub)
    requires Takes(h, step, h')
    ensures Path(h, [h, h'], [step], h')
  {}

  lemma PathJoin(
    h: Hub, states: seq<Hub>, steps: seq<Step>, mid: Hub, moreStates: seq<Hub>, moreSteps: seq<Step>, h': Hub)
    requires Path(h, states, steps, mid) && Path(mid, moreStates, moreSteps, h')
    ensures Path(h, states + moreStates[1..], steps + moreSteps, h')
  {
    var longer, more := states + moreStates[1..], steps + moreSteps;
    assert forall i :: |steps| <= i < |longer| ==> longer[i] == moreStates[i - |steps|];
    forall i | 0 <= i < |more| ensures Takes(longer[i], more[i], longer[i + 1]) {
      if i < |steps| {
        assert Takes(states[i], steps[i], states[i + 1]);
      } else {
        var k := i - |steps|;
        assert Takes(moreStates[k], moreSteps[k], moreStates[k + 1]);
      }
    }
  }

  lemma WholePath(h: Hub, first: Step, h1: Hub, states: seq<Hub>, steps: seq<Step>, h2: Hub, last: Step, h': Hub)
    returns (allStates: seq<Hub>, allSteps: seq<Step>)
    requires Takes(h, first, h1) && Path(h1, states, steps, h2) && Takes(h2, last, h')
    ensures Path(h, allStates, allSteps, h')
  {
    PathOne(h, first, h1);
    PathJoin(h, [h, h1], [first], h1, states, steps, h2);
    allStates, allSteps := [h, h1] + states[1..], [first] + steps;
    PathOn(h, allStates, allSteps, h2, last, h');
    allStates, allSteps := allStates + [h'], allSteps + [last];
  }

  ghost predicate FailedAre(channels: map<nat, Channel>, targets: seq<Target>, failed: seq<Target>) {
    forall target :: target in failed <==> target in targets && target.id in channels && Dead(channels[target.id])
  }

  /** A notification that started at `h` and has offered to the first targets. */
  ghost predicate Underway(h: Hub, notifier: nat, number: nat, targets: seq<Target>, i: nat, failed: seq<Target>,
                           states: seq<Hub>, steps: seq<Step>, now: Hub)
  {
    && i <= |targets| && Path(h, states, steps, now) && notifier in now.notices
    && now.notices[notifier] == Sending(number, targets[i..], false, SetOf(failed), SetOf(targets))
    && AllOffered(h.channels, targets[..i], now.channels) && FailedAre(h.channels, targets[..i], failed)
  }

  lemma UnderwayMore(h: Hub, notifier: nat, number: nat, targets: seq<Target>, i: nat, failed: seq<Target>,
                     states: seq<Hub>, steps: seq<Step>, mid: Hub, verdict: Verdict, moreStates: seq<Hub>,
                     moreSteps: seq<Step>, now: Hub)
    requires i < |targets| && Underway(h, notifier, number, targets, i, failed, states, steps, mid)
    requires Path(mid, moreStates, moreSteps, now) && notifier in now.notices && !verdict.Passed?
    requires now.notices[notifier] == Judged(mid.notices[notifier], verdict)
    requires OnlyAt(mid.channels, targets[i].id, now.channels)
    requires Offered(mid.channels[targets[i].id], now.channels[targets[i].id])
    requires verdict.Failed? <==> Dead(mid.channels[targets[i].id])
    ensures Underway(h, notifier, number, targets, i + 1,
                     if verdict.Failed? then failed + [targets[i]] else failed,
                     states + moreStates[1..], steps + moreSteps, now)
  {
    PathJoin(h, states, steps, mid, moreStates, moreSteps, now);
    assert targets[..i + 1] == targets[..i] + [targets[i]];
    OfferedMore(h.channels, targets[..i], mid.channels, targets[i], now.channels);
    OfferedDead(h.channels, targets[..i], mid.channels, targets[i].id);
    SetOfMore(failed, targets[i]);
  }

  /** The hub, with the sender queues it hands out. The ghost fields are what its tasks and
      notifiers hold, so that every method is one step of the interleaved system; `appends`
      only counts. */
  class ConnectionHub {
    var active: set<UserId>
    var nextId: nat
    var connections: map<UserId, set<nat>>
    var channels: map<nat, Channel>
    ghost var sessions: map<nat, Session>
    ghost var notices: map<nat, Notice>
    var appends: nat

    ghost function View(): Hub
      reads this
    {
      Hub(active, nextId, connections, channels, sessions, notices, appends)
    }

    ghost predicate Valid()
      reads this
    {
      HubOk(View())
    }

    constructor ()
      ensures View() == EMPTY_HUB && Valid()
    {
      active, nextId, connections, channels := {}, 0, map[], map[];
      sessions, notices, appends := map[], map[], 0;
    }

    /** First section of a registration: it succeeds exactly for a user nobody has a session for. */
    method Claim(user: UserId, ghost task: nat) returns (ok: bool)
      requires Valid() && task !in sessions
      modifies this
      ensures Valid() && Takes(old(View()), Step.Claim(task, user), View())
      ensures ok <==> !HasSession(old(View()), user)
      ensures ok <==> task in sessions
    {
      ghost var before := View();
      ok := user !in active;
      active := active + {user};
      if ok {
        sessions := sessions[task := Claimed(user)];
        assert HasSession(before, user) ==> user in before.active;
      } else {
        assert View() == before;
      }
      HubKept(before, Step.Claim(task, user), View());
    }

    /** Draw an identifier that no session, entry or notification has ever seen. */
    method TakeId(ghost task: nat) returns (id: nat)
      requires Valid() && task in sessions && sessions[task].Claimed?
      modifies this
      ensures Valid() && Takes(old(View()), Number(task), View())
      ensures task in sessions && sessions[task] == Numbered(old(sessions)[task].user, id)
      ensures id !in old(channels) && forall user :: id !in Ids(old(connections), user)
      ensures forall k :: k in notices && notices[k].Sending? ==>
                forall target :: target in notices[k].gathered ==> target.id != id
    {
      ghost var before := View();
      id := nextId;
      nextId := nextId + 1;
      channels := channels[id := Channel(0, 0, appends, false)];
      sessions := sessions[task := Numbered(sessions[task].user, id)];
      HubKept(before, Number(task), View());
      NeverSeen(before, id);
    }

    method Enter(user: UserId, id: nat, ghost task: nat)
      requires Valid() && task in sessions && sessions[task] == Numbered(user, id)
      modifies `connections, `sessions
      ensures Valid() && Takes(old(View()), Step.Enter(task), View())
      ensures Ids(connections, user) == {id}
    {
      ghost var before := View();
      connections := connections[user := Ids(connections, user) + {id}];
      sessions := sessions[task := Live(user, id)];
      HubKept(before, Step.Enter(task), View());
      OnlyEntry(View(), user, id, task);
    }

    /** Remove one sender, and the user's entry with its last sender. */
    method Remove(user: UserId, id: nat)
      modifies `connections
      ensures connections == Without(old(connections), user, id)
    {
      if user in connections {
        var ids := connections[user] - {id};
        if ids == {} {
          connections := connections - {user};
        } else {
          connections := connections[user := ids];
        }
      }
    }

    /** First section of a dropped registration: the user has no sender left. */
    method Unregister(user: UserId, id: nat, ghost task: nat)
      requires Valid() && task in sessions && sessions[task] == Live(user, id)
      modifies `connections, `sessions
      ensures Valid() && Takes(old(View()), Withdraw(task), View())
      ensures Ids(connections, user) == {}
    {
      ghost var before := View();
      Remove(user, id);
      sessions := sessions[task := Leaving(user)];
      HubKept(before, Withdraw(task), View());
      NoEntry(View(), user, task);
    }

    /** Last section of a dropped registration: the user can come back, and nobody else changed. */
    method Release(user: UserId, ghost task: nat)
      requires Valid() && task in sessions && sessions[task] == Leaving(user)
      modifies `active, `sessions
      ensures Valid() && Takes(old(View()), Step.Release(task), View())
      ensures !HasSession(View(), user)
      ensures forall other :: other != user ==> (HasSession(View(), other) <==> HasSession(old(View()), other))
    {
      ghost var before := View();
      active := active - {user};
      sessions := sessions - {task};
      HubKept(before, Step.Release(task), View());
      assert HasSession(View(), user) ==> user in active;
      forall other | other != user ensures HasSession(View(), other) <==> HasSession(before, other) {
        assert HasSession(View(), other) <==> other in active;
        assert HasSession(before, other) <==> other in before.active;
      }
    }

    /** The snapshot a notifier works on without the lock. */
    method Targets(recipients: seq<UserId>, ghost notifier: nat) returns (targets: seq<Target>)
      requires Valid() && notifier in notices && notices[notifier].Gathering?
      modifies `notices
      ensures Valid() && Takes(old(View()), Gather(notifier, recipients), View())
      ensures AreTargets(connections, recipients, targets)
      ensures notifier in notices && notices[notifier] == Gathered(old(notices)[notifier].number, targets)
    {
      ghost var before := View();
      targets := Snapshot(recipients);
      notices := notices[notifier := Gathered(notices[notifier].number, targets)];
      HubKept(before, Gather(notifier, recipients), View());
    }

    method Snapshot(recipients: seq<UserId>) returns (targets: seq<Target>)
      ensures AreTargets(connections, recipients, targets)
    {
      targets := [];
      var i := 0;
      while i < |recipients|
        invariant 0 <= i <= |recipients|
        invariant forall k :: 0 <= k < |targets| ==>
                    targets[k].user in recipients && targets[k].id in Ids(connections, targets[k].user)
        invariant forall k :: 0 <= k < i ==> Covered(connections, recipients[k], targets)
      {
        var user := recipients[i];
        if user in connections {
          var more := SendersOf(user);
          targets := targets + more;
        }
        i := i + 1;
      }
    }

    method SendersOf(user: UserId) returns (targets: seq<Target>)
      requires user in connections
      ensures forall k :: 0 <= k < |targets| ==> targets[k].user == user && targets[k].id in connections[user]
      ensures Covered(connections, user, targets)
    {
      targets := [];
      var ids := connections[user];
      while ids != {}
        invariant ids <= connections[user]
        invariant forall k :: 0 <= k < |targets| ==> targets[k].user == user && targets[k].id in connections[user]
        invariant forall id :: id in connections[user] && id !in ids ==> Target(user, id) in targets
        decreases |ids|
      {
        var id: nat :| id in ids;
        ids := ids - {id};
        targets := targets + [Target(user, id)];
      }
    }

    /** Look at the queue of the next target: waiting notifications make another one needless. */
    method CheckTarget(target: Target, number: nat, ghost notifier: nat) returns (verdict: Verdict)
      requires Valid() && OnTarget(View(), notifier, target, number) && !notices[notifier].checked
      modifies `channels, `notices
      ensures Valid() && Takes(old(View()), Check(notifier), View())
      ensures notifier in notices && notices[notifier] == Judged(old(notices)[notifier], verdict)
      ensures OnlyAt(old(channels), target.id, channels)
      ensures Checked(old(channels)[target.id], verdict, channels[target.id])
    {
      ghost var before := View();
      var channel := channels[target.id];
      if channel.queue > 0 {
        channels := channels[target.id := Announce(channel, number)];
        verdict := Done;
      } else if channel.closed {
        verdict := Failed;
      } else {
        verdict := Passed;
      }
      notices := notices[notifier := Judged(notices[notifier], verdict)];
      HubKept(before, Check(notifier), View());
    }

    /** Send to a target that has passed its check; by now its queue may be full or closed. */
    method SendTarget(target: Target, number: nat, ghost notifier: nat) returns (verdict: Verdict)
      requires Valid() && OnTarget(View(), notifier, target, number) && notices[notifier].checked
      modifies `channels, `notices
      ensures Valid() && Takes(old(View()), Send(notifier), View())
      ensures !verdict.Passed?
      ensures notifier in notices && notices[notifier] == Judged(old(notices)[notifier], verdict)
      ensures OnlyAt(old(channels), target.id, channels)
      ensures Sent(old(channels)[target.id], verdict, channels[target.id])
    {
      ghost var before := View();
      var channel := channels[target.id];
      if channel.closed || channel.queue >= CHANNEL_CAPACITY {
        verdict := Failed;
      } else {
        channels := channels[target.id := Announce(channel.(queue := channel.queue + 1), number)];
        verdict := Done;
      }
      notices := notices[notifier := Judged(notices[notifier], verdict)];
      HubKept(before, Send(notifier), View());
    }

    /** Last section of a notification: remove exactly the failed senders. */
    method Evict(failed: seq<Target>, ghost notifier: nat)
      requires Valid() && notifier in notices && notices[notifier].Sending? && notices[notifier].targets == []
      requires notices[notifier].failed == SetOf(failed)
      modifies `connections, `notices
      ensures Valid() && Takes(old(View()), Step.Evict(notifier), View())
      ensures forall user, id :: id in Ids(connections, user) <==>
                id in Ids(old(connections), user) && Target(user, id) !in failed
    {
      ghost var before := View();
      RemoveAll(failed);
      notices := notices - {notifier};
      HubKept(before, Step.Evict(notifier), View());
      forall user, id ensures id in Ids(connections, user) <==>
                        id in Ids(before.connections, user) && Target(user, id) !in failed
      {
        assert user in before.connections ==>
            (id in Remaining(before.connections, SetOf(failed), user) <==>
               id in before.connections[user] && Target(user, id) !in failed);
      }
    }

    method RemoveAll(failed: seq<Target>)
      requires NoneEmpty(connections)
      modifies `connections
      ensures connections == WithoutAll(old(connections), SetOf(failed))
    {
      EvictNone(connections);
      ghost var gone: set<Target> := {};
      var i := 0;
      while i < |failed|
        invariant 0 <= i <= |failed| && gone == SetOf(failed[..i])
        invariant connections == WithoutAll(old(connections), gone)
      {
        EvictMore(old(connections), gone, failed[i]);
        Remove(failed[i].user, failed[i].id);
        gone := gone + {failed[i]};
        i := i + 1;
      }
      assert failed[..i] == failed;
    }

    /** One target: check, then send unless that settled it. */
    method Offer(target: Target, number: nat, ghost notifier: nat)
      returns (verdict: Verdict, ghost states: seq<Hub>, ghost steps: seq<Step>)
      requires Valid() && OnTarget(View(), notifier, target, number) && !notices[notifier].checked
      modifies `channels, `notices
      ensures Valid() && Path(old(View()), states, steps, View())
      ensures !verdict.Passed?
      ensures notifier in notices && notices[notifier] == Judged(old(notices)[notifier], verdict)
      ensures OnlyAt(old(channels), target.id, channels)
      ensures Offered(old(channels)[target.id], channels[target.id])
      ensures verdict.Failed? <==> Dead(old(channels)[target.id])
    {
      ghost var h := View();
      verdict := CheckTarget(target, number, notifier);
      ghost var mid := View();
      PathOne(h, Check(notifier), mid);
      states, steps := [h, mid], [Check(notifier)];
      if verdict.Passed? {
        verdict := SendTarget(target, number, notifier);
        PathOn(h, states, steps, mid, Send(notifier), View());
        states, steps := states + [View()], steps + [Send(notifier)];
      }
    }

    /** Every target in turn. */
    method OfferAll(targets: seq<Target>, number: nat, ghost notifier: nat)
      returns (failed: seq<Target>, ghost states: seq<Hub>, ghost steps: seq<Step>)
      requires Valid() && notifier in notices && notices[notifier] == Gathered(number, targets)
      modifies `channels, `notices
      ensures Valid() && Path(old(View()), states, steps, View()) && notifier in notices
      ensures notices[notifier] == Sending(number, [], false, SetOf(failed), SetOf(targets))
      ensures AllOffered(old(channels), targets, channels) && FailedAre(old(channels), targets, failed)
    {
      failed, states, steps := [], [View()], [];
      ghost var h := View();
      var i := 0;
      while i < |targets|
        invariant 0 <= i <= |targets| && Valid()
        invariant Underway(h, notifier, number, targets, i, failed, states, steps, View())
      {
        ghost var mid := View();
        TargetKnown(mid, notifier);
        var verdict; ghost var moreStates, moreSteps;
        verdict, moreStates, moreSteps := Offer(targets[i], number, notifier);
        UnderwayMore(h, notifier, number, targets, i, failed, states, steps, mid, verdict, moreStates, moreSteps,
                     View());
        states, steps := states + moreStates[1..], steps + moreSteps;
        if verdict.Failed? { failed := failed + [targets[i]]; }
        i := i + 1;
      }
      assert targets[..i] == targets;
    }

    /** A whole notification that no other task interrupts. Afterwards every sender the recipients
        had is gone or knows of the append; exactly those are gone whose channel was closed with
        nothing waiting, and exactly those got a notification that were open with nothing waiting. */
    method Notify(recipients: seq<UserId>, number: nat, ghost notifier: nat)
      returns (ghost states: seq<Hub>, ghost steps: seq<Step>)
      requires Valid() && notifier in notices && notices[notifier] == Gathering(number)
      modifies `connections, `channels, `notices
      ensures Valid() && Path(old(View()), states, steps, View()) && notifier !in notices
      ensures Told(old(View()), recipients, number, View())
      ensures Notified(old(View()), recipients, View())
    {
      ghost var h := View();
      var targets := Targets(recipients, notifier);
      ghost var h1 := View();
      var failed;
      failed, states, steps := OfferAll(targets, number, notifier);
      ghost var h2 := View();
      Evict(failed, notifier);
      states, steps := WholePath(h, Gather(notifier, recipients), h1, states, steps, h2, Step.Evict(notifier), View());
      AllTold(h, recipients, targets, number, h2, notifier, failed, View());
      AllNotified(h, recipients, targets, failed, View());
    }
  }

  ghost predicate Reached(h: Hub, recipients: seq<UserId>, id: nat) {
    exists user :: user in recipients && id in Ids(h.connections, user)
  }

  /** What an uninterrupted notification does to entries and channels. */
  ghost predicate Notified(h: Hub, recipients: seq<UserId>, h': Hub) {
    && (forall user, id :: id in Ids(h'.connections, user) <==>
          id in Ids(h.connections, user) && !(user in recipients && id in h.channels && Dead(h.channels[id])))
    && h'.channels.Keys == h.channels.Keys
    && (forall id :: id in h.channels ==>
          if Reached(h, recipients, id) then Offered(h.channels[id], h'.channels[id])
          else Untouched(h.channels[id], h'.channels[id]))
  }

  lemma AllNotified(h: Hub, recipients: seq<UserId>, targets: seq<Target>, failed: seq<Target>, h': Hub)
    requires AreTargets(h.connections, recipients, targets) && AllOffered(h.channels, targets, h'.channels)
    requires FailedAre(h.channels, targets, failed)
    requires forall user, id :: id in Ids(h'.connections, user) <==>
               id in Ids(h.connections, user) && Target(user, id) !in failed
    ensures Notified(h, recipients, h')
  {
    forall user, id
      ensures id in Ids(h'.connections, user) <==>
              id in Ids(h.connections, user) && !(user in recipients && id in h.channels && Dead(h.channels[id]))
    {
      if id in Ids(h.connections, user) { TargetIs(h, recipients, targets, user, id); }
    }
    forall id | id in h.channels
      ensures if Reached(h, recipients, id) then Offered(h.channels[id], h'.channels[id])
              else Untouched(h.channels[id], h'.channels[id])
    {
      ReachedIs(h, recipients, targets, id);
    }
  }

  lemma TargetIs(h: Hub, recipients: seq<UserId>, targets: seq<Target>, user: UserId, id: nat)
    requires AreTargets(h.connections, recipients, targets) && id in Ids(h.connections, user)
    ensures Target(user, id) in targets <==> user in recipients
  {
    if user in recipients { assert Covered(h.connections, user, targets); }
  }

  lemma ReachedIs(h: Hub, recipients: seq<UserId>, targets: seq<Target>, id: nat)
    requires AreTargets(h.connections, recipients, targets)
    ensures Reached(h, recipients, id) <==> Aims(targets, id)
  {
    if Reached(h, recipients, id) {
      var user :| user in recipients && id in Ids(h.connections, user);
      TargetIs(h, recipients, targets, user, id);
    }
    if Aims(targets, id) {
      var i :| 0 <= i < |targets| && targets[i].id == id;
      assert targets[i].user in recipients && id in Ids(h.connections, targets[i].user);
    }
  }

  /** Every sender the recipients had is gone or knows of the append. */
  ghost predicate Told(h: Hub, recipients: seq<UserId>, number: nat, h': Hub) {
    forall user, id :: user in recipients && id in Ids(h.connections, user) ==>
      id !in Ids(h'.connections, user) || (id in h'.channels && number <= h'.channels[id].announced)
  }

  lemma AllTold(h: Hub, recipients: seq<UserId>, targets: seq<Target>, number: nat, h2: Hub, notifier: nat,
                failed: seq<Target>, h': Hub)
    requires AreTargets(h.connections, recipients, targets) && HubOk(h2) && notifier in h2.notices
    requires h2.notices[notifier] == Sending(number, [], false, SetOf(failed), SetOf(targets))
    requires h'.channels == h2.channels
    requires forall user, id :: id in Ids(h'.connections, user) <==>
               id in Ids(h2.connections, user) && Target(user, id) !in failed
    ensures Told(h, recipients, number, h')
  {
    assert NoticeOk(h2, h2.notices[notifier]);
    forall user, id | user in recipients && id in Ids(h.connections, user) && id in Ids(h'.connections, user)
      ensures id in h'.channels && number <= h'.channels[id].announced
    {
      assert Covered(h.connections, user, targets);
      assert Target(user, id) in targets && Target(user, id) in SetOf(targets);
      assert Handled(h2, h2.notices[notifier], Target(user, id));
    }
  }
}
