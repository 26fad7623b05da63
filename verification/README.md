# Grotto delivery, modelled and proved

Grotto is end-to-end encrypted group messaging: crash-prone clients hold MLS groups
(RFC 9420) and one relay orders what they append to each room. This project models the
delivery protocol between them and proves what it is for.

Four parts of the program are modelled.

- **The relay** (`RelaySpec`, `RelayServer`): per-room logs with compare-and-append on the
  head, a journal of results per user and request identifier, Welcomes published in the
  same transaction as their commit, key packages with grants and hourly limits, usage
  ledgers. `RelayServer.RelayState` is the mutable relay, proved equal to the value-level
  specification; `RelayInvariants`, `RelayTheorems`, `Replay`, `LogFacts` and `JournalFacts` prove
  what every run keeps, and `Verdicts` what the relay answers to every request after every run,
  told from the journal of earlier results alone.
- **The client** (`ClientSpec`, `Engine`): intents, exact outbox attempts, an inbox, cursors,
  history, pending MLS commits and rebuilding after a conflict. `Engines.Engine` is the
  mutable engine with its capped group cache and its loops, in which every write and every
  commit may fail; `ClientInvariants`, `ClientTheorems`, `Refusals`, `LateAdds`, `Provenance` (who
  wrote what), `Lineage` (where groups come from), `Receipts`, `Ratchets` and `Guards` hold against
  any relay whatsoever.
- **Both together** (`World` and the files after it): any number of honest clients and the
  relay, over a network that loses, delays, reorders and repeats requests and answers, with
  a relay that may call itself overloaded whether or not it ran a request. A crash keeps the
  tables and drops memory, so it is the absence of further moves. `WorldInvariant` is the
  inductive invariant, with `Settlements` for what answers a client can get; `Agreement`, `Once`,
  `HistoryAgreement`, `HistoryLogs`, `Announcements`, `Progress`, `Recovery` and `Holds` state the
  results. `Scenes`, `Members`, `HeldRun` and `AddConflicts` tell whole runs of three clients and
  the relay step by step.
- **The edges**: the V9 wire format and framing (`Postcard`, `Wire`, `WireSizes`, `Frames`,
  `Transcripts`, `WireFixtures`), page sizes and walks (`Pages`, `WelcomePages`, `OutboxPages`), and
  the relay's admission structures (`Hub`, `RateLimit`, `RateExactness`, `RateFairness`,
  `ClockWindow`, `Handshakes`). The hub is one step per lock section, and every method of
  `Hubs.ConnectionHub` is proved to be such steps.

How the outside is represented: an MLS group is an epoch and a roster; a commit body carries
its base group and the added user, a Welcome the group after the commit, an application body
its base epoch, sender, binding and plaintext. A blob is its bytes together with what the MLS
library would read from them. Hashes and signatures are injective. A receipt identifier is a
value of its own, apart from random identifiers, and random identifiers are never drawn twice.
Clock, free disk, page count and WAL size, the failure of a write or a commit, key availability,
the bytes a cipher produces and the answers of an arbitrary relay are inputs. Messages have 1
byte to 64 KiB, as the command line requires, and their ciphertext is never empty.

Six things one would expect do not hold of the code as it is. Each has a run that shows it and
is settled exactly.

- A message that the relay rejects for good leaves its row in the sender's history
  (`Refusals.MessageLeftBehind`). `Refusals.LeftBehindExactly` says when, against any relay;
  `HistoryLogs.HistoryIsTheLog` and `HistoryLogs.RefusedExactly` say that between honest
  clients and this relay it cannot happen before a log has used up its numbers.
- A page of Welcomes can exceed 768 KiB, because records are counted before their cursors are
  filled in. The relay then cannot send it, and the recipient's walk stops there for good
  (`WelcomePages.WalkStops`). All pages fit, and all walks complete, if and only if at most 202
  Welcomes have been published (`WelcomePages.WelcomePagesExact`).
- The hourly limit on key packages breaks if the clock runs back inside a reservation
  (`ClockWindow.ClockRunningBack`), and only then (`ClockWindow.WindowConditionExact`).
- Dropping idle rate entries can give tokens away, since the clock is read before the lock is
  taken. It is invisible if and only if the burst is at most (60 - lag) * rate
  (`RateExactness.EvictionExact`); the condition for users served one request at a time is
  `RateExactness.SerialExact`. The default configuration meets both.
- An add whose contact somebody else has added first can never be built and is never dropped, so
  the room takes no other intent of that member (`AddConflicts.TwoAdders`,
  `LateAdds.TooLateForGood`). `AddConflicts.AddBuildable` says which adds can be built. From then
  on every drive of this client fails unless it leaves a received event of that room unapplied
  (`Engines.Engine.Drive`, `Engines.LateWaits`). The client drives once before it reads its first
  command and ends if that fails (crates/grotto-client/src/delivery.rs:107), so when it is started
  again it takes no command.
- A member can be held behind a log for good. An attempt that exceeds a quota stays in the outbox,
  its room is not recovered while it waits, and ledgers never shrink (`HeldRun.HeldForever`,
  `HeldRun.HeldByDefault`, `Holds.HeldForGood`). A member who has verified everybody the log adds
  can reach the head if and only if it waits for no attempt, or the attempt has a journaled
  result, or the relay would still admit it in some environment (`Recovery.CatchUpExactly`).

Check everything with `dafny verify dfyconfig.toml`.

## Model

| member | source | states |
|---|---|---|
| `Agreement.Convergence` | crates/grotto-client/src/delivery.rs:491-911 | In every reachable state of clients, relay and network, a member's group is the one the room's log leads to at its cursor, the member is in its roster, no cursor is ahead of the log, and members with equal cursors have equal epoch and roster |
| `Agreement.RostersGrow` | crates/grotto-client/src/mls_session.rs:206-349 | Of two members the one further in the log knows at least the other's roster and epoch, and a roster has exactly one member more than it has commits |
| `Agreement.AppliedExactly` | crates/grotto-client/src/delivery.rs:794-911 | From a room's start boundary to the cursor the inbox holds exactly the log's events, all applied: none lost, doubled, reordered, rejected or skipped |
| `Agreement.NextEventApplies` | crates/grotto-client/src/delivery.rs:794-891 | A received event that is next in its room always applies and moves the cursor by one; the only thing it can wait for is an unverified contact added by somebody else |
| `Agreement.WelcomeInbox` | crates/grotto-client/src/delivery.rs:598-648 | The Welcome inbox is, row for row, the relay's queue for the user up to the stored Welcome cursor, and holds nothing beyond it |
| `Agreement.WelcomeAuthentic` | crates/grotto-client/src/delivery.rs:716-793 | Every stored Welcome names a logged event by its identifier, sequence and sender, is signed by that sender for this user, and carries the group the log leads to just after that event |
| `Agreement.AttemptBookkeeping` | crates/grotto-client/src/delivery.rs:491-593 | Each outbox append or reservation belongs to exactly one intent, each intent's attempt is in the outbox and built at the cursor, and a group has a pending commit exactly when a commit for its room is in the outbox, so the pending-commit guards never fire |
| `Announcements.IndexFits` | crates/grotto-client/src/delivery.rs:650-668 | In every reachable state each head of an index page is one the honest client accepts in its turn, in order, validly named and not behind its cursor, with the length of the room's log; and each room the client is in is on the page or comes later |
| `Once.AtMostOnce` | crates/grotto-client/src/delivery.rs:400-443 | Over every run with losses, repeats, rebuilds and crashes, two logged events built from one intent are the same event, and every logged event is what its intent asked for (room, author, target or plaintext) |
| `Once.RunOnce` | crates/grotto-client/src/delivery.rs:400-443 | The bookkeeping behind at-most-once survives every run: of all attempts ever built for a standing intent, every one but its current attempt has a result in the relay's journal that took no effect in a log, a conflict for an append or the package for a reservation |
| `HistoryAgreement.SameMessages` | crates/grotto-client/src/delivery.rs:794-911 | Any two members who have applied a message show it with the same sequence, author and plaintext, namely those of the log |
| `HistoryAgreement.NothingElse` | crates/grotto-client/src/store.rs:350-359 | Every history row is a logged message the cursor has passed with the log's contents, an own message still in the outbox with its own contents, or an own message that the relay refused for good |
| `HistoryLogs.RefusedExactly` | crates/grotto-client/src/delivery.rs:430-443 | Between honest clients and the relay an own message is refused for good if and only if the relay has answered one built at parent 2^63 - 1 or beyond, the end of a log's numbering |
| `HistoryLogs.HistoryIsTheLog` | crates/grotto-client/src/delivery.rs:794-911 | In every reachable state, as long as the room's log has not used up its numbers, a member's history of the room is exactly the log's messages from the start boundary to the cursor (identifier, sequence, author and plaintext), plus at most one row, for the own message underway |
| `HistoryAgreement.HonestVerdict` | crates/grotto-relay/src/delivery.rs:206-223 | The relay's verdict on an honest new append is a rejection if and only if the body or the Welcome breaks the stated bounds; never for a missing subscription or an unknown room |
| `HistoryAgreement.MembersSubscribed` | crates/grotto-relay/src/delivery.rs:412-418 | Everybody in the group of any prefix of a log is subscribed to the room |
| `Refusals.MessageLeftBehind` | crates/grotto-client/src/delivery.rs:430-443 | A run of one client whose relay calls a two-letter message invalid: nothing is underway and nothing was ever received, yet the history shows the message |
| `Refusals.RowOutlives` | crates/grotto-client/src/delivery.rs:430-443 | An answer ends a message and leaves its history row if and only if it is a rejection that is not transient |
| `Refusals.LeftBehindExactly` | crates/grotto-client/src/delivery.rs:430-443 | Against any relay, on every run: an own row that is neither underway nor applied exists if and only if that message was answered by a non-transient rejection while it was in the outbox |
| `Histories.RunHistories` | crates/grotto-client/src/delivery.rs:405-422 | Every run keeps history rows tied to the log, the outbox or a refusal |
| `Progress.CatchUp` | crates/grotto-client/src/delivery.rs:650-714 | From every reachable state a member who waits for no own attempt and has verified everybody the log adds can reach the head of the room by asking, receiving and applying, with no change at the relay, and then holds the group of the whole log |
| `Progress.FollowAll` | crates/grotto-client/src/delivery.rs:650-714 | On the way of such a member the next event can always be fetched in a page, received and applied |
| `Recovery.CatchUpExactly` | crates/grotto-client/src/delivery.rs:650-714 | From every reachable state a member who has verified everybody the log adds can reach the head of the room if and only if it waits for no attempt, or the attempt's result is in the journal, or the relay would admit the attempt in some environment; attempts are appends and reservations alike |
| `Recovery.ReachHead` | crates/grotto-client/src/delivery.rs:307-341 | The run that does it: the attempt is sent, admitted and answered, the answer resolves it, and the log is followed to its head, which the attempt itself may have moved |
| `Recovery.GetsResult` | crates/grotto-relay/src/delivery.rs:39-103 | A waiting append or reservation that the relay can afford is answered for good in some environment: neither quota nor the hourly limits stand in the way at a suitable time |
| `Recovery.Resolve` | crates/grotto-client/src/delivery.rs:342-452 | An attempt whose result is in the journal is sent again, gets that result and is resolved by it, with no change at the relay |
| `Recovery.SettleAttempt` | crates/grotto-relay/src/delivery.rs:39-103 | An attempt without a result that the relay can afford is sent and served, and then its result is in the journal |
| `Recovery.ResolvableExactly` | crates/grotto-client/src/delivery.rs:426-429 | A room is held if and only if none of the three ways out is open |
| `Holds.AffordableExactly` | crates/grotto-relay/src/limits.rs:43-111 | A request would be admitted in some environment if and only if it fits one message, the global limit alone, and the ledgers of its sender and its room |
| `Holds.HeldForGood` | crates/grotto-client/src/delivery.rs:426-429 | A room whose attempt has no result and fits no ledger stays so on every run: the same attempt waits, the cursor does not move, however far the log goes on |
| `HeldRun.HeldForever` | crates/grotto-client/src/delivery.rs:670-672 | For all limits of at least 1 MiB with a bounded sender ledger there is a run of honest clients and the relay after which a member has applied one event of a log of two or more, and on every further run never applies another |
| `HeldRun.HeldByDefault` | crates/grotto-client/src/delivery.rs:670-672 | The default limits have such a run |
| `Settlements.ReachedOrderly` | crates/grotto-relay/src/delivery.rs:109-404 | In every reachable state issued requests fit one message, key packages in the pool are their publisher's, intents aim at verified contacts, and every journaled answer to an append or a reservation is one the client can act on |
| `Settlements.MoveOrderly` | crates/grotto-relay/src/delivery.rs:109-404 | Every single move keeps that |
| `AddConflicts.AddBuildable` | crates/grotto-client/src/delivery.rs:529-589 | In every reachable state an add that holds its package and has no attempt is for a verified contact, and it can be built if and only if that contact is not yet in the group's roster |
| `LateAdds.TooLateFails` | crates/grotto-client/src/delivery.rs:529-589 | An add whose contact is a member already is never built, whatever identifier and bytes are drawn |
| `LateAdds.TooLateForGood` | crates/grotto-client/src/delivery.rs:491-593 | Against any relay and on every run such an add is never built, never dropped, and keeps its room's place for another intent |
| `AddConflicts.TwoAdders` | crates/grotto-client/src/delivery.rs:405-422 | A run of three honest clients and the relay from the start: two members reserve packages for the same contact and commit, the relay takes one commit and answers the other with a conflict, and the loser, having applied everything, ends in that state |
| `WorldInvariant.MoveGood` | crates/grotto-client/src/delivery.rs:162-911 | Every move of the composed system (client transaction, send, read, serve, refuse) keeps the whole invariant that ties clients, outboxes, answers and relay together |
| `WorldInvariant.RunGood` | crates/grotto-client/src/delivery.rs:162-911 | The invariant holds after every run |
| `ClientTheorems.ArbitraryRelay` | crates/grotto-client/src/delivery.rs:453-490 | Against any relay whatsoever, on every run cursors move by at most one step, no inbox record and no contact is replaced, inbox rows form an unbroken chain from the start boundary with exactly the rows below the cursor settled, and an append attempt that is not in the inbox has the cursor as its parent |
| `ClientTheorems.StepKept` | crates/grotto-client/src/delivery.rs:342-911 | Every single transaction of the client keeps that discipline, whatever it is given |
| `ClientTheorems.RunKept` | crates/grotto-client/src/delivery.rs:342-911 | Every run of transactions keeps it |
| `Provenance.Authorship` | crates/grotto-client/src/mls_session.rs:263-349 | Whatever the relay hands over, on every run of a client an event is applied only if its body names the sender of its envelope, is of its epoch and kind, and is bound to its room, identifier and parent; a passed event that is not is refused |
| `Provenance.Attribution` | crates/grotto-client/src/delivery.rs:829-891 | On every run a history row under another user's name is the plaintext of an applied message whose body that user wrote for exactly this room, identifier and place |
| `Provenance.ForgeryIsInert` | crates/grotto-client/src/mls_session.rs:336-338 | Applying somebody else's event whose body says otherwise than its envelope changes no group, no history row and no contact; the event is refused or blocked |
| `Provenance.FaithfulAttempts` | crates/grotto-client/src/delivery.rs:491-593 | Whatever the relay answers, on every run each append in the outbox is the message its intent holds, from this user and bound to its place, or the add of the verified contact its intent names, with a key package of that contact and a Welcome to the group after the commit signed for that contact; a reservation is for that contact |
| `Provenance.StepProven` | crates/grotto-client/src/delivery.rs:342-911 | Every single transaction keeps what these four rest on |
| `Lineage.GroupsFollowCommits` | crates/grotto-client/src/mls_session.rs:206-349 | Whatever the relay hands over, a room has had one group for every place from its start to its cursor; a settled event changed it exactly if it is an applied commit, which was made on the group before it and added one new member; an applied message is of its place's epoch; and only the user and members at that place had anything applied |
| `Lineage.RoomsAreEntered` | crates/grotto-client/src/delivery.rs:716-793 | On every run each room in use was created by the user, alone in it, or entered by a Welcome that a verified contact in its group signed for this user, room and place; and every applied Welcome let the user in there |
| `Lineage.StepDescends` | crates/grotto-client/src/delivery.rs:342-911 | Every single transaction keeps groups, attempts and pending commits so: an attempt is made on the current group, and a pending commit is its outcome |
| `Receipts.EventVerdict` | crates/grotto-client/src/mls_session.rs:263-349 | On every run, somebody else's event that is due is applied if and only if it is genuine, a member's and of the current epoch, or a commit on the current group that adds a verified newcomer; it waits if and only if it is of a later epoch or a member's commit that adds an unverified newcomer; otherwise it is refused; the cursor moves unless it waits |
| `Receipts.AnswerTaken` | crates/grotto-client/src/delivery.rs:342-452 | An answer has an effect only if it matches its request (kind, count, recipient and package, event, room and another head); it takes exactly that request out of the outbox, unless it is transient, when nothing changes, or an acceptance, whose event has still to be applied |
| `Receipts.ReceiptsOwed` | crates/grotto-client/src/delivery.rs:892-911 | On every run every settled event and every joined Welcome has its receipt in the outbox until the receipt is answered for good; a receipt's identifier holds nothing else; and no stored number is beyond 63 bits |
| `Receipts.WelcomesInOrder` | crates/grotto-client/src/delivery.rs:598-645 | Against any relay, on every run the Welcome inbox holds only Welcomes for this user, each under its cursor and none beyond the stored cursor; records are never replaced or removed, the stored cursor never goes back, and what is stored later comes after it |
| `Guards.NothingBehindAttempts` | crates/grotto-client/src/delivery.rs:491-593 | On every run, while an attempt of a room waits for its answer every event received of the room has been processed: none was built on a state known to be old, none was received behind it |
| `Guards.ContactsAreImported` | crates/grotto-client/src/delivery.rs:202-205 | On every run, against any relay, a client trusts its user and exactly those whom its user has imported |
| `Guards.WelcomeVerdict` | crates/grotto-client/src/delivery.rs:716-793 | On every run a Welcome that is tried is joined if and only if its key is at hand, a verified member of its group signed it for this user, room, event and place, everybody in the group is verified, and the room is new and well named; otherwise it is blocked and stays for another try |
| `Ratchets.FreshRatchets` | crates/grotto-client/src/mls_session.rs:206-223 | Of two messages built in a room on any run, also of rebuilt attempts and after refusals, the later one is encrypted further on in the ratchet |
| `RelayTheorems.OrderedLogs` | crates/grotto-relay/src/delivery.rs:206-292 | On every run each room's log is numbered 1..head with parent = sequence - 1, event identifiers are globally unique, the log is the journal's accepted appends one to one and in order, the Welcome queue is exactly what the events published with cursors counting from one, and a room's subscribers are its creator and those recipients |
| `Verdicts.AppendVerdict` | crates/grotto-relay/src/delivery.rs:206-292 | After every run, a new admitted append is refused to those who neither created the room nor were welcomed to it, invalid exactly outside the stated bounds, told the length of the log when its parent is another number, refused when its identifier is in a log, and otherwise accepted; never a storage error |
| `Verdicts.FetchVerdict` | crates/grotto-relay/src/delivery.rs:293-326 | After every run a fetch shows the next page of the log if and only if the user created the room or an accepted append of the room carries a Welcome for the user; everybody else is told Unauthorized |
| `Verdicts.GrantVerdict` | crates/grotto-relay/src/delivery.rs:165-178 | After every run a grant stands if and only if the owner's last journaled word about the requester allows it, and giving or withdrawing it always works and touches no other grant |
| `Verdicts.ReserveVerdict` | crates/grotto-relay/src/delivery.rs:179-205 | After every run a new admitted reservation is Unauthorized without a standing grant, Overloaded with 16 reservations of the recipient or 4 by the requester in the last hour, NotFound when everything published was handed out, and otherwise gets the oldest package that was not |
| `Verdicts.CreateVerdict` | crates/grotto-relay/src/delivery.rs:117-136 | After every run a new admitted room is refused for its name, for the user's 64 rooms or for a taken identifier, and otherwise created; nobody ever has more than 64 |
| `Verdicts.PublishVerdict` | crates/grotto-relay/src/delivery.rs:137-164 | After every run new admitted packages are published exactly if they are 1 to 64 of 1 byte to 16 KiB within 768 KiB and leave at most 64 waiting |
| `Verdicts.IndexVerdict` | crates/grotto-relay/src/delivery.rs:327-354 | After every run an index page shows the user's rooms after the given one in order, each with the normalized name it was created with and the length of its log; a room left out comes after the page, and `more` says exactly whether one does |
| `Verdicts.IndexWalkVerdict` | crates/grotto-relay/src/delivery.rs:327-354 | The pages together list every room of the user once, in order, with its name and the length of its log |
| `Verdicts.WelcomesVerdict` | crates/grotto-relay/src/delivery.rs:355-383 | After every run a queue page shows the user's own Welcomes after the cursor in order, each as its commit published it, with its inviter, place and the room's name; `more` is exact |
| `Verdicts.ReceiptVerdict` | crates/grotto-relay/src/delivery.rs:384-403 | After every run a receipt is taken exactly for one record, under its canonical identifier, from a user the record was meant for |
| `Verdicts.AdmissionExactly` | crates/grotto-relay/src/limits.rs:43-111 | After every run a request is admitted if and only if its size fits and, with three times its size and 16 KiB, the database, its write-ahead log, the journaled charges of sender and room, and the disk's reserve stay within their limits |
| `Verdicts.QuotaVerdict` | crates/grotto-relay/src/delivery.rs:52-58 | What is not admitted is answered Quota and leaves no trace |
| `Verdicts.ChargeTold` | crates/grotto-relay/src/delivery.rs:65-92 | A journaled request that is no receipt costs its sender three times its size and 16 KiB, and nobody else anything |
| `JournalFacts.RunTold` | crates/grotto-relay/src/delivery.rs:109-404 | After every run the tables say what the journal says: rooms with names and creators, at most 64 of each user, grants, allocations in order, and packages within bounds |
| `JournalFacts.MembersTold` | crates/grotto-relay/src/delivery.rs:405-418 | The subscribers of a room are its creator and those an accepted append of the room welcomed |
| `JournalFacts.LogTold` | crates/grotto-relay/src/delivery.rs:206-292 | The log of a room is its accepted appends in the order of the journal |
| `RelayTheorems.PackagesConserved` | crates/grotto-relay/src/delivery.rs:137-205 | On every run what a user published is, in order, what reservations handed out followed by what is in the pool, and the pool holds at most 64 |
| `RelayTheorems.LedgersConserved` | crates/grotto-relay/src/delivery.rs:39-103 | On every run sender and room usage are the sums of the charges of journaled non-receipt requests and stay within their limits |
| `RelayTheorems.ReceiptsBounded` | crates/grotto-protocol/src/delivery.rs:481-497 | On every run two journaled receipts of a user that share an event or a Welcome are the same journal row |
| `RelayTheorems.SlidingWindow` | crates/grotto-relay/src/delivery.rs:188-200 | Whatever the clock does between transactions, from every sound state and over every run no window of 3600 seconds holds more than 16 allocations of a recipient or 4 of a requester-recipient pair |
| `ClockWindow.ClockRunningBack` | crates/grotto-relay/src/delivery.rs:188-200 | For any two users and any clock that runs back inside one reservation, a run from the empty relay of five publications, a grant and five reservations, all other calls steady, after which five packages of the pair are allocated within one hour |
| `ClockWindow.WindowConditionExact` | crates/grotto-relay/src/delivery.rs:188-200 | Over runs from the empty relay whose other calls are steady, the hourly limit holds after every run with a given reservation if and only if the clock does not run back between its check and its insert |
| `RelayInvariants.RelayKept` | crates/grotto-relay/src/delivery.rs:14-106 | One call keeps the relay's whole invariant: dense logs, unique journal keys, published Welcomes, subscriptions, package order, ledgers and canonical receipts |
| `RelayInvariants.RelayInvariant` | crates/grotto-relay/src/delivery.rs:14-106 | The invariant holds after every run from the empty tables |
| `RelayInvariants.DeliverEffect` | crates/grotto-relay/src/delivery.rs:14-106 | Every call answers from the journal, refuses without effect, or has exactly one of the listed effects together with one new journal row and its charge |
| `Replay.ReplayInsensitive` | crates/grotto-relay/src/delivery.rs:14-106 | Exact repeats of journaled requests inserted anywhere into a run change neither the final tables nor the answer to any other call |
| `Replay.RetryIsExact` | crates/grotto-relay/src/delivery.rs:23-38 | After any further calls a retry of a journaled request gets the first answer and changes nothing, and a different request under that identifier gets a conflict and changes nothing |
| `Replay.SavedAnswer` | crates/grotto-relay/src/delivery.rs:23-38 | A call under a journaled identifier never changes the tables |
| `LogFacts.LogJournaled` | crates/grotto-relay/src/delivery.rs:69-105 | Every logged event is the journaled result of exactly its sender's request |
| `LogFacts.JournaledInLog` | crates/grotto-relay/src/delivery.rs:69-105 | Every journaled acceptance stands in the log |
| `LogFacts.WelcomePublished` | crates/grotto-relay/src/delivery.rs:248-292 | Every row of the Welcome queue was published by a logged event |
| `LogFacts.WelcomesAfterExact` | crates/grotto-relay/src/delivery.rs:355-383 | The queue query returns exactly the user's rows after the cursor, in order |
| `RelayServer.RelayState.constructor` | crates/grotto-relay/src/lib.rs:164-182 | A new relay has empty tables |
| `RelayServer.RelayState.Rollback` | crates/grotto-relay/src/delivery.rs:14-22 | Undoing a transaction restores every table |
| `RelayServer.RelayState.Deliver` | crates/grotto-relay/src/delivery.rs:14-106 | The tables and the answer are those of the specification, and a failing transaction leaves every table as it was |
| `RelayServer.RelayState.ChargeUsage` | crates/grotto-relay/src/delivery.rs:77-103 | Exactly the sender's ledger, and for an append the room's ledger, grow by the charge |
| `RelayServer.RelayState.Execute` | crates/grotto-relay/src/delivery.rs:109-404 | Each kind of request does what its specification says or fails as it fails; the members of `Verdicts` say what that is after every run, from the journal alone |
| `RelayServer.RelayState.CreateOne` | crates/grotto-relay/src/delivery.rs:117-136 | A room is created with its creator subscribed; a bad name and a 65th room are refused, and a repeated room identifier fails the transaction |
| `RelayServer.RelayState.Publish` | crates/grotto-relay/src/delivery.rs:137-164 | Packages are added in order unless one breaks the bounds or the pool would exceed 64 |
| `RelayServer.RelayState.Reserve` | crates/grotto-relay/src/delivery.rs:179-205 | The oldest package is handed out under the grant and both hourly limits, else the matching refusal |
| `RelayServer.RelayState.AppendOperation` | crates/grotto-relay/src/delivery.rs:206-292 | Compare-and-append on the head with the Welcome published in the same transaction, every refusal, and the failures the caller has to roll back |
| `RelayServer.RelayState.FetchEvents` | crates/grotto-relay/src/delivery.rs:293-326 | The page loop takes exactly the specified run of events; `Verdicts.FetchVerdict` says who gets it and what it holds |
| `RelayServer.RelayState.HeadsOf` | crates/grotto-relay/src/delivery.rs:327-354 | The head of every listed room, which by `Verdicts.IndexVerdict` is the length of its journaled log |
| `RelayServer.RelayState.IndexPage` | crates/grotto-relay/src/delivery.rs:327-354 | A hundred rooms and an exact `more` |
| `RelayServer.RelayState.Index` | crates/grotto-relay/src/delivery.rs:327-354 | The index page of a user after a room |
| `RelayServer.RelayState.FetchQueue` | crates/grotto-relay/src/delivery.rs:355-383 | The page loop over the Welcome queue takes exactly the specified rows |
| `RelayServer.RelayState.Confirm` | crates/grotto-relay/src/delivery.rs:384-403 | A receipt is accepted exactly when every record it names is visible to the user and there are at most 100 of them |
| `Engines.Engine.constructor` | crates/grotto-client/src/delivery.rs:79-137 | A client starts or restarts with its durable tables and an empty group cache |
| `Engines.Engine.GroupMut` | crates/grotto-client/src/mls_session.rs:80-101 | A group is found exactly when it is stored and all its members are verified; the cache never exceeds eight groups and always equals the tables |
| `Engines.Engine.Persist` | crates/grotto-client/src/mls_session.rs:429-431 | The cached group is written through and nothing else, or the write fails and the tables are as before, with the cache left ahead of them |
| `Engines.Engine.CreateGroup` | crates/grotto-client/src/mls_session.rs:108-121 | Creation is as if every group were reloaded, a replay keeps the existing group, and only a failing write makes it fail |
| `Engines.Engine.EncryptBound` | crates/grotto-client/src/mls_session.rs:206-223 | Encryption through the cache gives the tables, epoch and body of encryption that reloads the group; without success the tables are unchanged, and the reason is a failing write or that the group cannot encrypt (absent, unverified members, a pending commit) |
| `Engines.Engine.BuildPendingAdd` | crates/grotto-client/src/mls_session.rs:225-249 | The pending commit, its epoch and its Welcome are those of the form that reloads the group; without success the tables are unchanged, and the reason is a failing write or that this add cannot be built |
| `Engines.Engine.DiscardPending` | crates/grotto-client/src/mls_session.rs:251-254 | Exactly the pending commit is forgotten, in cache and tables, or the tables are unchanged |
| `Engines.Engine.ApplyAcceptedCommit` | crates/grotto-client/src/mls_session.rs:256-261 | The pending commit becomes the group, in cache and tables, or the tables are unchanged |
| `Engines.Engine.ProcessBound` | crates/grotto-client/src/mls_session.rs:263-349 | The verdict is the specified one although the cached group moves before the binding is checked; after a fault or a failing write the tables are untouched; `Receipts.EventVerdict` says which events it lets through |
| `Engines.Engine.Join` | crates/grotto-client/src/mls_session.rs:392-414 | A group is joined only with the key at hand, for the named room and with verified members only; it fails only for one of these or a failing write, without touching the tables |
| `Engines.Engine.Abort` | crates/grotto-client/src/mls_session.rs:55-71 | After a failure anywhere inside a transaction the tables are the saved ones and no cached group survives |
| `Engines.Engine.Receive` | crates/grotto-client/src/delivery.rs:453-490 | A record is stored unless another one has its identifier or its place |
| `Engines.Engine.CompleteConflict` | crates/grotto-client/src/delivery.rs:405-422 | A conflict withdraws the attempt, its history row and its pending commit, and frees the intent |
| `Engines.Engine.CompleteRefusal` | crates/grotto-client/src/delivery.rs:430-443 | A terminal refusal drops the attempt and its intent, and leaves the history row |
| `Engines.Engine.CompleteReservation` | crates/grotto-client/src/delivery.rs:374-399 | The package is kept with the one intent that reserved it |
| `Engines.Engine.CompleteCreation` | crates/grotto-client/src/delivery.rs:350-362 | The new room gets a group and a cursor, once |
| `Engines.Engine.CompleteInside` | crates/grotto-client/src/delivery.rs:342-452 | The body of the transaction follows the specified branch for every request and answer |
| `Engines.Engine.Complete` | crates/grotto-client/src/delivery.rs:342-452 | An answer takes effect completely or not at all, whichever write or commit fails, and the cache equals the tables again; without a fault it fails only where the specification does |
| `Engines.Engine.FinishEvent` | crates/grotto-client/src/delivery.rs:892-911 | Cursor, row state and receipt change together |
| `Engines.Engine.SaveOutbox` | crates/grotto-client/src/store.rs:248-274 | An identifier keeps its first request for good |
| `Engines.Engine.Journal` | crates/grotto-client/src/delivery.rs:178-191 | A request enters the outbox exactly when it fits and its identifier is free or holds the same request |
| `Engines.Engine.ApplyOwn` | crates/grotto-client/src/delivery.rs:801-828 | An own event settles its intent, attempt and pending commit |
| `Engines.Engine.ApplyOpened` | crates/grotto-client/src/delivery.rs:829-839 | An opened event is remembered, the cursor moves and the receipt is queued together |
| `Engines.Engine.Claim` | crates/grotto-client/src/delivery.rs:824-827 | The own history row becomes the logged one |
| `Engines.Engine.ApplyOther` | crates/grotto-client/src/delivery.rs:829-891 | Somebody else's event is applied, blocked and kept, or rejected and skipped, and a fault undoes the whole transaction first |
| `Engines.Engine.ApplyEvent` | crates/grotto-client/src/delivery.rs:794-891 | Applying is all or nothing whichever write or commit fails, leaves the cache equal to the tables, and tells whether the cursor moved |
| `Engines.Engine.BuildSend` | crates/grotto-client/src/delivery.rs:556-573 | A message attempt is built exactly when the specification builds one that fits |
| `Engines.Engine.BuildAdd` | crates/grotto-client/src/delivery.rs:532-555 | A commit attempt with its signed Welcome is built exactly when the specification builds one that fits |
| `Engines.Engine.BuildRequest` | crates/grotto-client/src/delivery.rs:528-580 | Reservation first, then commit or message |
| `Engines.Engine.BuildAttempt` | crates/grotto-client/src/delivery.rs:491-593 | One intent's next attempt in one transaction: built unless a write fails or the specification builds none that fits, and otherwise without a trace in tables or cache |
| `Engines.Engine.BuildRoom` | crates/grotto-client/src/delivery.rs:511-590 | A room's intent ends up with an attempt or has a reason to wait, and no other intent is touched |
| `Engines.Engine.BuildNow` | crates/grotto-client/src/delivery.rs:526-590 | An intent that is due is built under a fresh identifier, or nothing changes and the pass fails |
| `Engines.Engine.BuildAttempts` | crates/grotto-client/src/delivery.rs:491-593 | After a successful pass every intent has an attempt or has to wait, something was built exactly when it says so, and the tables are those of a run of single steps |
| `Engines.Engine.StorePage` | crates/grotto-client/src/delivery.rs:623-644 | A page is stored with its cursor exactly when it is ascending, addressed to the user and new, or not at all |
| `Engines.Engine.StoreRows` | crates/grotto-client/src/delivery.rs:627-643 | The row loop stores exactly an ascending page addressed to the user with new cursors |
| `Engines.Engine.JoinRoom` | crates/grotto-client/src/delivery.rs:756-778 | Joining, cursor, receipt and state change together or not at all, whichever write or commit fails |
| `Engines.Engine.JoinInside` | crates/grotto-client/src/delivery.rs:756-778 | The body of that transaction follows the specification or fails where it fails |
| `Engines.Engine.SettleWelcome` | crates/grotto-client/src/delivery.rs:764-777 | The start boundary, the applied mark and the receipt of a Welcome |
| `Engines.Engine.ProcessWelcome` | crates/grotto-client/src/delivery.rs:725-791 | A Welcome is joined or marked as blocked, exactly as specified for a key that is at hand or not; a failing write changes nothing |
| `Engines.Engine.ProcessWelcomes` | crates/grotto-client/src/delivery.rs:716-793 | The open Welcomes are tried in the order of the queue, each at most once and all of them unless one fails |
| `Engines.Engine.Read` | crates/grotto-client/src/delivery.rs:53-66 | A read is repeated while the relay is overloaded or fails internally, so it never returns such an answer |
| `Engines.Engine.FetchPage` | crates/grotto-client/src/delivery.rs:598-645 | A page is stored only if it answers the stored cursor, and then the cursor is that of its last record; a page that promises more is not empty |
| `Engines.Engine.FetchQueue` | crates/grotto-client/src/delivery.rs:598-648 | The stored pages follow one another from the old cursor to the new one, each asked with the cursor the one before left, and success means that the last page said nothing remains |
| `Engines.Engine.ReceivePage` | crates/grotto-client/src/delivery.rs:689-697 | After success every event of the page is in the inbox and continues the cursor without a gap |
| `Engines.Engine.ApplyPage` | crates/grotto-client/src/delivery.rs:698-708 | The cursor has moved by the whole page, or the next event is received and blocked |
| `Engines.Engine.CatchUp` | crates/grotto-client/src/delivery.rs:673-709 | After success the cursor has reached the announced head, or the next event is received and blocked |
| `Engines.Engine.SyncRoom` | crates/grotto-client/src/delivery.rs:670-709 | A room with an unresolved attempt or without a group is left alone, any other is caught up |
| `Engines.Engine.SyncHead` | crates/grotto-client/src/delivery.rs:661-709 | A head is accepted only in order, with a valid name and not behind the cursor, and then the room is caught up with it or has a reason to wait |
| `Engines.Engine.SyncPage` | crates/grotto-client/src/delivery.rs:660-709 | After success the page's heads ascend from the given room and each was visited in turn: at the end of its visit the room is caught up with its head or has a reason to wait |
| `Engines.Engine.SyncRooms` | crates/grotto-client/src/delivery.rs:650-714 | After success the heads of all pages together ascend, and each room was visited in turn and at the end of its visit is caught up with its head or has a reason to wait |
| `Engines.Engine.Synchronize` | crates/grotto-client/src/delivery.rs:594-715 | The tables are those of a run of single steps in which all stored queue pages come first, then all tried Welcomes, then all received and applied events |
| `Engines.Engine.Intend` | crates/grotto-client/src/delivery.rs:278-299 | An intent is stored unless a write fails or the specification refuses it (no group, an intent already, an unverified target) |
| `Engines.Engine.Issue` | crates/grotto-client/src/delivery.rs:192-267 | A command's request (own key packages, a grant to a verified contact, a room) enters the outbox unless a write fails or the specification refuses it |
| `Engines.Engine.Import` | crates/grotto-client/src/delivery.rs:202-205 | A verified contact stays verified |
| `Engines.Engine.SendRow` | crates/grotto-client/src/delivery.rs:316-332 | One row is answered exactly once when the relay answers, and only that row can leave the outbox |
| `Engines.Engine.SendPage` | crates/grotto-client/src/delivery.rs:316-332 | Each row of the page is answered once and in order, and no other row changes |
| `Engines.Engine.SendNext` | crates/grotto-client/src/delivery.rs:313-334 | The next page of a walk over an outbox that answers empty keeps the walk in row order without gaps, and an empty page means that every row of the first outbox was sent |
| `Engines.Engine.SendOutbox` | crates/grotto-client/src/delivery.rs:311-334 | Every row that waited is answered exactly once and in row order, although answers empty the outbox on the way |
| `Engines.Engine.Drive` | crates/grotto-client/src/delivery.rs:307-341 | Whatever the relay answers and whichever write fails, the tables end where at most four rounds of single steps lead, each in the order answers, queue, Welcomes, rooms, builds, and each completed round answers everything that waited exactly once and in row order; discipline, row identifiers and cache are kept; from an add that came too late it succeeds only if a received event waits in that room |
| `Engines.Engine.DriveRound` | crates/grotto-client/src/delivery.rs:311-339 | One round in that order; after success everything that waited was answered exactly once and in row order, every intent has an attempt or has to wait, and something was built exactly when it says so |
| `Engines.Engine.DriveRounds` | crates/grotto-client/src/delivery.rs:307-341 | At most four rounds, another one only after a round that built something; every round but a failing last one answers all that waited; success means four rounds or a last one that built nothing, with every intent attempted or waiting |
| `Engines.LateWaits` | crates/grotto-client/src/delivery.rs:491-593 | A drive that starts with an add that came too late and succeeds leaves a received, unapplied event in that room |
| `OutboxPages.CollectRows` | crates/grotto-client/src/store.rs:301-330 | The row loop takes at least one row and as many as fit 768 KiB together |
| `OutboxPages.NextPage` | crates/grotto-client/src/store.rs:301-330 | The next rows in order, exactly the specified page |
| `OutboxPages.OutboxWalkComplete` | crates/grotto-client/src/store.rs:301-330 | On an unchanged outbox the walk visits every row after the start, once and in increasing order |
| `OutboxPages.RunUnique` | crates/grotto-client/src/store.rs:248-274 | On every run row identifiers of waiting requests are positive and unique |
| `OutboxPages.OutboxSentOnce` | crates/grotto-client/src/store.rs:301-330 | On every run one walk sends every waiting request exactly once, in increasing row order |
| `OutboxPages.StepUnique` | crates/grotto-client/src/store.rs:248-274 | Every single step keeps row identifiers unique and gives a new request a larger one than every request that waits with it |
| `OutboxPages.LaterIsAfter` | crates/grotto-client/src/store.rs:248-274 | On every run a request that came to wait after another one that still waits has the larger row identifier, so row order is the order of issue |
| `OutboxPages.WalkStep` | crates/grotto-client/src/delivery.rs:311-334 | A page of a walk over an outbox that answers empty skips nothing and repeats nothing |
| `OutboxPages.NextRowidIs` | crates/grotto-client/src/store.rs:248-274 | A new outbox row gets one more than the largest row identifier in use, the first row gets 1 |
| `Pages.EventBound` | crates/grotto-relay/src/delivery.rs:210-223 | Whatever an accepted append carries, its event record fits a page within the 96-byte margin |
| `Pages.RecordsInvariant` | crates/grotto-relay/src/delivery.rs:210-223 | Every run keeps all logged records within that bound and all names within 400 bytes |
| `Pages.PageProgress` | crates/grotto-relay/src/delivery.rs:293-326 | After every run a fetch from any sequence returns the next contiguous events, at most 100, at least one below the head, with `more` exactly when events remain and within 768 KiB |
| `Pages.FetchGood` | crates/grotto-relay/src/delivery.rs:293-326 | The same for any log whose next record fits |
| `Pages.EventWalkComplete` | crates/grotto-relay/src/delivery.rs:293-326 | Fetching page after page reads the rest of the log, every event once and in order |
| `Pages.IndexPage` | crates/grotto-relay/src/delivery.rs:327-354 | A page of the index is the first hundred rooms after the given one, and `more` is exact |
| `Pages.IndexWalkComplete` | crates/grotto-relay/src/delivery.rs:327-354 | Walking the index lists every subscribed room once and in increasing order |
| `Pages.WelcomePageSize` | crates/grotto-relay/src/delivery.rs:355-383 | The exact encoded size of a Welcome page: what was counted, plus the cursors that are filled in afterwards, plus the page's own fields |
| `Pages.WelcomePageFits` | crates/grotto-relay/src/delivery.rs:355-383 | With at most 202 Welcomes published every page, from every cursor, is one message of at most 768 KiB |
| `Pages.QueueWalkSound` | crates/grotto-relay/src/delivery.rs:355-383 | A walk that gets every page has read the user's whole queue, once and in order, however many Welcomes there are |
| `Pages.QueueWalkComplete` | crates/grotto-relay/src/delivery.rs:355-383 | With at most 202 Welcomes published, walking the deliverable pages reads the user's whole queue once and in order |
| `Pages.WalksComplete` | crates/grotto-relay/src/delivery.rs:293-383 | After every run the walks over the log and the room index are complete, and so is the walk over the Welcome queue while at most 202 Welcomes are published |
| `WelcomePages.WalkStops` | crates/grotto-relay/src/delivery.rs:355-383 | A run of the empty relay under its default limits that publishes 203 Welcomes: two pages lead to cursor 127, and the page after it exceeds 768 KiB, so the recipient's walk stops there for good |
| `WelcomePages.WelcomePagesExact` | crates/grotto-relay/src/delivery.rs:355-383 | Every Welcome page of every state reached with at most n Welcomes fits 768 KiB if and only if n <= 202, and every walk over such a queue completes if and only if n <= 202 |
| `WireSizes.RequestLength` | crates/grotto-protocol/src/delivery.rs:244-272 | The size the relay charges by is the length of the request's encoding, for every variant |
| `WireSizes.ResponseLength` | crates/grotto-protocol/src/delivery.rs:329-361 | The size pages are cut by is the length of the response's encoding, for every variant |
| `WireSizes.EventPageFits` | crates/grotto-protocol/src/lib.rs:599-608 | After every run every page of room events leaves the relay as one message of at most 768 KiB |
| `Postcard.VarintRoundTrip` | crates/grotto-protocol/src/lib.rs:599-608 | A varint decodes to its number and leaves the rest, for every number of the width |
| `Postcard.U64RoundTrip` | crates/grotto-protocol/src/delivery.rs:221-223 | Every 64-bit number |
| `Postcard.OptionRoundTrip` | crates/grotto-protocol/src/delivery.rs:244-327 | Every option of a round-tripping value |
| `Postcard.VecRoundTrip` | crates/grotto-protocol/src/delivery.rs:175-205 | Every vector within its limit |
| `Postcard.BytesRoundTrip` | crates/grotto-protocol/src/delivery.rs:206-208 | Every byte string within its limit |
| `Postcard.TextRoundTrip` | crates/grotto-protocol/src/delivery.rs:235-242 | Every valid text within its limit |
| `Postcard.BoundedVec` | crates/grotto-protocol/src/delivery.rs:175-205 | The loop that fills a bounded vector computes the specified result, including every refusal |
| `Wire.RequestRoundTrip` | crates/grotto-protocol/src/delivery.rs:244-327 | Encoding followed by decoding returns the request and what follows it, for every variant |
| `Wire.ResponseRoundTrip` | crates/grotto-protocol/src/delivery.rs:329-446 | The same for every response |
| `Wire.ReasonRoundTrip` | crates/grotto-protocol/src/delivery.rs:448-477 | The same for every rejection |
| `Wire.FaultRoundTrip` | crates/grotto-protocol/src/lib.rs:389-449 | The same for every protocol error |
| `Wire.ClientRoundTrip` | crates/grotto-protocol/src/lib.rs:249-303 | The same for every client message |
| `Wire.RelayRoundTrip` | crates/grotto-protocol/src/lib.rs:305-362 | The same for every relay message |
| `Wire.ClientMessageRoundTrip` | crates/grotto-protocol/src/lib.rs:689-700 | A packed client message decodes to itself with nothing left over |
| `Wire.RelayMessageRoundTrip` | crates/grotto-protocol/src/lib.rs:689-700 | A packed relay message decodes to itself with nothing left over |
| `WireFixtures.RequestFixtures` | crates/grotto-protocol/src/delivery.rs:502-615 | The encodings of one request of every kind are the repository's byte fixtures, tag by tag and field by field |
| `WireFixtures.ResponseFixtures` | crates/grotto-protocol/src/delivery.rs:502-630 | The encodings of one response of every kind are the repository's byte fixtures |
| `Frames.FrameRoundTrip` | crates/grotto-protocol/src/lib.rs:715-781 | A frame reads back as its payload and leaves what follows |
| `Frames.StreamRoundTrip` | crates/grotto-protocol/src/lib.rs:715-781 | A stream of framed messages reads back as exactly those messages and then its end |
| `Frames.ClientStreamRoundTrip` | crates/grotto-protocol/src/lib.rs:249-303 | Any list of in-bounds client messages, encoded, framed and concatenated, reads back as that list |
| `Frames.RelayStreamRoundTrip` | crates/grotto-protocol/src/lib.rs:305-362 | The same for relay messages |
| `Frames.StreamExists` | crates/grotto-protocol/src/lib.rs:599-608 | A list can be sent if and only if every message fits 768 KiB |
| `Frames.Reader.constructor` | crates/grotto-protocol/src/lib.rs:715-718 | A reader starts at the beginning of its stream |
| `Frames.Reader.Read` | crates/grotto-protocol/src/lib.rs:718-760 | One read takes some of the bytes, none only at the end |
| `Frames.Reader.Fill` | crates/grotto-protocol/src/lib.rs:718-760 | A buffer is filled in order whatever the pieces, short only at the end |
| `Frames.Reader.ReadFrame` | crates/grotto-protocol/src/lib.rs:715-760 | The next frame, the clean end or the specified error, whatever the pieces the stream arrives in |
| `Frames.Reader.ReadMessages` | crates/grotto-protocol/src/lib.rs:689-760 | Reading and decoding until the end computes the specified list |
| `Frames.Writer.constructor` | crates/grotto-protocol/src/lib.rs:762-781 | Nothing is written yet |
| `Frames.Writer.WriteFrame` | crates/grotto-protocol/src/lib.rs:762-781 | Exactly one frame is appended, or nothing when the payload is too long |
| `Transcripts.ReceiptInjective` | crates/grotto-protocol/src/delivery.rs:481-497 | Different users or records are hashed from different bytes |
| `Transcripts.EventDataInjective` | crates/grotto-protocol/src/delivery.rs:143-151 | The authenticated data of an event names one room, one identifier and one parent |
| `Transcripts.WelcomeDataInjective` | crates/grotto-protocol/src/delivery.rs:153-169 | A Welcome transcript names one recipient, room, event, sequence and body digest |
| `Transcripts.DomainsApart` | crates/grotto-protocol/src/delivery.rs:143-169 | The data behind receipt identifiers, event bindings and Welcome signatures never coincide, whatever they hold |
| `Transcripts.WordsAscend` | crates/grotto-protocol/src/delivery.rs:143-169 | Numbers are written so that smaller ones come first in byte order |
| `HubSpec.HubKept` | crates/grotto-relay/src/lib.rs:207-324 | Every lock section of every task keeps the hub's invariant |
| `HubSpec.RunOk` | crates/grotto-relay/src/lib.rs:207-324 | The invariant holds after every interleaving |
| `HubSpec.OneSessionPerUser` | crates/grotto-relay/src/lib.rs:207-324 | Under every interleaving a user has at most one session and one sender entry, and the entry's owner is active and live |
| `HubSpec.EvictionSparesNewer` | crates/grotto-relay/src/lib.rs:246-293 | An eviction under any interleaving removes no sender of any user that was not entered when its targets were gathered, and adds none |
| `HubSpec.EvictionHasCause` | crates/grotto-relay/src/lib.rs:246-293 | In every interleaving a sender that an eviction removes was in the snapshot it works on, and at a later step, before the eviction, its channel was closed or its 64 places were taken |
| `HubSpec.FitSenderStays` | crates/grotto-relay/src/lib.rs:246-293 | A sender whose channel is never closed or full stays entered until its own session withdraws |
| `HubSpec.WasGathered` | crates/grotto-relay/src/lib.rs:247-263 | Every notification that is being sent carries exactly the senders its recipients had at one earlier step |
| `HubSpec.NoLostWakeup` | crates/grotto-relay/src/lib.rs:246-293 | Under every interleaving, each sender that a notification's recipients had when it was gathered is evicted by its end, or from then on its client has a notification waiting or has received one since the append |
| `HubSpec.SenderTold` | crates/grotto-relay/src/lib.rs:264-278 | At the end of a notification every gathered sender that is not evicted has been sent the append or had a notification waiting when it was skipped |
| `HubSpec.AnnouncedForGood` | crates/grotto-relay/src/lib.rs:264-278 | What has been announced to a sender is never taken back |
| `Hubs.ConnectionHub.constructor` | crates/grotto-relay/src/lib.rs:172-182 | A new hub is empty |
| `Hubs.ConnectionHub.Claim` | crates/grotto-relay/src/lib.rs:211-221 | A claim succeeds exactly if the user has no session, and is the claim step of the interleaving model |
| `Hubs.ConnectionHub.TakeId` | crates/grotto-relay/src/lib.rs:222 | The identifier drawn is none of any channel, of any entered sender or of any gathered target, and the call is the numbering step of the model |
| `Hubs.ConnectionHub.Enter` | crates/grotto-relay/src/lib.rs:224-231 | The user's entry is this one sender and no other, and the call is the entering step of the model |
| `Hubs.ConnectionHub.Unregister` | crates/grotto-relay/src/lib.rs:295-306 | The user has no sender left, and the call is the withdrawing step of the model |
| `Hubs.ConnectionHub.Release` | crates/grotto-relay/src/lib.rs:315-324 | The user has no session any more while everybody else's stays, and the call is the releasing step of the model |
| `Hubs.ConnectionHub.Targets` | crates/grotto-relay/src/lib.rs:247-263 | The snapshot lists every sender of the recipients and no other, and the call is the gathering step of the model |
| `Hubs.ConnectionHub.SendersOf` | crates/grotto-relay/src/lib.rs:254-260 | Every sender of one recipient |
| `Hubs.ConnectionHub.CheckTarget` | crates/grotto-relay/src/lib.rs:266-274 | A look at a queue passes over a sender with something waiting, fails a closed one with nothing waiting, and leaves an open one to be sent to |
| `Hubs.ConnectionHub.SendTarget` | crates/grotto-relay/src/lib.rs:275-277 | The message is queued, or the sender fails if it closed or filled up since the check, as in the sending step of the model |
| `Hubs.ConnectionHub.OfferAll` | crates/grotto-relay/src/lib.rs:264-278 | The send loop is a path of model steps after which every target was judged and exactly the failed ones are kept for eviction |
| `Hubs.ConnectionHub.Evict` | crates/grotto-relay/src/lib.rs:279-292 | Exactly the failed senders are removed, and the call is the evicting step of the model |
| `Hubs.ConnectionHub.Notify` | crates/grotto-relay/src/lib.rs:246-293 | An uninterrupted notification is a path of steps after which exactly those senders of the recipients are gone whose channel was closed with nothing waiting, exactly those have one notification more that were open with nothing waiting, and all the others know of the append |
| `RateLimit.RateLimiter.AdmitRequest` | crates/grotto-relay/src/lib.rs:185-205 | The decision and the new map are those of the evicting bucket |
| `RateLimit.EvictionInvisible` | crates/grotto-relay/src/lib.rs:185-205 | If the burst is at most 60 seconds' worth of the rate less the lag, every run whose clock readings are ordered per user and late by at most the lag gets exactly the answers of buckets that are never dropped |
| `RateExactness.EvictionVisible` | crates/grotto-relay/src/lib.rs:185-205 | With a larger burst there is such a run that is answered differently |
| `RateExactness.EvictionExact` | crates/grotto-relay/src/lib.rs:185-205 | For every lag, eviction is invisible on all such runs if and only if the burst is zero or at most (60 - lag) * rate |
| `RateExactness.TimelyIsPaced` | crates/grotto-relay/src/lib.rs:185-192 | Requests served one after another per user, with the clock read before the lock, give readings that are ordered per user and late by at most the longest wait for the lock |
| `RateExactness.SerialExact` | crates/grotto-relay/src/lib.rs:185-205 | For such requests eviction is invisible if and only if the burst is zero, or at most (60 - lag) * rate, or leaves one token to spare over 60 seconds while the lag leaves time for one token |
| `RateExactness.DefaultIsQuick` | crates/grotto-relay/src/limits.rs:123-138 | The default of 20 requests a second and a burst of 40 meets the condition for every lag up to 58 seconds |
| `RateLimit.TokensPay` | crates/grotto-relay/src/lib.rs:193-204 | The tokens a user has, plus what the rate adds, pay for every admitted request |
| `RateLimit.RateBound` | crates/grotto-relay/src/lib.rs:193-204 | One never-dropped bucket admits at most burst + rate * elapsed requests |
| `RateLimit.IntervalBound` | crates/grotto-relay/src/lib.rs:185-205 | In every such run of the evicting limiter with burst <= (60 - lag) * rate, any interval admits at most burst + rate * elapsed requests of a user |
| `RateFairness.AdmittedExactly` | crates/grotto-relay/src/lib.rs:185-206 | A bucket lets a request through if and only if every interval from an earlier request of the user, or from this one, then stays within the burst and what the rate adds |
| `RateFairness.LimiterIsFair` | crates/grotto-relay/src/lib.rs:185-206 | The same of the limiter that drops idle entries, under the condition that makes dropping invisible |
| `Handshakes.HandshakeLeases.constructor` | crates/grotto-relay/src/lib.rs:327-331 | No lease is out |
| `Handshakes.HandshakeLeases.Total` | crates/grotto-relay/src/lib.rs:339 | The sum of all counts is the number of live leases |
| `Handshakes.HandshakeLeases.Acquire` | crates/grotto-relay/src/lib.rs:334-352 | A lease is given exactly when both limits leave room, and the counts stay those of the live leases without a zero entry |
| `Handshakes.HandshakeLeases.Drop` | crates/grotto-relay/src/lib.rs:354-367 | Dropping gives back exactly one lease |

## Left out

- mls-rs, Ed25519, SHA-256 and SQLite: foreign code, represented as described above; ratchet state is a counter, and forward secrecy is not modelled.
- Collisions of random identifiers and of hashes: excluded by construction.
- `admit_new_data` of the client store: appears only as a transaction that may fail.
- The client's table of room names: only the validity of names is modelled, since nothing else depends on it.
- Paging and printing of history, contact listings and room listings: they would only add easy members.
- Nested use of a client transaction and the `owner` and `poisoned` flags of the store: one transaction is one step.
- Contact cards, enrollment tokens and the authentication handshake: signature checks and one-row updates.
- TLS, sockets, timeouts, signals, metrics and interrupted reads: input and output without state worth proving.
- The global payload semaphore: its behaviour is that of the async runtime.
- Overlong varints and the reverse direction of the codec: decoding accepts more than encoding produces, so only decode-after-encode is stated.
- Overflow of the 64-bit ledger columns: integers are unbounded, except in the saturating admission test.
- Rounding of the token bucket's floating-point numbers, and of elapsed time to whole seconds in the eviction test: tokens and time are real numbers, and 60 whole seconds have passed exactly when 60 seconds have.
- Legacy tables and session methods that the V9 engine does not use.
- The read half of a client connection and the order of commands typed by a user: any order of transactions is covered.
- Engines.Engine.FetchQueue: an arbitrary relay may say that nothing remains when something does; `Agreement.WelcomeInbox` and `Pages.QueueWalkComplete` say that this relay does not.
- Engines.Engine.DriveRounds: does not state that all intents are fulfilled, because rounds are limited to four and the relay may refuse; `Recovery.CatchUpExactly` states which members can reach the head of their log, and `LateAdds.TooLateForGood` which adds stay unfulfilled.
- RelayTheorems.LedgersConserved: a limit equal to the largest 64-bit number is no limit, because the saturating test cannot fail then.
- Pages.PageProgress: for requests whose numbers fit 64 bits, as everything decoded from the wire does.
- Verdicts.AppendVerdict: after runs of requests whose numbers fit 64 bits, as everything decoded from the wire does; so for the other members of `Verdicts`.
- HistoryLogs.HistoryIsTheLog: excludes a log that has used up all 2^63 - 1 numbers, where `HistoryLogs.RefusedExactly` says what a history keeps.
- Pages.QueueWalkComplete: at most 202 Welcomes, the exact number for which it holds of every state.
