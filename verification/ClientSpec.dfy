/**
  The client's durable state and what one transaction does to it
  (crates/grotto-client/src/delivery.rs, mls_session.rs and store.rs). A function
  returns None where the transaction fails: it is rolled back and nothing changes.
 */
module ClientSpec {
  import opened Records
  import opened Sizes
  import opened RoomNames

  datatype Intent = Intent(
    id: MessageId, target: Option<UserId>, plaintext: Option<seq<byte>>, package: Option<Blob>,
    attempt: Option<MessageId>)
  datatype OutboxRow = OutboxRow(rowid: nat, request: Request)
  datatype RowState = Pending | Stuck | Applied | Refused
  datatype InboxRow = InboxRow(event: Event, state: RowState)
  datatype WelcomeEntry = WelcomeEntry(record: WelcomeDelivery, state: RowState)
  datatype HistoryRow = HistoryRow(room: RoomId, sequence: nat, author: UserId, plaintext: seq<byte>)

  /** A stored MLS group: its public state, the group an unapplied own commit leads to, and
      how often its ratchets have moved. */
  datatype GroupState = GroupState(group: Group, pending: Option<Group>, ratchet: nat)

  datatype Database = Database(
    contacts: set<UserId>,
    intents: map<RoomId, Intent>,
    outbox: map<MessageId, OutboxRow>,
    inbox: map<MessageId, InboxRow>,
    welcomes: map<nat, WelcomeEntry>,
    welcomeCursor: nat,
    cursors: map<RoomId, nat>,
    history: map<MessageId, HistoryRow>,
    groups: map<RoomId, GroupState>)

  // ----- queries -----

  function Cursor(db: Database, room: RoomId): nat { if room in db.cursors then db.cursors[room] else 0 }

  /** A group is usable when every member is a verified contact. */
  predicate HasGroup(db: Database, room: RoomId) {
    room in db.groups && db.groups[room].group.roster <= db.contacts
  }

  /** The room has an attempt in the outbox whose event has not been received. */
  predicate Unresolved(db: Database, room: RoomId) {
    && room in db.intents
    && db.intents[room].attempt.Some?
    && db.intents[room].attempt.value in db.outbox
    && db.intents[room].attempt.value !in db.inbox
  }

  predicate At(row: InboxRow, room: RoomId, parent: nat) {
    row.event.operation.room == room && row.event.operation.parent == parent
  }

  predicate HasRowAt(db: Database, room: RoomId, parent: nat) {
    exists id :: id in db.inbox && At(db.inbox[id], room, parent)
  }

  /** An event of the room is received but not processed. */
  predicate Backlog(db: Database, room: RoomId) {
    exists id :: id in db.inbox && db.inbox[id].event.operation.room == room
                 && db.inbox[id].event.operation.parent + 1 > Cursor(db, room)
  }

  // ----- outbox and intents -----

  function Rowids(outbox: map<MessageId, OutboxRow>): set<nat> { set id | id in outbox :: outbox[id].rowid }

  predicate IsGreatest(greatest: nat, s: set<nat>) { greatest in s && forall x :: x in s ==> x <= greatest }

  lemma GreatestExists(s: set<nat>)
    requires s != {}
    ensures exists greatest :: IsGreatest(greatest, s)
  {
    var y :| y in s;
    if s == {y} {
      assert IsGreatest(y, s);
    } else {
      GreatestExists(s - {y});
      var z :| IsGreatest(z, s - {y});
      assert IsGreatest(if y > z then y else z, s) by {
        assert forall x :: x in s ==> x == y || x in s - {y};
      }
    }
  }

  lemma RowidIn(outbox: map<MessageId, OutboxRow>, id: MessageId)
    requires id in outbox
    ensures outbox[id].rowid in Rowids(outbox)
  {}

  /** One more than the largest row identifier in use. */
  function NextRowid(outbox: map<MessageId, OutboxRow>): (n: nat)
    ensures n >= 1 && forall id :: id in outbox ==> outbox[id].rowid < n
  {
    if outbox == map[] then 1
    else
      var rowids := Rowids(outbox);
      var some :| some in outbox.Keys;
      RowidIn(outbox, some);
      GreatestExists(rowids);
      var greatest: nat :| IsGreatest(greatest, rowids);
      assert forall id :: id in outbox ==> outbox[id].rowid in rowids;
      greatest + 1
  }

  /** An identifier keeps its first request for good. */
  function SaveOutbox(db: Database, id: MessageId, request: Request): Option<Database> {
    if id !in db.outbox then Some(db.(outbox := db.outbox[id := OutboxRow(NextRowid(db.outbox), request)]))
    else if db.outbox[id].request == request then Some(db)
    else None
  }

  function RemoveOutbox(db: Database, id: MessageId): Database { db.(outbox := db.outbox - {id}) }

  function Detach(intents: map<RoomId, Intent>, id: MessageId): map<RoomId, Intent> {
    map room | room in intents ::
      if intents[room].attempt == Some(id) then intents[room].(attempt := None) else intents[room]
  }

  function DropIntents(intents: map<RoomId, Intent>, id: MessageId): map<RoomId, Intent> {
    map room | room in intents && intents[room].attempt != Some(id) :: intents[room]
  }

  predicate Reserves(intent: Intent, id: MessageId, recipient: UserId) {
    intent.attempt == Some(id) && intent.target == Some(recipient)
  }

  function ReservingRooms(intents: map<RoomId, Intent>, id: MessageId, recipient: UserId): set<RoomId> {
    set room | room in intents && Reserves(intents[room], id, recipient)
  }

  function AttachPackage(intents: map<RoomId, Intent>, id: MessageId, recipient: UserId, package: Blob)
    : map<RoomId, Intent>
  {
    map room | room in intents ::
      if Reserves(intents[room], id, recipient) then intents[room].(package := Some(package), attempt := None)
      else intents[room]
  }

  // ----- MLS -----

  function WithGroup(db: Database, room: RoomId, state: GroupState): Database {
    db.(groups := db.groups[room := state])
  }

  /** Create the group, or keep the existing one on a repeated answer. */
  function CreateGroup(db: Database, user: UserId, room: RoomId): Database {
    if HasGroup(db, room) then db else WithGroup(db, room, GroupState(Group(0, {user}), None, 0))
  }

  function DiscardPending(db: Database, room: RoomId): Option<Database> {
    if !HasGroup(db, room) then None else Some(WithGroup(db, room, db.groups[room].(pending := None)))
  }

  function ApplyAcceptedCommit(db: Database, room: RoomId): Option<Database> {
    if !HasGroup(db, room) || db.groups[room].pending.None? then None
    else
      var state := db.groups[room];
      Some(WithGroup(db, room, GroupState(state.pending.value, None, state.ratchet)))
  }

  /** The group after a commit that adds one member. */
  function Added(group: Group, user: UserId): Group { Group(group.epoch + 1, group.roster + {user}) }

  datatype Built = Built(db: Database, epoch: nat, body: Content, welcome: Content) | NotBuilt

  function EncryptBound(db: Database, user: UserId, room: RoomId, plaintext: seq<byte>, binding: Binding): Built {
    if !HasGroup(db, room) || db.groups[room].pending.Some? then NotBuilt
    else
      var state := db.groups[room];
      Built(WithGroup(db, room, state.(ratchet := state.ratchet + 1)), state.group.epoch,
            ApplicationMessage(state.group.epoch, user, binding, plaintext), Malformed)
  }

  /** A pending commit that adds the owner of a key package; the group itself waits. */
  function BuildPendingAdd(db: Database, user: UserId, room: RoomId, package: Blob, binding: Binding): Built {
    if !package.content.KeyPackageMessage? || !HasGroup(db, room) || db.groups[room].pending.Some? then NotBuilt
    else
      var state := db.groups[room];
      var owner := package.content.owner;
      if owner in state.group.roster || owner !in db.contacts then NotBuilt
      else
        var after := Added(state.group, owner);
        Built(WithGroup(db, room, state.(pending := Some(after))), state.group.epoch,
              CommitMessage(state.group, user, binding, owner), WelcomeMessage(room, after))
  }

  datatype Processed =
    | Opened(db: Database, plaintext: Option<seq<byte>>)
    | FaultBlocked
    | FaultRejected
    | Failure

  /** Process somebody else's event: it must open in the current epoch, come from the member
      it names and be bound to its room, identifier and parent. */
  function ProcessBound(db: Database, user: UserId, event: Event): Processed {
    var room := event.operation.room;
    match event.operation.body.content
    case ApplicationMessage(epoch, sender, binding, plaintext) =>
      if epoch != event.operation.epoch then FaultRejected
      else if !HasGroup(db, room) then Failure
      else
        var state := db.groups[room];
        if epoch > state.group.epoch then FaultBlocked
        else if epoch < state.group.epoch || sender !in state.group.roster || sender == user then FaultRejected
        else if event.operation.contentType != Application || sender != event.sender
                || binding != Binding(room, event.id, event.operation.parent) then FaultRejected
        else Opened(WithGroup(db, room, state.(ratchet := state.ratchet + 1)), Some(plaintext))
    case CommitMessage(base, sender, binding, added) =>
      if base.epoch != event.operation.epoch then FaultRejected
      else if !HasGroup(db, room) then Failure
      else
        var state := db.groups[room];
        if base.epoch > state.group.epoch then FaultBlocked
        else if base != state.group || sender !in state.group.roster || sender == user || added in state.group.roster
        then FaultRejected
        else if added !in db.contacts then FaultBlocked
        else if event.operation.contentType != Commit || sender != event.sender
                || binding != Binding(room, event.id, event.operation.parent) then FaultRejected
        else Opened(WithGroup(db, room, GroupState(Added(state.group, added), None, state.ratchet + 1)), None)
    case _ => FaultRejected
  }

  // ----- completing an outbox entry -----

  /** Store an event, which may never replace another. */
  function ReceiveEvent(db: Database, event: Event): Option<Database> {
    if event.operation.parent + 1 > I64_MAX then None
    else if event.id in db.inbox then
      if db.inbox[event.id].event == event then Some(db) else None
    else if HasRowAt(db, event.operation.room, event.operation.parent) then None
    else Some(db.(inbox := db.inbox[event.id := InboxRow(event, Pending)]))
  }

  function CompleteConflict(db: Database, id: MessageId, operation: Append): Option<Database> {
    var cleared := if operation.contentType == Commit then DiscardPending(db, operation.room) else Some(db);
    if cleared.None? then None
    else
      var db1 := RemoveOutbox(cleared.value, id);
      Some(db1.(history := db1.history - {id}, intents := Detach(db1.intents, id)))
  }

  /** A refusal for good: the intent goes, the history row of a message stays. */
  function CompleteRefusal(db: Database, id: MessageId, request: Request): Option<Database> {
    var cleared :=
      if request.AppendRoomOperation? && request.operation.contentType == Commit
      then DiscardPending(db, request.operation.room) else Some(db);
    if cleared.None? then None
    else Some(RemoveOutbox(cleared.value.(intents := DropIntents(cleared.value.intents, id)), id))
  }

  function CompleteReservation(db: Database, id: MessageId, recipient: UserId, package: Blob): Option<Database> {
    if package.content != KeyPackageMessage(recipient) || recipient !in db.contacts
       || |ReservingRooms(db.intents, id, recipient)| != 1 then None
    else Some(RemoveOutbox(db.(intents := AttachPackage(db.intents, id, recipient, package)), id))
  }

  function CompleteCreation(db: Database, user: UserId, id: MessageId, room: RoomId): Database {
    var db1 := CreateGroup(db, user, room);
    RemoveOutbox(db1.(cursors := if room in db1.cursors then db1.cursors else db1.cursors[room := 0]), id)
  }

  function Complete(db: Database, user: UserId, id: MessageId, request: Request, response: Response): Option<Database> {
    if request.CreateRoom? && response.RoomCreated? then
      if NormalizeRoomName(request.name).None? then None else Some(CompleteCreation(db, user, id, response.room))
    else if request.PublishKeyPackages? && response == KeyPackagesPublished(|request.packages|)
    then Some(RemoveOutbox(db, id))
    else if request.SetFetchGrant? && response.FetchGrantSet? then Some(RemoveOutbox(db, id))
    else if request.ReserveKeyPackage? && response.KeyPackage? && response.recipient == request.recipient
    then CompleteReservation(db, id, request.recipient, response.package)
    else if request.AppendRoomOperation? && response == AppendAccepted(Event(id, user, request.operation))
    then ReceiveEvent(db, response.event)
    else if request.AppendRoomOperation? && response.HeadConflict? && response.room == request.operation.room
            && response.head != request.operation.parent
    then CompleteConflict(db, id, request.operation)
    else if IsTransient(response) then Some(db)
    else if response.Rejected? then CompleteRefusal(db, id, request)
    else if request.Acknowledge? && response.Acknowledged? then Some(RemoveOutbox(db, id))
    else None
  }

  // ----- applying an event -----

  /** Set the state of an inbox row, if there is one. */
  function MarkRow(inbox: map<MessageId, InboxRow>, id: MessageId, state: RowState): map<MessageId, InboxRow> {
    if id in inbox then inbox[id := inbox[id].(state := state)] else inbox
  }

  /** Settle the inbox row and move the cursor. */
  function Advance(db: Database, event: Event, state: RowState): Database {
    db.(inbox := MarkRow(db.inbox, event.id, state),
        cursors := db.cursors[event.operation.room := event.operation.parent + 1])
  }

  /** Settle the event and queue its receipt. */
  function FinishEvent(db: Database, user: UserId, event: Event, state: RowState): Option<Database> {
    SaveOutbox(Advance(db, event, state), AcknowledgementId(user, [event.id], []), Acknowledge([event.id], []))
  }

  function SetSequence(history: map<MessageId, HistoryRow>, id: MessageId, sequence: nat): map<MessageId, HistoryRow> {
    if id in history then history[id := history[id].(sequence := sequence)] else history
  }

  function RecordPlaintext(
    history: map<MessageId, HistoryRow>, id: MessageId, row: HistoryRow): map<MessageId, HistoryRow>
  {
    if id in history then SetSequence(history, id, row.sequence) else history[id := row]
  }

  /** The attempt and its intent are done, the message has its place in the history. */
  function Claim(db: Database, event: Event): Database {
    RemoveOutbox(db, event.id).(intents := DropIntents(db.intents, event.id),
                                history := SetSequence(db.history, event.id, event.operation.parent + 1))
  }

  /** Keep the plaintext an event opened to. */
  function Remember(db: Database, event: Event, plaintext: Option<seq<byte>>): Database {
    if plaintext.None? then db
    else
      db.(history := RecordPlaintext(db.history, event.id,
                                     HistoryRow(event.operation.room, event.operation.parent + 1, event.sender,
                                                plaintext.value)))
  }

  /** The user's own event: it must be the exact attempt in the outbox. */
  function ApplyOwn(db: Database, user: UserId, event: Event): Option<Database> {
    if event.id !in db.outbox || db.outbox[event.id].request != AppendRoomOperation(event.operation) then None
    else
      var applied :=
        if event.operation.contentType == Commit then ApplyAcceptedCommit(db, event.operation.room) else Some(db);
      if applied.None? then None else FinishEvent(Claim(applied.value, event), user, event, Applied)
  }

  /** Somebody else's event: a fault either blocks the room or skips the event. */
  function ApplyOther(db: Database, user: UserId, event: Event): Option<Database> {
    match ProcessBound(db, user, event)
    case Failure => None
    case FaultBlocked =>
      Some(db.(inbox := MarkRow(db.inbox, event.id, Stuck)))
    case FaultRejected => FinishEvent(db, user, event, Refused)
    case Opened(db1, plaintext) => FinishEvent(Remember(db1, event, plaintext), user, event, Applied)
  }

  function ApplyEvent(db: Database, user: UserId, event: Event): Option<Database> {
    if Cursor(db, event.operation.room) != event.operation.parent then None
    else if event.sender == user then ApplyOwn(db, user, event)
    else ApplyOther(db, user, event)
  }

  // ----- building an attempt -----

  /** The bytes the MLS library produces for a body and a Welcome. */
  datatype Ciphertext = Ciphertext(body: seq<byte>, welcome: seq<byte>)

  function BuildSend(
    db: Database, user: UserId, room: RoomId, intent: Intent, id: MessageId, bytes: Ciphertext): Option<Database>
  {
    var parent := Cursor(db, room);
    if intent.plaintext.None? then None
    else
      match EncryptBound(db, user, room, intent.plaintext.value, Binding(room, id, parent))
      case NotBuilt => None
      case Built(db1, epoch, body, _) =>
        SaveOutbox(db1.(history := RecordPlaintext(db1.history, id,
                                                   HistoryRow(room, parent + 1, user, intent.plaintext.value))),
                   id, AppendRoomOperation(Append(room, parent, epoch, Application, Blob(bytes.body, body), None)))
  }

  function BuildAdd(
    db: Database, user: UserId, room: RoomId, intent: Intent, id: MessageId, bytes: Ciphertext): Option<Database>
  {
    var parent := Cursor(db, room);
    if intent.package.None? || intent.target.None? then None
    else
      match BuildPendingAdd(db, user, room, intent.package.value, Binding(room, id, parent))
      case NotBuilt => None
      case Built(db1, epoch, body, welcome) =>
        var recipient := intent.target.value;
        var blob := Blob(bytes.welcome, welcome);
        var attachment := WelcomeAttachment(recipient, blob,
                                            Signature(user, Transcript(recipient, room, id, parent + 1, blob)));
        SaveOutbox(db1, id, AppendRoomOperation(Append(room, parent, epoch, Commit, Blob(bytes.body, body),
                                                       Some(attachment))))
  }

  /** The next request of an intent: a reservation first, then the commit or the message. */
  function BuildRequest(
    db: Database, user: UserId, room: RoomId, intent: Intent, id: MessageId, bytes: Ciphertext): Option<Database>
  {
    if intent.target.Some? && intent.package.None? then SaveOutbox(db, id, ReserveKeyPackage(intent.target.value))
    else if intent.package.Some? then BuildAdd(db, user, room, intent, id, bytes)
    else BuildSend(db, user, room, intent, id, bytes)
  }

  /** Turn an intent without an attempt into the next exact request. */
  function BuildAttempt(db: Database, user: UserId, room: RoomId, id: MessageId, bytes: Ciphertext): Option<Database>
    requires room in db.intents
  {
    var intent := db.intents[room];
    var built := BuildRequest(db, user, room, intent, id, bytes);
    if built.None? then None
    else Some(built.value.(intents := built.value.intents[room := intent.(attempt := Some(id))]))
  }

  // ----- Welcomes -----

  predicate PageOrdered(user: UserId, page: seq<WelcomeDelivery>, after: nat) {
    page != [] ==>
      page[0].cursor > after && page[0].attachment.recipient == user && PageOrdered(user, page[1..], page[0].cursor)
  }

  function InsertPage(welcomes: map<nat, WelcomeEntry>, page: seq<WelcomeDelivery>): Option<map<nat, WelcomeEntry>>
    decreases |page|
  {
    if page == [] then Some(welcomes)
    else if page[0].cursor in welcomes then None
    else InsertPage(welcomes[page[0].cursor := WelcomeEntry(page[0], Pending)], page[1..])
  }

  function StorePage(db: Database, user: UserId, page: seq<WelcomeDelivery>): Option<Database> {
    if page == [] then Some(db)
    else if !PageOrdered(user, page, db.welcomeCursor) then None
    else
      match InsertPage(db.welcomes, page)
      case None => None
      case Some(welcomes) => Some(db.(welcomes := welcomes, welcomeCursor := page[|page| - 1].cursor))
  }

  function MarkWelcome(db: Database, cursor: nat, state: RowState): Database
    requires cursor in db.welcomes
  {
    db.(welcomes := db.welcomes[cursor := db.welcomes[cursor].(state := state)])
  }

  /** The inviter is a verified contact and signed exactly this Welcome for this user. */
  predicate WelcomeVerified(db: Database, user: UserId, welcome: WelcomeDelivery) {
    && 1 <= welcome.sequence <= I64_MAX
    && welcome.inviter in db.contacts
    && welcome.attachment.signature
       == Signature(welcome.inviter, Transcript(user, welcome.room, welcome.event, welcome.sequence,
                                                welcome.attachment.body))
  }

  function EnterRoom(db: Database, room: RoomId, group: Group, sequence: nat): Database {
    WithGroup(db, room, GroupState(group, None, 0)).(cursors := db.cursors[room := sequence])
  }

  /** Join with the group state a Welcome carries, if its key package is still at hand. */
  function JoinRoom(
    db: Database, user: UserId, cursor: nat, welcome: WelcomeDelivery, keyAvailable: bool): Option<Database>
    requires cursor in db.welcomes
  {
    var content := welcome.attachment.body.content;
    if HasGroup(db, welcome.room) || !content.WelcomeMessage? || !keyAvailable || content.room != welcome.room
       || !(content.group.roster <= db.contacts) || welcome.inviter !in content.group.roster
       || welcome.room in db.cursors || NormalizeRoomName(welcome.roomName).None?
    then None
    else
      SaveOutbox(MarkWelcome(EnterRoom(db, welcome.room, content.group, welcome.sequence), cursor, Applied),
                 AcknowledgementId(user, [], [cursor]), Acknowledge([], [cursor]))
  }

  function ProcessWelcome(db: Database, user: UserId, cursor: nat, keyAvailable: bool): Database
    requires cursor in db.welcomes
  {
    var welcome := db.welcomes[cursor].record;
    if !WelcomeVerified(db, user, welcome) then MarkWelcome(db, cursor, Stuck)
    else
      match JoinRoom(db, user, cursor, welcome, keyAvailable)
      case None => MarkWelcome(db, cursor, Stuck)
      case Some(joined) => joined
  }

  // ----- one step of the client -----

  datatype Action =
    | Import(contact: UserId)
    | Issue(id: MessageId, request: Request)
    | Intend(room: RoomId, intent: Intent)
    | Build(room: RoomId, id: MessageId, bytes: Ciphertext)
    | Answer(id: MessageId, response: Response)
    | Receive(event: Event)
    | Apply(event: Event)
    | Store(page: seq<WelcomeDelivery>)
    | Process(cursor: nat, keyAvailable: bool)

  /** A random identifier is new to this client. */
  predicate Unseen(db: Database, id: MessageId) {
    && id.Random?
    && id !in db.outbox && id !in db.inbox && id !in db.history
    && (forall room :: room in db.intents ==> db.intents[room].attempt != Some(id))
  }

  /** The commands that are journaled at once. */
  predicate IsCommand(request: Request) {
    request.CreateRoom? || request.PublishKeyPackages? || request.SetFetchGrant?
  }

  predicate OwnPackages(user: UserId, packages: seq<Blob>) {
    forall i :: 0 <= i < |packages| ==> packages[i].content == KeyPackageMessage(user)
  }

  /** A client publishes key packages of its own making, and grants are for contacts. */
  predicate Commanded(db: Database, user: UserId, request: Request) {
    && IsCommand(request)
    && (request.PublishKeyPackages? ==> OwnPackages(user, request.packages))
    && (request.SetFetchGrant? ==> request.requester in db.contacts)
  }

  /** An intent is a message to send or a contact to add, not yet attempted. The command line
      takes messages of 1 byte to 64 KiB. */
  predicate WellFormedIntent(intent: Intent) {
    && intent.target.Some? != intent.plaintext.Some? && intent.package.None? && intent.attempt.None?
    && (intent.plaintext.Some? ==> 0 < |intent.plaintext.value| <= MAX_MESSAGE_BODY_BYTES)
  }

  /** What the MLS library makes of such a message: never nothing, and far less than a blob may
      have. */
  predicate Encrypted(intent: Intent, bytes: Ciphertext) {
    intent.target.None? ==> 0 < |bytes.body| <= MAX_MLS_BLOB_BYTES
  }

  /** The request and its envelope encode within the payload limit. */
  predicate Fits(request: Request) { 17 + RequestSize(request) <= MAX_PAYLOAD }

  /** The durable state after one step; None if the client does not take the step. The guards
      of Receive, Apply and Build are the tests `synchronize` and `build_attempts` make. */
  function Next(db: Database, user: UserId, action: Action): Option<Database> {
    match action
    case Import(contact) => Some(db.(contacts := db.contacts + {contact}))
    case Issue(id, request) =>
      if !Unseen(db, id) || !Commanded(db, user, request) || !Fits(request) then None else SaveOutbox(db, id, request)
    case Intend(room, intent) =>
      if !HasGroup(db, room) || room in db.intents || !WellFormedIntent(intent)
         || (intent.target.Some? && intent.target.value !in db.contacts) then None
      else Some(db.(intents := db.intents[room := intent]))
    case Build(room, id, bytes) =>
      if !Unseen(db, id) || room !in db.intents || db.intents[room].attempt.Some? || !HasGroup(db, room)
         || Backlog(db, room) || !Encrypted(db.intents[room], bytes) then None
      else
        var built := BuildAttempt(db, user, room, id, bytes);
        if built.Some? && id in built.value.outbox && Fits(built.value.outbox[id].request) then built else None
    case Answer(id, response) =>
      if id !in db.outbox then None else Complete(db, user, id, db.outbox[id].request, response)
    case Receive(event) =>
      var room := event.operation.room;
      if Unresolved(db, room) || !HasGroup(db, room)
         || !(event.operation.parent == Cursor(db, room)
              || (event.operation.parent > Cursor(db, room) && HasRowAt(db, room, event.operation.parent - 1)))
      then None
      else ReceiveEvent(db, event)
    case Apply(event) =>
      var room := event.operation.room;
      if Unresolved(db, room) || !HasGroup(db, room) || event.id !in db.inbox || db.inbox[event.id].event != event
      then None
      else ApplyEvent(db, user, event)
    case Store(page) => StorePage(db, user, page)
    case Process(cursor, keyAvailable) =>
      if cursor !in db.welcomes || !(db.welcomes[cursor].state == Pending || db.welcomes[cursor].state == Stuck)
      then None
      else Some(ProcessWelcome(db, user, cursor, keyAvailable))
  }

  /** A new client knows itself, and nothing else. */
  function Fresh(user: UserId): Database {
    Database({user}, map[], map[], map[], map[], 0, map[], map[], map[])
  }
}
