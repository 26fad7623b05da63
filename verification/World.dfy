/**
  Honest clients and the relay, joined by a network that loses, delays, reorders and repeats
  requests and answers. A crash keeps the databases, so it needs no move of its own. The relay
  may refuse a request as overloaded before it reaches the tables.
 */
module World {
  import opened Records
  import opened RelaySpec
  import opened RelayInvariants
  import opened ClientSpec
  import opened ClientInvariants
  import opened ClientTheorems

  datatype Message = Message(user: UserId, id: MessageId, request: Request)
  datatype Answered = Answered(message: Message, response: Response)

  /** The last three fields only remember the past: the request a random identifier was drawn
      for, the intent an attempt was built from, and what each intent was for. */
  datatype World = World(
    relay: Tables,
    clients: map<UserId, Client>,
    sent: set<Message>,
    answers: set<Answered>,
    issued: map<MessageId, Message>,
    origin: map<MessageId, MessageId>,
    intended: map<MessageId, Purpose>)

  /** What an intent is for. */
  datatype Purpose = Purpose(user: UserId, room: RoomId, target: Option<UserId>, plaintext: Option<seq<byte>>)

  datatype Move =
    | Act(user: UserId, action: Action)
    | Send(user: UserId, id: MessageId)
    | Read(user: UserId, id: MessageId, request: Request)
    | Serve(message: Message, env: Environment)
    | Refuse(message: Message)

  /** Random identifiers are never drawn twice. */
  predicate New(issued: map<MessageId, Message>, id: MessageId) { id.Random? && id !in issued }

  ghost predicate Fetched(answers: set<Answered>, user: UserId, event: Event) {
    exists answer :: answer in answers && answer.message.user == user && answer.response.RoomEvents?
                     && event in answer.response.events
  }

  ghost predicate Queued(answers: set<Answered>, user: UserId, after: nat, page: seq<WelcomeDelivery>) {
    exists answer :: answer in answers && answer.message.user == user && answer.response.Welcomes?
                     && answer.response.afterCursor == after && answer.response.welcomes == page
  }

  /** New identifiers are new, and what the client processes is what the relay gave it. */
  ghost predicate Justified(w: World, user: UserId, db: Database, action: Action) {
    match action
    case Issue(id, _) => New(w.issued, id)
    case Intend(_, intent) => intent.id !in w.intended
    case Build(_, id, _) => New(w.issued, id)
    case Answer(id, response) =>
      id in db.outbox && Answered(Message(user, id, db.outbox[id].request), response) in w.answers
    case Receive(event) => Fetched(w.answers, user, event)
    case Store(page) => Queued(w.answers, user, db.welcomeCursor, page)
    case _ => true
  }

  ghost predicate Enabled(w: World, move: Move) {
    match move
    case Act(user, action) =>
      user in w.clients && Justified(w, user, w.clients[user].db, action)
      && Next(w.clients[user].db, user, action).Some?
    case Send(user, id) => user in w.clients && id in w.clients[user].db.outbox
    case Read(user, id, request) => user in w.clients && New(w.issued, id) && !IsDurable(request)
    case Serve(message, _) => message in w.sent
    case Refuse(message) => message in w.sent
  }

  function NewId(action: Action): Option<MessageId> {
    match action
    case Issue(id, _) => Some(id)
    case Build(_, id, _) => Some(id)
    case _ => None
  }

  function Drawn(issued: map<MessageId, Message>, user: UserId, id: Option<MessageId>, db: Database)
    : map<MessageId, Message>
  {
    if id.Some? && id.value in db.outbox then issued[id.value := Message(user, id.value, db.outbox[id.value].request)]
    else issued
  }

  function Originated(origin: map<MessageId, MessageId>, db: Database, action: Action): map<MessageId, MessageId> {
    if action.Build? && action.room in db.intents then origin[action.id := db.intents[action.room].id] else origin
  }

  function Meant(intended: map<MessageId, Purpose>, user: UserId, action: Action): map<MessageId, Purpose> {
    if action.Intend?
    then intended[action.intent.id := Purpose(user, action.room, action.intent.target, action.intent.plaintext)]
    else intended
  }

  function Acted(w: World, user: UserId, action: Action, db': Database): World
    requires user in w.clients
  {
    var client := w.clients[user];
    w.(clients := w.clients[user := Client(db', NewStarts(client.starts, db'))],
       issued := Drawn(w.issued, user, NewId(action), db'),
       origin := Originated(w.origin, client.db, action),
       intended := Meant(w.intended, user, action))
  }

  function Answering(w: World, message: Message, response: Response): World {
    w.(answers := w.answers + {Answered(message, response)})
  }

  function Served(w: World, limits: Limits, message: Message, env: Environment): World {
    var call := Call(message.user, message.id, message.request, env);
    Answering(w, message, Reply(w.relay, limits, call)).(relay := After(w.relay, limits, call))
  }

  /** A move that is not enabled changes nothing. */
  ghost function Moved(w: World, limits: Limits, move: Move): World {
    if !Enabled(w, move) then w
    else
      match move
      case Act(user, action) => Acted(w, user, action, Next(w.clients[user].db, user, action).value)
      case Send(user, id) => w.(sent := w.sent + {Message(user, id, w.clients[user].db.outbox[id].request)})
      case Read(user, id, request) =>
        w.(sent := w.sent + {Message(user, id, request)}, issued := w.issued[id := Message(user, id, request)])
      case Serve(message, env) => Served(w, limits, message, env)
      case Refuse(message) => Answering(w, message, Rejected(Overloaded))
  }

  ghost function RunWorld(w: World, limits: Limits, moves: seq<Move>): World
    decreases |moves|
  {
    if moves == [] then w else RunWorld(Moved(w, limits, moves[0]), limits, moves[1..])
  }

  /** An empty relay and new clients. */
  function Start(users: set<UserId>): World {
    World(EMPTY, map user | user in users :: Client(Fresh(user), map[]), {}, {}, map[], map[], map[])
  }
}
