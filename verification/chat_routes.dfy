/** The chat endpoints of app/chat/routes.py. Each one first answers 401
    to a logged-out session, then, for a given chat session, 404 when it
    does not exist and 403 when another user owns it; only then does it
    touch the store. The current user is the dictionary that
    app/auth/auth.py stores under "user". */
module ChatRoutes {
  import opened Values
  import opened Http
  import opened ChatModels
  import ChatCrud
  import opened AuthScheme

  datatype Reply =
    | Echo(sessionId: int, message: Option<string>, response: Option<string>, timestamp: int)
    | SessionCreated(sessionId: int, title: Option<string>, createdAt: int)
    | MessageList(sessionId: int, messages: seq<Message>)

  const NotAuthenticated := HttpError(Unauthorized, "Not authenticated")
  const SessionNotFound := HttpError(NotFound, "Chat session not found")
  const NotOwner := HttpError(Forbidden, "Not authorized to access this chat session")

  /** `user['id']` on the stored user: a KeyError for a dictionary without
      "id", a TypeError for anything that is not a dictionary. */
  function UserId(user: Value): Outcome<Value> {
    match user
    case Dict(m) => if "id" in m then Returned(m["id"]) else Raised(KeyError("id"))
    case _ => Raised(TypeError)
  }

  /** `chat_session.user_id == user['id']` in Python's terms: an integer
      equals only the same number, and NULL equals only None. */
  predicate SameOwner(owner: Option<int>, id: Value) {
    match owner
    case None => id == Null
    case Some(n) => id == Num(n)
  }

  /** A user id as written to an integer column: a number, or None for
      null. Any other JSON value is treated as a rejected write. */
  function IdColumn(v: Value): Outcome<Option<int>> {
    match v
    case Null => Returned(None)
    case Num(n) => Returned(Some(n))
    case _ => Raised(TypeError)
  }

  /** The checks at the head of `send_message` and `get_session_messages`,
      in their order: authentication, existence, ownership. The user's id
      is read only after the existence check. */
  function Gate(s: Session, t: ChatTables, chatId: int): (r: Outcome<ChatSession>)
    ensures !IsAuthenticated(s) ==> r == Raised(NotAuthenticated)
    ensures IsAuthenticated(s) && !SessionExists(t, chatId) ==> r == Raised(SessionNotFound)
    ensures IsAuthenticated(s) && SessionExists(t, chatId) && UserId(s["user"]).Raised? ==>
              r == Raised(UserId(s["user"]).exc)
    ensures IsAuthenticated(s) && SessionExists(t, chatId) && UserId(s["user"]).Returned? ==>
              (r.Returned? <==> SameOwner(ChatCrud.GetChatSession(t, chatId).value.userId, UserId(s["user"]).value))
    ensures IsAuthenticated(s) && SessionExists(t, chatId) && UserId(s["user"]).Returned?
            && !SameOwner(ChatCrud.GetChatSession(t, chatId).value.userId, UserId(s["user"]).value) ==>
              r == Raised(NotOwner)
    ensures r.Returned? ==>
              && r.value in t.sessions && r.value.id == chatId
              && IsAuthenticated(s) && UserId(s["user"]).Returned?
              && SameOwner(r.value.userId, UserId(s["user"]).value)
    ensures r.Raised? && r.exc !in {NotAuthenticated, SessionNotFound, TypeError, KeyError("id")} ==> r == Raised(NotOwner)
  {
    match GetCurrentUser(s)
    case None => Raised(NotAuthenticated)
    case Some(user) =>
      match ChatCrud.GetChatSession(t, chatId)
      case None => Raised(SessionNotFound)
      case Some(chat) =>
        match UserId(user)
        case Raised(e) => Raised(e)
        case Returned(id) => if SameOwner(chat.userId, id) then Returned(chat) else Raised(NotOwner)
  }

  /** The parameters `create_message` declares, and the keywords
      `send_message` passes to it. */
  const CreateMessageParameters: set<string> := {"db", "user_id", "content", "response"}
  const SendMessageKeywords: set<string> := {"db", "user_id", "session_id", "content", "response"}

  /** Binding keyword arguments: an unexpected keyword raises TypeError. */
  function Bind(parameters: set<string>, keywords: set<string>): (r: Outcome<()>)
    ensures r.Returned? <==> keywords <= parameters
  {
    if keywords <= parameters then Returned(()) else Raised(TypeError)
  }

  /** The reply the endpoint pairs with a message. */
  function EchoOf(message: string): string {
    "Echo: " + message
  }

  /** `send_message` as written. After the gate it calls `create_message`
      with a `session_id` keyword that function does not declare, so the
      call raises TypeError before anything is stored: no request
      succeeds and the store never changes. */
  function SendMessage(s: Session, t: ChatTables, chatId: int, message: string, now: int)
    : (r: (Outcome<Response<Reply>>, ChatTables))
    ensures r.1 == t
    ensures r.0.Raised?
    ensures Gate(s, t, chatId).Raised? ==> r.0 == Raised(Gate(s, t, chatId).exc)
    ensures Gate(s, t, chatId).Returned? ==> r.0 == Raised(TypeError) && Status(r.0) == ServerError
  {
    match Gate(s, t, chatId)
    case Raised(e) => (Raised(e), t)
    case Returned(chat) =>
      var id := UserId(s["user"]).value;
      var reply := EchoOf(message);
      match Bind(CreateMessageParameters, SendMessageKeywords)
      case Raised(e) => (Raised(e), t)
      case Returned(_) =>
        match IdColumn(id)
        case Raised(e) => (Raised(e), t)
        case Returned(owner) =>
          match ChatCrud.CreateMessage(t, owner, Some(message), Some(reply), now)
          case Raised(e) => (Raised(e), t)
          case Returned((m, t')) => (Returned(Ok(Echo(chatId, m.content, m.response, m.timestamp))), t')
  }

  /** The evidently intended `send_message`: after the gate, the message
      and its echo are stored in the requested session under the current
      user's id, and the reply repeats what was stored. */
  function SendMessageIntended(s: Session, t: ChatTables, chatId: int, message: string, now: int)
    : (r: (Outcome<Response<Reply>>, ChatTables))
    ensures Gate(s, t, chatId).Raised? ==> r == (Raised(Gate(s, t, chatId).exc), t)
    ensures Gate(s, t, chatId).Returned? && UserId(s["user"]).value.Num? ==>
              var n := UserId(s["user"]).value.n;
              && r.0 == Returned(Ok(Echo(chatId, Some(message), Some(EchoOf(message)), now)))
              && r.1 == ChatCrud.CreateMessageInSession(t, chatId, n, message, EchoOf(message), now).1
              && r.1.sessions == t.sessions
              && r.1.messages[|t.messages|].sessionId == Some(chatId)
              && r.1.messages[|t.messages|].userId == Some(n)
    ensures r.0.Raised? ==> r.1 == t
  {
    match Gate(s, t, chatId)
    case Raised(e) => (Raised(e), t)
    case Returned(chat) =>
      match IdColumn(UserId(s["user"]).value)
      case Raised(e) => (Raised(e), t)
      case Returned(owner) =>
        match ChatCrud.InsertMessage(t, Some(chatId), owner, Some(message), Some(EchoOf(message)), now)
        case Raised(e) => (Raised(e), t)
        case Returned((m, t')) => (Returned(Ok(Echo(chatId, m.content, m.response, m.timestamp))), t')
  }

  /** The intended endpoint stores only into an existing session owned by
      the caller, so it keeps the schema's invariant. */
  lemma SendMessageIntendedKeepsInvariants(s: Session, t: ChatTables, userIds: set<int>, chatId: int,
                                                              message: string, now: int)
    requires WellFormed(t, userIds)
    requires Gate(s, t, chatId).Returned? && UserId(s["user"]).value.Num?
    requires UserId(s["user"]).value.n in userIds
    ensures WellFormed(SendMessageIntended(s, t, chatId, message, now).1, userIds)
    ensures NeverBumped(t) ==> NeverBumped(SendMessageIntended(s, t, chatId, message, now).1)
  {
    var n := UserId(s["user"]).value.n;
    assert SessionExists(t, chatId);
    ChatCrud.CreateMessageInSessionKeepsInvariants(t, userIds, chatId, n, message, EchoOf(message), now);
  }

  /** `create_session`: a new chat session owned by the current user's id
      with the given title, "New Chat" when none is given. */
  function CreateSession(s: Session, t: ChatTables, title: string := ChatCrud.DefaultTitle, now: int)
    : (r: (Outcome<Response<Reply>>, ChatTables))
    ensures !IsAuthenticated(s) ==> r == (Raised(NotAuthenticated), t)
    ensures IsAuthenticated(s) && UserId(s["user"]).Raised? ==> r == (Raised(UserId(s["user"]).exc), t)
    ensures r.0.Raised? ==> r.1 == t
    ensures r.0.Returned? ==>
              && IsAuthenticated(s) && UserId(s["user"]).Returned? && UserId(s["user"]).value.Num?
              && var c := ChatSession(t.nextSessionId, Some(UserId(s["user"]).value.n), Some(title), now, now);
                 && r.1 == t.(sessions := t.sessions + [c], nextSessionId := t.nextSessionId + 1)
                 && r.0.value == Ok(SessionCreated(c.id, Some(title), now))
    ensures IsAuthenticated(s) && UserId(s["user"]).Returned? && UserId(s["user"]).value.Num? ==> r.0.Returned?
  {
    match GetCurrentUser(s)
    case None => (Raised(NotAuthenticated), t)
    case Some(user) =>
      match UserId(user)
      case Raised(e) => (Raised(e), t)
      case Returned(id) =>
        match IdColumn(id)
        case Raised(e) => (Raised(e), t)
        case Returned(owner) =>
          match ChatCrud.CreateChatSession(t, owner, Some(title), now)
          case Raised(e) => (Raised(e), t)
          case Returned((c, t')) => (Returned(Ok(SessionCreated(c.id, c.title, c.createdAt))), t')
  }

  /** `get_session_messages`: after the gate, one page of the session's
      messages, newest first, labelled with the requested id. */
  function GetSessionMessages(s: Session, t: ChatTables, chatId: int, skip: int := 0,
                              limit: int := ChatCrud.SessionMessagesLimit)
    : (r: Outcome<Response<Reply>>)
    ensures Gate(s, t, chatId).Raised? ==> r == Raised(Gate(s, t, chatId).exc)
    ensures Gate(s, t, chatId).Returned? ==>
              && r.Returned? && r.value.Ok? && r.value.payload.MessageList?
              && r.value.payload.sessionId == chatId
              && r.value.payload.messages == ChatCrud.GetSessionMessages(t, chatId, skip, limit)
    ensures r.Returned? ==>
              forall m :: m in r.value.payload.messages ==> m in t.messages && m.sessionId == Some(chatId)
  {
    match Gate(s, t, chatId)
    case Raised(e) => Raised(e)
    case Returned(_) => Returned(Ok(MessageList(chatId, ChatCrud.GetSessionMessages(t, chatId, skip, limit))))
  }

  /** Ownership is enforced alike for reading and writing: a logged-in user
      whose id differs from the owner's gets 403 from both endpoints, and
      the store is left alone. */
  lemma OtherUsersAreForbidden(s: Session, t: ChatTables, chatId: int, message: string, now: int,
                                                  skip: int, limit: int)
    requires IsAuthenticated(s) && SessionExists(t, chatId)
    requires UserId(s["user"]).Returned?
    requires !SameOwner(ChatCrud.GetChatSession(t, chatId).value.userId, UserId(s["user"]).value)
    ensures SendMessage(s, t, chatId, message, now) == (Raised(NotOwner), t)
    ensures SendMessageIntended(s, t, chatId, message, now) == (Raised(NotOwner), t)
    ensures GetSessionMessages(s, t, chatId, skip, limit) == Raised(NotOwner)
    ensures Status(GetSessionMessages(s, t, chatId, skip, limit)) == Forbidden
  {
    assert Gate(s, t, chatId) == Raised(NotOwner);
  }
}
