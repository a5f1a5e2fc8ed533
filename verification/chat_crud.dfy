/** The chat store of app/chat/crud.py: inserts, id lookups, and list
    queries that filter, order newest first and take one page. None of
    the queries changes the store. */
module ChatCrud {
  import opened Values
  import opened Http
  import opened ChatModels
  import opened Query

  /** The title `create_chat_session` and the endpoint default to. */
  const DefaultTitle := "New Chat"
  /** Default page sizes of `get_user_messages`, `get_user_chat_sessions`
      and `get_session_messages`; every default offset is 0. */
  const UserMessagesLimit := 100
  const SessionListLimit := 100
  const SessionMessagesLimit := 50

  /** Appends a message row: the NOT NULL columns are checked, the row gets
      the next id and the insertion instant as timestamp. */
  function InsertMessage(t: ChatTables, sessionId: Option<int>, userId: Option<int>, content: Option<string>,
                         response: Option<string>, now: int): (r: Outcome<(Message, ChatTables)>)
    ensures r.Returned? <==> sessionId.Some? && userId.Some? && content.Some? && response.Some?
    ensures r.Returned? ==>
              && r.value.0 == Message(t.nextMessageId, sessionId, userId, content, response, now)
              && r.value.1 == t.(messages := t.messages + [r.value.0], nextMessageId := t.nextMessageId + 1)
    ensures r.Raised? ==> r.exc.IntegrityError? && r.exc == IntegrityError(MessageViolation(Message(t.nextMessageId, sessionId, userId, content, response, now)).value)
  {
    var m := Message(t.nextMessageId, sessionId, userId, content, response, now);
    match MessageViolation(m)
    case Some(column) => Raised(IntegrityError(column))
    case None => Returned((m, t.(messages := t.messages + [m], nextMessageId := t.nextMessageId + 1)))
  }

  /** `create_message` as written: it takes no session id, so the row's
      NOT NULL session_id is empty and the insert is always rejected. */
  function CreateMessage(t: ChatTables, userId: Option<int>, content: Option<string>, response: Option<string>,
                         now: int): (r: Outcome<(Message, ChatTables)>)
    ensures r == Raised(IntegrityError("messages.session_id"))
  {
    InsertMessage(t, None, userId, content, response, now)
  }

  /** `create_message` with the session id it evidently needs: the text
      and reply are stored verbatim in that session, and no chat session
      changes, its `last_updated` included. */
  function CreateMessageInSession(t: ChatTables, sessionId: int, userId: int, content: string, response: string,
                                  now: int): (r: (Message, ChatTables))
    ensures r.0.sessionId == Some(sessionId) && r.0.userId == Some(userId)
    ensures r.0.content == Some(content) && r.0.response == Some(response) && r.0.timestamp == now
    ensures r.0.id == t.nextMessageId
    ensures r.1 == t.(messages := t.messages + [r.0], nextMessageId := t.nextMessageId + 1)
    ensures r.1.sessions == t.sessions
  {
    InsertMessage(t, Some(sessionId), Some(userId), Some(content), Some(response), now).value
  }

  /** A message stored in an existing session by an existing user keeps the
      schema's invariant, and no session's last_updated moves. */
  lemma CreateMessageInSessionKeepsInvariants(t: ChatTables, userIds: set<int>, sessionId: int,
                                                                 userId: int, content: string, response: string, now: int)
    requires WellFormed(t, userIds) && SessionExists(t, sessionId) && userId in userIds
    ensures WellFormed(CreateMessageInSession(t, sessionId, userId, content, response, now).1, userIds)
    ensures NeverBumped(t) ==> NeverBumped(CreateMessageInSession(t, sessionId, userId, content, response, now).1)
  {
    var (m, t') := CreateMessageInSession(t, sessionId, userId, content, response, now);
    forall i | 0 <= i < |t'.messages|
      ensures SessionExists(t', t'.messages[i].sessionId.value)
    {
      if i < |t.messages| {
        assert t'.messages[i] == t.messages[i];
        assert SessionExists(t, t.messages[i].sessionId.value);
      }
    }
  }

  function ByUser(userId: int): Message -> bool {
    (m: Message) => m.userId == Some(userId)
  }

  function InSession(sessionId: int): Message -> bool {
    (m: Message) => m.sessionId == Some(sessionId)
  }

  function OwnedBy(userId: int): ChatSession -> bool {
    (c: ChatSession) => c.userId == Some(userId)
  }

  /** `get_user_messages`: that user's messages, newest first, one page. */
  function GetUserMessages(t: ChatTables, userId: int, skip: int := 0, limit: int := UserMessagesLimit)
    : (r: seq<Message>)
    ensures forall m :: m in r ==> m in t.messages && m.userId == Some(userId)
    ensures forall i, j :: 0 <= i < j < |r| ==> r[i].timestamp >= r[j].timestamp
    ensures |r| == PageLength(|Filter(t.messages, ByUser(userId))|, skip, limit)
    ensures r == Page(SortDesc(Filter(t.messages, ByUser(userId)), Timestamp), skip, limit)
    ensures skip <= 0 && (limit < 0 || limit >= |Filter(t.messages, ByUser(userId))|) ==>
              forall m :: m in t.messages && m.userId == Some(userId) ==> m in r
  {
    var r := Listing(t.messages, ByUser(userId), Timestamp, skip, limit);
    assert forall m :: ByUser(userId)(m) <==> m.userId == Some(userId);
    r
  }

  /** `get_session_messages`: that session's messages, newest first. */
  function GetSessionMessages(t: ChatTables, sessionId: int, skip: int := 0, limit: int := SessionMessagesLimit)
    : (r: seq<Message>)
    ensures forall m :: m in r ==> m in t.messages && m.sessionId == Some(sessionId)
    ensures forall i, j :: 0 <= i < j < |r| ==> r[i].timestamp >= r[j].timestamp
    ensures |r| == PageLength(|Filter(t.messages, InSession(sessionId))|, skip, limit)
    ensures r == Page(SortDesc(Filter(t.messages, InSession(sessionId)), Timestamp), skip, limit)
    ensures skip <= 0 && (limit < 0 || limit >= |Filter(t.messages, InSession(sessionId))|) ==>
              forall m :: m in t.messages && m.sessionId == Some(sessionId) ==> m in r
  {
    var r := Listing(t.messages, InSession(sessionId), Timestamp, skip, limit);
    assert forall m :: InSession(sessionId)(m) <==> m.sessionId == Some(sessionId);
    r
  }

  /** `get_user_chat_sessions`: the user's sessions, most recently updated
      first, one page. */
  function GetUserChatSessions(t: ChatTables, userId: int, skip: int := 0, limit: int := SessionListLimit)
    : (r: seq<ChatSession>)
    ensures forall c :: c in r ==> c in t.sessions && c.userId == Some(userId)
    ensures forall i, j :: 0 <= i < j < |r| ==> r[i].lastUpdated >= r[j].lastUpdated
    ensures |r| == PageLength(|Filter(t.sessions, OwnedBy(userId))|, skip, limit)
    ensures r == Page(SortDesc(Filter(t.sessions, OwnedBy(userId)), LastUpdated), skip, limit)
    ensures skip <= 0 && (limit < 0 || limit >= |Filter(t.sessions, OwnedBy(userId))|) ==>
              forall c :: c in t.sessions && c.userId == Some(userId) ==> c in r
  {
    var r := Listing(t.sessions, OwnedBy(userId), LastUpdated, skip, limit);
    assert forall c :: OwnedBy(userId)(c) <==> c.userId == Some(userId);
    r
  }

  /** `get_message`: the message with that id, or None. */
  function GetMessage(t: ChatTables, messageId: int): (r: Option<Message>)
    ensures r.Some? ==> r.value in t.messages && r.value.id == messageId
    ensures r.None? <==> forall m :: m in t.messages ==> m.id != messageId
  {
    var i := FirstIndex(t.messages, (m: Message) => m.id == messageId);
    if i < 0 then None else Some(t.messages[i])
  }

  /** `get_chat_session`: the session with that id, or None. */
  function GetChatSession(t: ChatTables, sessionId: int): (r: Option<ChatSession>)
    ensures r.Some? ==> r.value in t.sessions && r.value.id == sessionId
    ensures r.None? <==> !SessionExists(t, sessionId)
  {
    var i := FirstIndex(t.sessions, (c: ChatSession) => c.id == sessionId);
    if i < 0 then None else Some(t.sessions[i])
  }

  /** `create_chat_session`: one new session with the given owner and
      title, created and last updated now; the other sessions and all
      messages are unchanged. A missing owner violates NOT NULL. */
  function CreateChatSession(t: ChatTables, userId: Option<int>, title: Option<string> := Some(DefaultTitle), now: int)
    : (r: Outcome<(ChatSession, ChatTables)>)
    ensures r.Returned? <==> userId.Some?
    ensures r.Raised? ==> r.exc == IntegrityError("chat_sessions.user_id")
    ensures r.Returned? ==>
              && r.value.0 == ChatSession(t.nextSessionId, userId, title, now, now)
              && r.value.1 == t.(sessions := t.sessions + [r.value.0], nextSessionId := t.nextSessionId + 1)
  {
    if userId.None? then Raised(IntegrityError("chat_sessions.user_id"))
    else
      var c := ChatSession(t.nextSessionId, userId, title, now, now);
      Returned((c, t.(sessions := t.sessions + [c], nextSessionId := t.nextSessionId + 1)))
  }

  /** A session created for an existing user keeps the schema's invariant
      and leaves every session's last_updated equal to its creation time. */
  lemma CreateChatSessionKeepsInvariants(t: ChatTables, userIds: set<int>, userId: int,
                                                            title: Option<string>, now: int)
    requires WellFormed(t, userIds) && userId in userIds
    ensures WellFormed(CreateChatSession(t, Some(userId), title, now).value.1, userIds)
    ensures NeverBumped(t) ==> NeverBumped(CreateChatSession(t, Some(userId), title, now).value.1)
  {
    var (c, t') := CreateChatSession(t, Some(userId), title, now).value;
    forall i | 0 <= i < |t'.messages|
      ensures SessionExists(t', t'.messages[i].sessionId.value)
    {
      assert t'.messages[i] == t.messages[i];
      assert SessionExists(t, t.messages[i].sessionId.value);
      var owner :| owner in t.sessions && owner.id == t.messages[i].sessionId.value;
      assert owner in t'.sessions;
    }
  }

  /** A freshly created session is listed for its owner, with
      last_updated equal to created_at, when the listing has no offset and
      room for all the owner's sessions. */
  lemma CreatedSessionIsListed(t: ChatTables, userId: int, title: Option<string>, now: int, limit: int)
    requires var t' := CreateChatSession(t, Some(userId), title, now).value.1;
             limit < 0 || limit >= |Filter(t'.sessions, OwnedBy(userId))|
    ensures var (c, t') := CreateChatSession(t, Some(userId), title, now).value;
            && c in GetUserChatSessions(t', userId, 0, limit)
            && c.title == title && c.lastUpdated == c.createdAt
  {
    var (c, t') := CreateChatSession(t, Some(userId), title, now).value;
    assert c == t'.sessions[|t.sessions|];
  }
}
