/** The `messages` and `chat_sessions` tables of app/chat/models.py. One
    message row holds both the user's text and the reply. Timestamps are
    set from the clock when a row is inserted, and no column is ever
    updated afterwards. */
module ChatModels {
  import opened Values

  datatype Message = Message(id: int, sessionId: Option<int>, userId: Option<int>,
                             content: Option<string>, response: Option<string>, timestamp: int)

  datatype ChatSession = ChatSession(id: int, userId: Option<int>, title: Option<string>,
                                     createdAt: int, lastUpdated: int)

  /** Both tables in insertion order, with the ids the next inserts receive. */
  datatype ChatTables = ChatTables(sessions: seq<ChatSession>, messages: seq<Message>,
                                   nextSessionId: int, nextMessageId: int)

  function Timestamp(m: Message): int {
    m.timestamp
  }

  function LastUpdated(c: ChatSession): int {
    c.lastUpdated
  }

  /** The NOT NULL column a message row leaves empty, if any. */
  function MessageViolation(m: Message): (r: Option<string>)
    ensures r.None? <==> m.sessionId.Some? && m.userId.Some? && m.content.Some? && m.response.Some?
  {
    if m.sessionId.None? then Some("messages.session_id")
    else if m.userId.None? then Some("messages.user_id")
    else if m.content.None? then Some("messages.content")
    else if m.response.None? then Some("messages.response")
    else None
  }

  predicate SessionExists(t: ChatTables, id: int) {
    exists c :: c in t.sessions && c.id == id
  }

  /** The schema's invariant over the users whose ids are `userIds`: ids
      below the next id and distinct; owners and authors present and
      referring to existing users; each message in an existing session and
      with content and reply. The title may be missing. */
  ghost predicate WellFormed(t: ChatTables, userIds: set<int>) {
    && (forall i :: 0 <= i < |t.sessions| ==>
          && t.sessions[i].id < t.nextSessionId
          && t.sessions[i].userId.Some? && t.sessions[i].userId.value in userIds)
    && (forall i, j :: 0 <= i < j < |t.sessions| ==> t.sessions[i].id != t.sessions[j].id)
    && (forall i :: 0 <= i < |t.messages| ==>
          && t.messages[i].id < t.nextMessageId
          && MessageViolation(t.messages[i]).None?
          && SessionExists(t, t.messages[i].sessionId.value)
          && t.messages[i].userId.value in userIds)
    && (forall i, j :: 0 <= i < j < |t.messages| ==> t.messages[i].id != t.messages[j].id)
  }

  /** Nothing ever advances `last_updated`: every session still carries
      its creation instant there. */
  ghost predicate NeverBumped(t: ChatTables) {
    forall c :: c in t.sessions ==> c.lastUpdated == c.createdAt
  }
}
