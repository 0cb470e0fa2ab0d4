/**
 * The chat client's session store (the `App` component's state and its handlers): the list of
 * sessions, newest first, the active session, the input box, the busy flag and the webhook
 * settings. Every handler replaces the list by one of the transforms of `SessionList`.
 *
 * Asynchronous work is split into atomic steps: creating a session and the arrival of its greeting
 * are two steps, and so are the start of a send and its completion. What a completion needs from
 * the moment its send began is carried in a `PendingSend`, as the handler's closure carries it.
 * Fresh ids (`crypto.randomUUID()`), clock readings (`Date.now()`), the greeting text and the
 * webhook's answer are parameters.
 */
module ChatApp {
  import opened Common
  import opened JsText
  import opened ChatTypes
  import opened SessionList

  const DefaultWebhookUrl := "https://goodliest-refly-brian.ngrok-free.dev/web"
  const MissingUrlMessage := "n8n Webhook URL is missing. Please configure it in settings."
  const FallbackErrorText := "Something went wrong communicating with n8n."

  /** What a send captured when it began: the session it belongs to, the text sent and the webhook URL. */
  datatype PendingSend = PendingSend(sessionId: string, text: string, webhookUrl: string)

  /** The guard of a send: some non-blank input, no send in flight, and an active session. */
  predicate CanSend(inputText: string, isLoading: bool, activeSessionId: Option<string>): (b: bool)
    ensures b <==> !AllWhitespace(inputText) && !isLoading && activeSessionId.Some?
  {
    TrimEmptyIff(inputText);
    Trim(inputText) != "" && !isLoading && activeSessionId.Some?
  }

  function UserMessage(id: string, text: string, now: int): Message {
    Message(id, text, User, now, None)
  }

  function AgentMessage(id: string, text: string, now: int): Message {
    Message(id, text, Agent, now, None)
  }

  /** The system message that reports a failed send: the error's message, or a default when it has none. */
  function ErrorNotice(id: string, errorMessage: string, now: int): (m: Message)
    ensures m.sender == System && m.metadata == Some(Metadata(Some(true), None))
    ensures m.text != ""
    ensures errorMessage != "" ==> m.text == errorMessage
  {
    Message(id, if errorMessage != "" then errorMessage else FallbackErrorText, System, now, Some(Metadata(Some(true), None)))
  }

  /** Every session has a non-empty id, as `crypto.randomUUID()` produces. */
  predicate NonEmptyIds(ss: seq<ChatSession>) {
    forall i :: 0 <= i < |ss| ==> ss[i].id != ""
  }

  class ChatApp {
    var sessions: seq<ChatSession>
    var activeSessionId: Option<string>
    var inputText: string
    var isLoading: bool
    var config: N8nConfig

    /** Ids are unique and non-empty, and the active id, when set, names a session in the list. */
    ghost predicate Valid()
      reads this
    {
      UniqueIds(sessions) && NonEmptyIds(sessions)
      && (activeSessionId.Some? ==> HasId(sessions, activeSessionId.value))
    }

    /**
     * Start-up: the saved settings, or the default webhook URL; the saved sessions with the first
     * one active, or, when nothing (or an empty list) was saved, one new session, active.
     */
    constructor (saved: Option<seq<ChatSession>>, savedConfig: Option<N8nConfig>, freshId: string, now: int)
      requires saved.Some? ==> UniqueIds(saved.value) && NonEmptyIds(saved.value)
      requires freshId != ""
      ensures Valid()
      ensures config == (if savedConfig.Some? then savedConfig.value else N8nConfig(DefaultWebhookUrl))
      ensures inputText == "" && !isLoading
      ensures saved.Some? && saved.value != [] ==>
                sessions == saved.value && activeSessionId == Some(saved.value[0].id)
      ensures saved.None? || saved.value == [] ==>
                sessions == [NewSession(freshId, now)] && activeSessionId == Some(freshId)
    {
      config := if savedConfig.Some? then savedConfig.value else N8nConfig(DefaultWebhookUrl);
      inputText := "";
      isLoading := false;
      if saved.Some? && saved.value != [] {
        sessions := saved.value;
        activeSessionId := Some(saved.value[0].id);
      } else {
        sessions := [NewSession(freshId, now)];
        activeSessionId := Some(freshId);
      }
      new;
      assert sessions[0].id == activeSessionId.value;
    }

    /** `createNewSession`: a new "New Chat" session with no messages goes to the front and becomes active. */
    method CreateNewSession(freshId: string, now: int)
      requires Valid()
      requires freshId != "" && !HasId(sessions, freshId)
      modifies this
      ensures Valid()
      ensures sessions == [NewSession(freshId, now)] + old(sessions)
      ensures activeSessionId == Some(freshId)
      ensures inputText == old(inputText) && isLoading == old(isLoading) && config == old(config)
    {
      assert forall i :: 0 <= i < |sessions| ==> sessions[i].id != freshId;
      sessions := [NewSession(freshId, now)] + sessions;
      activeSessionId := Some(freshId);
      assert sessions[0].id == freshId;
    }

    /**
     * The greeting for session `sessionId` has been generated (`Some`) or failed (`None`). On success
     * the session's messages become exactly the greeting, whatever they held; on failure nothing changes.
     */
    method ReceiveGreeting(sessionId: string, greeting: Option<string>, msgId: string, now: int)
      requires Valid()
      modifies this
      ensures Valid()
      ensures greeting.Some? ==>
                sessions == ReplaceMessages(old(sessions), sessionId, [AgentMessage(msgId, greeting.value, now)])
      ensures greeting.None? ==> sessions == old(sessions)
      ensures activeSessionId == old(activeSessionId) && inputText == old(inputText)
      ensures isLoading == old(isLoading) && config == old(config)
    {
      if greeting.Some? {
        var next := ReplaceMessages(sessions, sessionId, [AgentMessage(msgId, greeting.value, now)]);
        SameIdsAgree(sessions, next);
        sessions := next;
      }
    }

    /**
     * `deleteSession`: the session leaves the list, the others keep their order; if it was the active
     * one, the first other session in list order becomes active, or none.
     */
    method DeleteSession(id: string)
      requires Valid()
      modifies this
      ensures Valid()
      ensures sessions == Remove(old(sessions), id)
      ensures activeSessionId == if old(activeSessionId) == Some(id) then FirstOtherId(old(sessions), id)
                                 else old(activeSessionId)
      ensures inputText == old(inputText) && isLoading == old(isLoading) && config == old(config)
    {
      var next := Remove(sessions, id);
      RemoveKeepsUnique(sessions, id);
      if activeSessionId == Some(id) {
        var k :| 0 <= k < |sessions| && sessions[k].id == id;
        NextActiveAfterDelete(sessions, k);
        activeSessionId := FirstOtherId(sessions, id);
      } else if activeSessionId.Some? {
        var k :| 0 <= k < |sessions| && sessions[k].id == activeSessionId.value;
        assert sessions[k] in next;
      }
      sessions := next;
    }

    /** A click on a session in the sidebar makes it active. */
    method SelectSession(id: string)
      requires Valid()
      requires HasId(sessions, id)
      modifies this
      ensures Valid()
      ensures activeSessionId == Some(id)
      ensures sessions == old(sessions) && inputText == old(inputText)
      ensures isLoading == old(isLoading) && config == old(config)
    {
      activeSessionId := Some(id);
    }

    /** Typing in the input box. */
    method SetInputText(text: string)
      requires Valid()
      modifies this
      ensures Valid()
      ensures inputText == text
      ensures sessions == old(sessions) && activeSessionId == old(activeSessionId)
      ensures isLoading == old(isLoading) && config == old(config)
    {
      inputText := text;
    }

    /** Editing the webhook URL in the settings. */
    method SetWebhookUrl(url: string)
      requires Valid()
      modifies this
      ensures Valid()
      ensures config == N8nConfig(url)
      ensures sessions == old(sessions) && activeSessionId == old(activeSessionId)
      ensures inputText == old(inputText) && isLoading == old(isLoading)
    {
      config := N8nConfig(url);
    }

    /**
     * The synchronous part of `handleSendMessage`. When the guard fails nothing changes. Otherwise one
     * user message carrying the input exactly as typed (not trimmed) is appended to the active session
     * alone, the input is cleared and the busy flag is set; the returned `PendingSend` is what the
     * completion step works with.
     */
    method BeginSend(msgId: string, now: int) returns (pending: Option<PendingSend>)
      requires Valid()
      modifies this
      ensures Valid()
      ensures pending.Some? <==> CanSend(old(inputText), old(isLoading), old(activeSessionId))
      ensures pending.None? ==>
                sessions == old(sessions) && inputText == old(inputText) && isLoading == old(isLoading)
      ensures pending.Some? ==>
                pending.value == PendingSend(old(activeSessionId).value, old(inputText), old(config).webhookUrl)
                && sessions == AppendMessage(old(sessions), pending.value.sessionId, UserMessage(msgId, old(inputText), now))
                && inputText == "" && isLoading
      ensures activeSessionId == old(activeSessionId) && config == old(config)
    {
      if !CanSend(inputText, isLoading, activeSessionId) {
        return None;
      }
      var p := PendingSend(activeSessionId.value, inputText, config.webhookUrl);
      var next := AppendMessage(sessions, p.sessionId, UserMessage(msgId, p.text, now));
      SameIdsAgree(sessions, next);
      sessions := next;
      inputText := "";
      isLoading := true;
      pending := Some(p);
    }

    /**
     * The asynchronous part of `handleSendMessage`, once the webhook has answered. `reply` is what
     * `N8nService.sendMessage` resolved to, or the message of what it threw; it is not consulted when
     * the captured URL was empty, since then no request is made. A reply is appended to the captured
     * session (which may rename it); a failure appends a system error notice to it. Either way the
     * busy flag is cleared.
     */
    method CompleteSend(p: PendingSend, reply: Result<string, string>, msgId: string, now: int)
      requires Valid()
      modifies this
      ensures Valid()
      ensures p.webhookUrl == "" ==>
                sessions == AppendMessage(old(sessions), p.sessionId, ErrorNotice(msgId, MissingUrlMessage, now))
      ensures p.webhookUrl != "" && reply.Ok? ==>
                sessions == AppendReply(old(sessions), p.sessionId, p.text, AgentMessage(msgId, reply.value, now))
      ensures p.webhookUrl != "" && reply.Err? ==>
                sessions == AppendMessage(old(sessions), p.sessionId, ErrorNotice(msgId, reply.error, now))
      ensures !isLoading
      ensures activeSessionId == old(activeSessionId) && inputText == old(inputText) && config == old(config)
    {
      var next;
      if p.webhookUrl == "" {
        next := AppendMessage(sessions, p.sessionId, ErrorNotice(msgId, MissingUrlMessage, now));
      } else if reply.Ok? {
        next := AppendReply(sessions, p.sessionId, p.text, AgentMessage(msgId, reply.value, now));
      } else {
        next := AppendMessage(sessions, p.sessionId, ErrorNotice(msgId, reply.error, now));
      }
      SameIdsAgree(sessions, next);
      sessions := next;
      isLoading := false;
    }
  }

  /**
   * A whole successful send on a fresh app: the user's message and the reply land in the new session,
   * in that order, the session is named after the message, and the app is idle again.
   */
  method SendOnFreshApp(sessionId: string, text: string, answer: string) returns (s: ChatSession)
    requires sessionId != "" && Trim(text) != ""
    ensures s.id == sessionId && s.name == TruncatedName(text)
    ensures s.messages == [UserMessage("u", text, 1), AgentMessage("a", answer, 2)]
  {
    var app := new ChatApp(None, None, sessionId, 0);
    ghost var initial := NewSession(sessionId, 0);
    assert app.sessions == [initial];
    app.SetInputText(text);
    var pending := app.BeginSend("u", 1);
    ghost var asked := initial.(messages := [UserMessage("u", text, 1)]);
    assert app.sessions[0] == asked;
    app.CompleteSend(pending.value, Ok(answer), "a", 2);
    assert app.sessions[0] == WithReply(asked, text, AgentMessage("a", answer, 2));
    s := app.sessions[0];
  }
}
