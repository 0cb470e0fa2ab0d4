/**
 * The pure list transforms the chat client applies to its session list (newest session first):
 * prepend, map-by-id, filter-by-id, find, and the naming rule applied when a reply arrives.
 * Each state update of the client replaces the list by one of these.
 */
module SessionList {
  import opened Common
  import opened ChatTypes

  const NewChatName := "New Chat"
  const NameLimit := 30
  const Ellipsis := "..."

  predicate HasId(ss: seq<ChatSession>, id: string) {
    exists i :: 0 <= i < |ss| && ss[i].id == id
  }

  /** No two sessions share an id. */
  predicate UniqueIds(ss: seq<ChatSession>) {
    forall i, j :: 0 <= i < j < |ss| ==> ss[i].id != ss[j].id
  }

  /** The messages of the session with this id, if there is one. */
  function MessagesOf(ss: seq<ChatSession>, id: string): Option<seq<Message>>
    decreases |ss|
  {
    if ss == [] then None
    else if ss[0].id == id then Some(ss[0].messages)
    else MessagesOf(ss[1..], id)
  }

  /** A fresh session: named "New Chat", with no messages. */
  function NewSession(id: string, now: int): (s: ChatSession)
    ensures s.id == id && s.name == NewChatName && s.messages == [] && s.createdAt == now
  {
    ChatSession(id, NewChatName, [], now)
  }

  /** `list.map(s => s.id === id ? f(s) : s)`: the sessions with this id are rewritten, the rest kept. */
  function MapWhere(ss: seq<ChatSession>, id: string, f: ChatSession -> ChatSession): (r: seq<ChatSession>)
    ensures |r| == |ss|
    ensures forall i :: 0 <= i < |ss| ==> r[i] == (if ss[i].id == id then f(ss[i]) else ss[i])
    decreases |ss|
  {
    if ss == [] then []
    else [if ss[0].id == id then f(ss[0]) else ss[0]] + MapWhere(ss[1..], id, f)
  }

  /** The two lists hold sessions with the same ids, position by position. */
  predicate SameIds(a: seq<ChatSession>, b: seq<ChatSession>) {
    |a| == |b| && forall i :: 0 <= i < |a| ==> a[i].id == b[i].id
  }

  /** `messages: [...s.messages, m]` on the session with this id; every other session is kept. */
  function AppendMessage(ss: seq<ChatSession>, id: string, m: Message): (r: seq<ChatSession>)
    ensures SameIds(ss, r)
    ensures forall i :: 0 <= i < |ss| && ss[i].id != id ==> r[i] == ss[i]
    ensures forall i :: 0 <= i < |ss| && ss[i].id == id ==> r[i] == ss[i].(messages := ss[i].messages + [m])
  {
    MapWhere(ss, id, (s: ChatSession) => s.(messages := s.messages + [m]))
  }

  /** `messages: msgs` on the session with this id, replacing its messages; every other session is kept. */
  function ReplaceMessages(ss: seq<ChatSession>, id: string, msgs: seq<Message>): (r: seq<ChatSession>)
    ensures SameIds(ss, r)
    ensures forall i :: 0 <= i < |ss| && ss[i].id != id ==> r[i] == ss[i]
    ensures forall i :: 0 <= i < |ss| && ss[i].id == id ==> r[i] == ss[i].(messages := msgs)
  {
    MapWhere(ss, id, (s: ChatSession) => s.(messages := msgs))
  }

  /**
   * The name a session takes from a message: its first 30 characters, followed by "..." when the
   * message is longer than that.
   */
  function TruncatedName(text: string): (r: string)
    ensures |r| <= NameLimit + |Ellipsis|
    ensures |text| <= NameLimit ==> r == text
    ensures |text| > NameLimit ==>
              |r| == NameLimit + |Ellipsis| && r[..NameLimit] == text[..NameLimit] && r[NameLimit..] == Ellipsis
  {
    var n := if |text| < NameLimit then |text| else NameLimit;
    text[..n] + (if |text| > NameLimit then Ellipsis else "")
  }

  /** Whether a reply renames its session: it is still "New Chat", or it held at most one message. */
  predicate RenamesOnReply(s: ChatSession) {
    s.name == NewChatName || |s.messages| <= 1
  }

  /** A session after the agent's reply `m` to the user's `userText`: one more message, maybe a new name. */
  function WithReply(s: ChatSession, userText: string, m: Message): (r: ChatSession)
    ensures r.id == s.id && r.createdAt == s.createdAt
    ensures r.messages == s.messages + [m]
    ensures r.name == (if RenamesOnReply(s) then TruncatedName(userText) else s.name)
  {
    var name := if RenamesOnReply(s) then TruncatedName(userText) else s.name;
    s.(messages := s.messages + [m], name := name)
  }

  /** The reply arriving for the session with this id; every other session is kept. */
  function AppendReply(ss: seq<ChatSession>, id: string, userText: string, m: Message): (r: seq<ChatSession>)
    ensures SameIds(ss, r)
    ensures forall i :: 0 <= i < |ss| && ss[i].id != id ==> r[i] == ss[i]
    ensures forall i :: 0 <= i < |ss| && ss[i].id == id ==> r[i] == WithReply(ss[i], userText, m)
  {
    MapWhere(ss, id, (s: ChatSession) => WithReply(s, userText, m))
  }

  /** `list.filter(s => s.id !== id)`. */
  function Remove(ss: seq<ChatSession>, id: string): (r: seq<ChatSession>)
    ensures |r| <= |ss|
    ensures forall s :: s in r <==> s in ss && s.id != id
    decreases |ss|
  {
    if ss == [] then []
    else if ss[0].id == id then Remove(ss[1..], id)
    else [ss[0]] + Remove(ss[1..], id)
  }

  /** The position of the first session whose id differs from `id`, or `|ss|` when there is none. */
  function FirstOtherIndex(ss: seq<ChatSession>, id: string): (i: nat)
    ensures i <= |ss|
    ensures forall j :: 0 <= j < i ==> ss[j].id == id
    ensures i < |ss| ==> ss[i].id != id
    decreases |ss|
  {
    if ss == [] || ss[0].id != id then 0 else 1 + FirstOtherIndex(ss[1..], id)
  }

  /** `list.find(s => s.id !== id)?.id`: the id of the first session in list order that is not `id`. */
  function FirstOtherId(ss: seq<ChatSession>, id: string): (r: Option<string>)
    ensures r.None? <==> forall j :: 0 <= j < |ss| ==> ss[j].id == id
    ensures r.Some? ==> r.value != id && HasId(ss, r.value)
    ensures r.Some? ==> exists i :: 0 <= i < |ss| && ss[i].id == r.value && forall j :: 0 <= j < i ==> ss[j].id == id
  {
    var i := FirstOtherIndex(ss, id);
    if i < |ss| then Some(ss[i].id) else None
  }

  /** Lists with the same ids position by position agree on which ids occur and on their uniqueness. */
  lemma SameIdsAgree(a: seq<ChatSession>, b: seq<ChatSession>)
    requires SameIds(a, b)
    ensures UniqueIds(a) <==> UniqueIds(b)
    ensures forall x :: HasId(a, x) <==> HasId(b, x)
  {
    forall x | HasId(a, x) ensures HasId(b, x) {
      var i :| 0 <= i < |a| && a[i].id == x;
      assert b[i].id == x;
    }
    forall x | HasId(b, x) ensures HasId(a, x) {
      var i :| 0 <= i < |b| && b[i].id == x;
      assert a[i].id == x;
    }
  }

  /** Filtering keeps the ids unique. */
  lemma {:induction false} RemoveKeepsUnique(ss: seq<ChatSession>, id: string)
    requires UniqueIds(ss)
    ensures UniqueIds(Remove(ss, id))
    decreases |ss|
  {
    if ss != [] {
      RemoveKeepsUnique(ss[1..], id);
      var rest := Remove(ss[1..], id);
      forall i | 0 <= i < |rest| ensures rest[i].id != ss[0].id {
        assert rest[i] in ss[1..];
      }
    }
  }

  /**
   * Appending to a session whose id is unique changes that session alone, by exactly the one
   * message, and leaves every other session as it was.
   */
  lemma AppendMessageAt(ss: seq<ChatSession>, k: nat, m: Message)
    requires UniqueIds(ss) && k < |ss|
    ensures var r := AppendMessage(ss, ss[k].id, m);
      |r| == |ss| && r[k] == ss[k].(messages := ss[k].messages + [m])
      && (forall i :: 0 <= i < |ss| && i != k ==> r[i] == ss[i])
      && MessagesOf(r, ss[k].id) == Some(ss[k].messages + [m])
  {
    var id := ss[k].id;
    var r := AppendMessage(ss, id, m);
    MessagesOfAt(r, k);
  }

  /** In a list with unique ids, the messages of the session at position k are those of `MessagesOf`. */
  lemma {:induction false} MessagesOfAt(ss: seq<ChatSession>, k: nat)
    requires k < |ss|
    requires forall j :: 0 <= j < k ==> ss[j].id != ss[k].id
    ensures MessagesOf(ss, ss[k].id) == Some(ss[k].messages)
    decreases k
  {
    if k > 0 {
      MessagesOfAt(ss[1..], k - 1);
    }
  }

  /**
   * One complete successful exchange on the session at position k: the user's message and then
   * the agent's reply are appended, in that order, and nothing else is added to that session.
   */
  lemma SendRoundAppendsPair(ss: seq<ChatSession>, k: nat, u: Message, a: Message)
    requires UniqueIds(ss) && k < |ss|
    ensures var id := ss[k].id;
      MessagesOf(AppendReply(AppendMessage(ss, id, u), id, u.text, a), id) == Some(ss[k].messages + [u, a])
  {
    var id := ss[k].id;
    var r1 := AppendMessage(ss, id, u);
    AppendMessageAt(ss, k, u);
    var r2 := AppendReply(r1, id, u.text, a);
    assert r2[k].messages == ss[k].messages + [u] + [a] == ss[k].messages + [u, a];
    assert r2[k].id == id;
    assert forall j :: 0 <= j < k ==> r2[j].id == ss[j].id;
    MessagesOfAt(r2, k);
  }

  /**
   * A fresh session (no messages, or just the greeting) is named after the first message sent in
   * it; a second successful exchange keeps that name unless the name happens to read "New Chat".
   */
  lemma FirstExchangeNamesSession(s: ChatSession, u1: Message, a1: Message, u2: Message, a2: Message)
    requires s.name == NewChatName && |s.messages| <= 1
    ensures var s1 := WithReply(s.(messages := s.messages + [u1]), u1.text, a1);
      s1.name == TruncatedName(u1.text)
      && (TruncatedName(u1.text) != NewChatName ==>
            WithReply(s1.(messages := s1.messages + [u2]), u2.text, a2).name == s1.name)
  {
  }

  /** A 44-character request names its session with its first 30 characters and "...". */
  lemma TruncatedNameExample()
    ensures TruncatedName("Please reschedule my 3pm meeting to tomorrow") == "Please reschedule my 3pm meeti..."
  {
    var t := "Please reschedule my 3pm meeting to tomorrow";
    assert t[..NameLimit] == "Please reschedule my 3pm meeti";
  }

  /**
   * Removing an id that occurs once, at position k, keeps every other session in order: the result
   * is the list with position k cut out.
   */
  lemma {:induction false} RemoveAt(ss: seq<ChatSession>, k: nat)
    requires UniqueIds(ss) && k < |ss|
    ensures Remove(ss, ss[k].id) == ss[..k] + ss[k + 1..]
    decreases k
  {
    var id := ss[k].id;
    var tail := ss[1..];
    UniqueIdsTail(ss);
    if k == 0 {
      RemoveAbsent(tail, id);
    } else {
      assert tail[k - 1] == ss[k];
      RemoveAt(tail, k - 1);
      CutAfterHead(ss, k);
    }
  }

  /** Cutting position k > 0 out of a list is keeping its head and cutting position k - 1 out of its tail. */
  lemma CutAfterHead(ss: seq<ChatSession>, k: nat)
    requires 0 < k < |ss|
    ensures [ss[0]] + (ss[1..][..k - 1] + ss[1..][k..]) == ss[..k] + ss[k + 1..]
  {
    assert ss[1..][..k - 1] == ss[1..k] && ss[1..][k..] == ss[k + 1..];
    assert ss[..k] == [ss[0]] + ss[1..k];
  }

  /** The sessions after the first have unique ids, and none of them has the first one's id. */
  lemma UniqueIdsTail(ss: seq<ChatSession>)
    requires UniqueIds(ss) && ss != []
    ensures UniqueIds(ss[1..])
    ensures forall i :: 1 <= i < |ss| ==> ss[i].id != ss[0].id
  {
  }

  /** Removing an id that does not occur changes nothing. */
  lemma {:induction false} RemoveAbsent(ss: seq<ChatSession>, id: string)
    requires forall i :: 0 <= i < |ss| ==> ss[i].id != id
    ensures Remove(ss, id) == ss
    decreases |ss|
  {
    if ss != [] {
      RemoveAbsent(ss[1..], id);
    }
  }

  /**
   * The session activated after deleting the active session at position k: the first other session
   * in list order, which is the head of the list unless the head is the deleted one, and nothing
   * when it was the only session. Whatever it is, it survives the deletion.
   */
  lemma NextActiveAfterDelete(ss: seq<ChatSession>, k: nat)
    requires UniqueIds(ss) && k < |ss|
    ensures var next := FirstOtherId(ss, ss[k].id);
      next == (if k > 0 then Some(ss[0].id) else if |ss| > 1 then Some(ss[1].id) else None)
      && (next.Some? ==> HasId(Remove(ss, ss[k].id), next.value))
  {
    var id := ss[k].id;
    var next := FirstOtherId(ss, id);
    if k == 0 && |ss| > 1 {
      assert FirstOtherIndex(ss, id) == 1;
    }
    if next.Some? {
      var i := FirstOtherIndex(ss, id);
      assert ss[i] in Remove(ss, id);
      var r := Remove(ss, id);
      var j :| 0 <= j < |r| && r[j] == ss[i];
      assert r[j].id == next.value;
    }
  }
}
