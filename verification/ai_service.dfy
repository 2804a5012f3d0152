/**
 * The parts of the AI service that keep state in the browser's storage: the per-provider API keys,
 * the report history with its migration from the old Gemini-only key, and the chat sessions; and
 * the text handling around a bank-statement request: the excerpt sent and the clean-up of the reply
 * before it is parsed as JSON.
 */
module AiService {
  import opened Wrappers
  import opened Text

  // ---------------------------------------------------------------------------------------------
  // API keys

  /** The storage entry holding a provider's key: `${provider}_api_key`. */
  function KeyEntry(provider: string): string {
    provider + "_api_key"
  }

  /** `getStoredKey(provider)`: the stored key, or the empty text when none is stored. */
  function GetStoredKey(store: map<string, string>, provider: string): (key: string)
    ensures KeyEntry(provider) !in store ==> key == ""
    ensures KeyEntry(provider) in store ==> key == store[KeyEntry(provider)]
  {
    if KeyEntry(provider) in store then store[KeyEntry(provider)] else ""
  }

  /** `setStoredKey(provider, key)`. */
  function SetStoredKey(store: map<string, string>, provider: string, key: string): (r: map<string, string>)
    ensures r.Keys == store.Keys + {KeyEntry(provider)}
  {
    store[KeyEntry(provider) := key]
  }

  /** A key that was set is the key read back, and setting one provider's key leaves every other
    * provider's key as it was. */
  lemma StoredKeyRoundTrip(store: map<string, string>, provider: string, other: string, key: string)
    requires other != provider
    ensures GetStoredKey(SetStoredKey(store, provider, key), provider) == key
    ensures GetStoredKey(SetStoredKey(store, provider, key), other) == GetStoredKey(store, other)
  {
    var eo, ep := KeyEntry(other), KeyEntry(provider);
    assert eo[..|eo| - 8] == other;
    assert ep[..|ep| - 8] == provider;
  }

  // ---------------------------------------------------------------------------------------------
  // The bank-statement request

  /** The most of a statement's text a request carries. */
  const MaxStatementChars: nat := 10000

  /** `rawText.substring(0, 10000)`: the part of the statement sent to the model. */
  function StatementExcerpt(rawText: string): (excerpt: string)
    ensures |excerpt| <= MaxStatementChars && |excerpt| <= |rawText|
    ensures excerpt == rawText[..|excerpt|]
    ensures |rawText| <= MaxStatementChars ==> excerpt == rawText
    ensures |rawText| > MaxStatementChars ==> |excerpt| == MaxStatementChars
  {
    if |rawText| <= MaxStatementChars then rawText else rawText[..MaxStatementChars]
  }

  /** The providers a statement can be sent to; any other is refused with this message. */
  predicate CanReadStatements(provider: string) {
    provider in {"gemini", "openai", "deepseek", "anthropic"}
  }

  const UnsupportedProvider: string := "Bu işlem için seçili sağlayıcı henüz desteklenmiyor."

  const Fence: string := "```"
  const JsonFence: string := "```json"

  /**
   * `text.replace(/```json\n?|\n?```/g, '')`: scanning from the left, an opening fence with its
   * language tag and at most one line break, and a closing fence with at most one line break
   * before it, are removed; every other character is kept.
   */
  function StripFences(s: string): string
    decreases |s|
  {
    if StartsWith(s, JsonFence) then
      var rest := s[7..];
      if |rest| > 0 && rest[0] == '\n' then StripFences(rest[1..]) else StripFences(rest)
    else if StartsWith(s, "\n" + Fence) then StripFences(s[4..])
    else if StartsWith(s, Fence) then StripFences(s[3..])
    else if |s| == 0 then ""
    else [s[0]] + StripFences(s[1..])
  }

  /** The reply text that is handed to `JSON.parse`: fences removed, then trimmed. */
  function CleanReply(responseText: string): string {
    Trim(StripFences(responseText))
  }

  /** Text in which no three back-ticks occur. */
  predicate FenceFree(s: string) {
    forall i :: 0 <= i <= |s| - 3 ==> !OccursAt(s, Fence, i)
  }

  lemma FenceFreeTail(body: string)
    requires |body| > 0 && FenceFree(body)
    ensures FenceFree(body[1..])
  {
    var tail := body[1..];
    forall i | 0 <= i <= |tail| - 3 ensures !OccursAt(tail, Fence, i) {
      assert tail[i..i + 3] == body[i + 1..i + 4];
      assert !OccursAt(body, Fence, i + 1);
    }
  }

  /** No fence starts at the front of fence-free text followed by a line break or nothing. */
  lemma NoFenceAtFront(body: string, t: string)
    requires |body| > 0 && FenceFree(body)
    requires t == "" || t[0] == '\n'
    ensures !StartsWith(body + t, Fence)
    ensures !StartsWith(body + t, "\n" + Fence)
  {
    var s := body + t;
    if |s| >= 3 {
      if |body| >= 3 {
        assert s[..3] == body[..3];
        assert !OccursAt(body, Fence, 0);
      } else {
        assert s[..3][|body|] == s[|body|] == t[0];
      }
    }
    if |s| >= 4 {
      if |body| >= 4 {
        assert s[..4][1..] == s[1..4] == body[1..4];
        assert !OccursAt(body, Fence, 1);
      } else {
        assert s[..4][|body|] == s[|body|] == t[0];
      }
    }
  }

  /** Where no fence starts, the first character is kept. */
  lemma StripPlain(s: string)
    requires |s| > 0 && !StartsWith(s, Fence) && !StartsWith(s, "\n" + Fence)
    ensures StripFences(s) == [s[0]] + StripFences(s[1..])
  {
  }

  lemma ConsAppend<T>(body: seq<T>, x: seq<T>)
    requires |body| > 0
    ensures [body[0]] + (body[1..] + x) == body + x
  {
    assert body == [body[0]] + body[1..];
  }

  /** Text free of fences passes through the clean-up untouched, as long as what follows it is
    * empty or starts with a line break. */
  lemma {:induction false} StripFenceFree(body: string, t: string)
    requires FenceFree(body)
    requires t == "" || t[0] == '\n'
    ensures StripFences(body + t) == body + StripFences(t)
    decreases |body|
  {
    if |body| > 0 {
      var s, tail := body + t, body[1..];
      assert s[1..] == tail + t;
      NoFenceAtFront(body, t);
      StripPlain(s);
      FenceFreeTail(body);
      StripFenceFree(tail, t);
      ConsAppend(body, StripFences(t));
    } else {
      assert body + t == t;
    }
  }

  /** A reply wrapped in a JSON code fence, as models usually answer, is reduced to its content. */
  lemma FencedReply(body: string)
    requires FenceFree(body)
    ensures CleanReply(JsonFence + "\n" + body + "\n" + Fence) == Trim(body)
  {
    var s := JsonFence + "\n" + body + "\n" + Fence;
    assert StartsWith(s, JsonFence) && s[7..][0] == '\n';
    assert s[7..][1..] == body + ("\n" + Fence);
    StripFenceFree(body, "\n" + Fence);
    assert StartsWith("\n" + Fence, "\n" + Fence);
    assert ("\n" + Fence)[4..] == "";
    assert body + "" == body;
  }

  /** A reply that is bare JSON text is only trimmed. */
  lemma PlainReply(body: string)
    requires FenceFree(body)
    ensures CleanReply(body) == Trim(body)
  {
    StripFenceFree(body, "");
    assert body + "" == body;
  }

  // ---------------------------------------------------------------------------------------------
  // Report history and chat sessions

  /** One saved report; items carried over from the old history may lack a provider. */
  datatype HistoryItem = HistoryItem(id: int, date: string, provider: Option<string>, model: string, text: string)

  datatype ChatMessage = ChatMessage(role: string, content: string)

  datatype ChatSession = ChatSession(
    id: string,
    title: string,
    messages: seq<ChatMessage>,
    provider: string,
    model: string,
    timestamp: int)

  const MaxHistory: nat := 20
  const MaxSessions: nat := 10
  const GeminiProvider: string := "gemini"

  /** `history.unshift(item)` followed by one `pop` when the list is longer than twenty. */
  function PushHistory(history: seq<HistoryItem>, item: HistoryItem): (r: seq<HistoryItem>)
    ensures |r| > 0 && r[0] == item
    ensures |history| < MaxHistory ==> r == [item] + history
    ensures |history| >= MaxHistory ==> r == [item] + history[..|history| - 1]
    ensures |history| <= MaxHistory ==> |r| <= MaxHistory
  {
    var h := [item] + history;
    if |h| > MaxHistory then h[..|h| - 1] else h
  }

  /** The old Gemini-only history tagged with its provider (`{ ...item, provider: 'gemini' }`). */
  function Migrated(legacy: seq<HistoryItem>): (r: seq<HistoryItem>)
    ensures |r| == |legacy|
    ensures forall i :: 0 <= i < |legacy| ==> r[i] == legacy[i].(provider := Some(GeminiProvider))
  {
    seq(|legacy|, i requires 0 <= i < |legacy| => legacy[i].(provider := Some(GeminiProvider)))
  }

  /** The first index of a session with the given id. */
  function FindSession(sessions: seq<ChatSession>, id: string): (r: Option<nat>)
    ensures r.Some? ==> r.value < |sessions| && sessions[r.value].id == id
                        && forall j :: 0 <= j < r.value ==> sessions[j].id != id
    ensures r.None? ==> forall j :: 0 <= j < |sessions| ==> sessions[j].id != id
  {
    if |sessions| == 0 then None
    else if sessions[0].id == id then Some(0)
    else
      match FindSession(sessions[1..], id)
      case None => None
      case Some(i) => Some(i + 1)
  }

  /** The session list after saving one: the session replaces the first one with its id in place,
    * or goes first; then only the first ten are kept. */
  function PutSession(sessions: seq<ChatSession>, session: ChatSession): (r: seq<ChatSession>)
    ensures |r| <= MaxSessions && |r| <= |sessions| + 1
    ensures |sessions| <= MaxSessions ==> session in r
    ensures FindSession(sessions, session.id).None? ==>
              |r| == (if |sessions| + 1 > MaxSessions then MaxSessions else |sessions| + 1)
              && r[0] == session && r[1..] == sessions[..|r| - 1]
    ensures FindSession(sessions, session.id).Some? ==>
              (|r| == if |sessions| > MaxSessions then MaxSessions else |sessions|)
              && forall j :: 0 <= j < |r| ==>
                   r[j] == (if j == FindSession(sessions, session.id).value then session else sessions[j])
  {
    match FindSession(sessions, session.id)
    case Some(idx) =>
      var updated := sessions[idx := session];
      var r := if |updated| > MaxSessions then updated[..MaxSessions] else updated;
      assert |sessions| <= MaxSessions ==> r[idx] == session;
      r
    case None =>
      var updated := [session] + sessions;
      var r := if |updated| > MaxSessions then updated[..MaxSessions] else updated;
      assert r[0] == session;
      assert r[1..] == sessions[..|r| - 1];
      r
  }

  /** `sessions.filter(s => s.id !== sessionId)`. */
  function WithoutSession(sessions: seq<ChatSession>, id: string): (r: seq<ChatSession>)
    ensures forall s :: s in r <==> s in sessions && s.id != id
    ensures |r| <= |sessions|
    ensures |sessions| == 1 ==> r == if sessions[0].id != id then sessions else []
  {
    if |sessions| == 0 then []
    else
      var rest := WithoutSession(sessions[1..], id);
      assert forall s :: s in sessions <==> s == sessions[0] || s in sessions[1..];
      if sessions[0].id != id then [sessions[0]] + rest else rest
  }

  /** The filter keeps the remaining sessions in their order and with their multiplicity: it
    * distributes over concatenation (and keeps or drops a single session by its id). */
  lemma {:induction false} WithoutSessionAppend(a: seq<ChatSession>, b: seq<ChatSession>, id: string)
    ensures WithoutSession(a + b, id) == WithoutSession(a, id) + WithoutSession(b, id)
  {
    if |a| > 0 {
      var head := if a[0].id != id then [a[0]] else [];
      assert (a + b)[0] == a[0] && (a + b)[1..] == a[1..] + b;
      assert WithoutSession(a + b, id) == head + WithoutSession(a[1..] + b, id);
      assert WithoutSession(a, id) == head + WithoutSession(a[1..], id);
      WithoutSessionAppend(a[1..], b, id);
    } else {
      assert a + b == b;
    }
  }

  /** The filter keeps the remaining sessions in their order: removing an id that is not there
    * changes nothing, and removing a session saved a moment ago restores the sessions before it. */
  lemma DeleteAfterSave(sessions: seq<ChatSession>, session: ChatSession)
    requires |sessions| < MaxSessions
    requires forall s :: s in sessions ==> s.id != session.id
    ensures WithoutSession(sessions, session.id) == sessions
    ensures WithoutSession(PutSession(sessions, session), session.id) == sessions
  {
    NoSuchSession(sessions, session.id);
    assert FindSession(sessions, session.id).None?;
    var r := PutSession(sessions, session);
    assert r == [session] + sessions;
    WithoutFirst(session, sessions);
  }

  lemma {:induction false} NoSuchSession(sessions: seq<ChatSession>, id: string)
    requires forall s :: s in sessions ==> s.id != id
    ensures WithoutSession(sessions, id) == sessions
  {
    if |sessions| > 0 {
      assert sessions[0] in sessions;
      assert forall s :: s in sessions[1..] ==> s in sessions;
      NoSuchSession(sessions[1..], id);
    }
  }

  lemma WithoutFirst(session: ChatSession, rest: seq<ChatSession>)
    requires forall s :: s in rest ==> s.id != session.id
    ensures WithoutSession([session] + rest, session.id) == rest
  {
    assert ([session] + rest)[1..] == rest;
    NoSuchSession(rest, session.id);
  }

  /** `createNewChatSession(provider, model)` at the moment `nowMs`. */
  function NewChatSession(provider: string, model: string, nowMs: nat): (s: ChatSession)
    ensures s.messages == [] && s.title == "New Chat" && s.provider == provider && s.model == model
    ensures s.timestamp == nowMs && s.id == NatToString(nowMs)
  {
    ChatSession(NatToString(nowMs), "New Chat", [], provider, model, nowMs)
  }

  /** Sessions created at different moments have different ids. */
  lemma NewSessionsDiffer(provider: string, model: string, a: nat, b: nat)
    requires a != b
    ensures NewChatSession(provider, model, a).id != NewChatSession(provider, model, b).id
  {
    if NatToString(a) == NatToString(b) {
      NatToStringInjective(a, b);
    }
  }

  /**
   * The browser storage the service reads and writes, one field per entry: `ai_history`, the old
   * `gemini_history`, and `ai_chat_sessions`; `None` is an entry that is not there.
   */
  class AiStore {
    var history: Option<seq<HistoryItem>>
    var legacyHistory: Option<seq<HistoryItem>>
    var sessions: Option<seq<ChatSession>>

    constructor(history: Option<seq<HistoryItem>>, legacyHistory: Option<seq<HistoryItem>>, sessions: Option<seq<ChatSession>>)
      ensures this.history == history && this.legacyHistory == legacyHistory && this.sessions == sessions
    {
      this.history := history;
      this.legacyHistory := legacyHistory;
      this.sessions := sessions;
    }

    /** `saveToHistory(text, model, provider)` at the moment `nowMs` (`isoDate` is its ISO text). */
    method SaveToHistory(text: string, model: string, provider: string, nowMs: int, isoDate: string)
      modifies this
      ensures history == Some(PushHistory(old(history).GetOr([]), HistoryItem(nowMs, isoDate, Some(provider), model, text)))
      ensures legacyHistory == old(legacyHistory) && sessions == old(sessions)
    {
      var h := history.GetOr([]);
      history := Some(PushHistory(h, HistoryItem(nowMs, isoDate, Some(provider), model, text)));
    }

    /** `loadHistory()`: the current history; failing that, the old one, tagged as Gemini's, moved to
      * the current entry; failing that, nothing. */
    method LoadHistory() returns (items: seq<HistoryItem>)
      modifies this
      ensures old(history).Some? ==> items == old(history).value && history == old(history) && legacyHistory == old(legacyHistory)
      ensures old(history).None? && old(legacyHistory).Some? ==>
                items == Migrated(old(legacyHistory).value) && history == Some(items) && legacyHistory == None
      ensures old(history).None? && old(legacyHistory).None? ==> items == [] && history == None && legacyHistory == None
      ensures sessions == old(sessions)
    {
      if history.Some? {
        return history.value;
      }
      if legacyHistory.Some? {
        items := Migrated(legacyHistory.value);
        history := Some(items);
        legacyHistory := None;
        return;
      }
      items := [];
    }

    /** `loadChatSessions()`. */
    function LoadChatSessions(): seq<ChatSession>
      reads this
    {
      sessions.GetOr([])
    }

    /** `saveChatSession(session)`. */
    method SaveChatSession(session: ChatSession)
      modifies this
      ensures sessions == Some(PutSession(old(LoadChatSessions()), session))
      ensures history == old(history) && legacyHistory == old(legacyHistory)
    {
      sessions := Some(PutSession(LoadChatSessions(), session));
    }

    /** `deleteChatSession(sessionId)`. */
    method DeleteChatSession(sessionId: string)
      modifies this
      ensures sessions == Some(WithoutSession(old(LoadChatSessions()), sessionId))
      ensures history == old(history) && legacyHistory == old(legacyHistory)
    {
      sessions := Some(WithoutSession(LoadChatSessions(), sessionId));
    }
  }
}
