/** The study assistant (app/dashboard/chatbot/page.tsx): which session is
    restored, loading a session, sending a message with its optimistic
    placeholder, starting a new chat, switching sessions and shortening
    previews. Clock readings are inputs: `now` stands for the ISO time of
    `new Date()` and `stamp` for `Date.now()`. */
module Chatbot {
  import opened Wrappers
  import opened Text
  import opened Collections
  import opened Browser

  datatype Message = Message(id: string, content: string, message_type: string, timestamp: string)

  datatype SessionItem = SessionItem(id: string, title: string)

  /** A session as the server returns it; `messages` may be missing. */
  datatype SessionData = SessionData(id: string, title: string, messages: Option<seq<Message>>)

  /** The reply to a sent message: the stored user message and the answer. */
  datatype SendResult = SendResult(user_message: Message, bot_response: Message)

  const SessionKey := "currentChatSessionId"
  const Greeting := "Hello! I'm your AI learning assistant. How can I help you today?"
  const HistoryFailed := "Failed to load chat history"
  const SendFailed := "Failed to send message. Please try again."
  const TempPrefix := "temp-"

  function Welcome(now: string): Message {
    Message("welcome", Greeting, "bot", now)
  }

  // ---------------------------------------------------------------------
  // Which session to restore
  // ---------------------------------------------------------------------

  function HasId(id: string): SessionItem -> bool {
    (s: SessionItem) => s.id == id
  }

  /** The session `loadSessions` opens: the saved one when it is still in the
      list, otherwise the most recent (the first), otherwise none. */
  function SessionToRestore(sessions: seq<SessionItem>, saved: Option<string>): (r: Option<string>)
    ensures r.Some? <==> sessions != []
    ensures (saved.Some? && saved.value != "" && exists i :: 0 <= i < |sessions| && sessions[i].id == saved.value) ==>
      r == saved
    ensures (sessions != [] &&
      (saved.None? || saved.value == "" || forall i :: 0 <= i < |sessions| ==> sessions[i].id != saved.value)) ==>
      r == Some(sessions[0].id)
  {
    var found := if saved.Some? && Truthy(saved.value) then Find(sessions, HasId(saved.value)) else None;
    if found.Some? then Some(found.value.id)
    else if |sessions| > 0 then Some(sessions[0].id)
    else None
  }

  /** Whatever is restored is one of the listed sessions. */
  lemma RestoredIsListed(sessions: seq<SessionItem>, saved: Option<string>)
    ensures SessionToRestore(sessions, saved).Some? ==>
      exists i :: 0 <= i < |sessions| && sessions[i].id == SessionToRestore(sessions, saved).value
  {
    var r := SessionToRestore(sessions, saved);
    if r.Some? {
      if saved.Some? && saved.value != "" && exists i :: 0 <= i < |sessions| && sessions[i].id == saved.value {
      } else {
        assert sessions[0].id == r.value;
      }
    }
  }

  // ---------------------------------------------------------------------
  // Placeholders
  // ---------------------------------------------------------------------

  /** `msg.id.startsWith('temp-')`. */
  predicate IsTemp(m: Message) {
    IsPrefix(TempPrefix, m.id)
  }

  function NotTemp(): Message -> bool {
    (m: Message) => !IsTemp(m)
  }

  function OtherId(id: string): Message -> bool {
    (m: Message) => m.id != id
  }

  /** The placeholder shown while a message is on its way. */
  function Placeholder(stamp: nat, content: string, now: string): (r: Message)
    ensures IsTemp(r) && r.content == content && r.message_type == "user"
  {
    var r := Message(TempPrefix + IntToString(stamp), content, "user", now);
    assert r.id[..|TempPrefix|] == TempPrefix;
    r
  }

  /** When no earlier message has the placeholder's id, replacing it keeps
      the earlier messages in order and puts the server's pair at the end. */
  lemma ReplacePlaceholder(prev: seq<Message>, temp: Message)
    requires forall i :: 0 <= i < |prev| ==> prev[i].id != temp.id
    ensures Filter(prev + [temp], OtherId(temp.id)) == prev
  {
    var keep := OtherId(temp.id);
    FilterAppend(prev, [temp], keep);
    forall i | 0 <= i < |prev| ensures keep(prev[i]) {
    }
    FilterAll(prev, keep);
    assert [temp][1..] == [];
    assert !keep(temp);
    assert Filter([temp], keep) == Filter([temp][1..], keep) == [];
    assert prev + [] == prev;
  }

  /** A failure drops the placeholder with every other temporary message,
      and keeps the rest in order. */
  lemma FailureDropsPlaceholders(prev: seq<Message>, temp: Message)
    requires IsTemp(temp)
    ensures Filter(prev + [temp], NotTemp()) == Filter(prev, NotTemp())
    ensures forall m :: m in Filter(prev + [temp], NotTemp()) ==> m in prev && !IsTemp(m)
  {
    FilterAppend(prev, [temp], NotTemp());
    assert Filter([temp], NotTemp()) == [];
    assert Filter(prev, NotTemp()) + [] == Filter(prev, NotTemp());
    var r := Filter(prev, NotTemp());
    forall m | m in r ensures m in prev && !IsTemp(m) {
      var k :| 0 <= k < |r| && r[k] == m;
    }
  }

  // ---------------------------------------------------------------------
  // Input and previews
  // ---------------------------------------------------------------------

  /** `!inputMessage.trim()`: the input holds only white space. */
  predicate Blank(input: string) {
    Trim(input) == ""
  }

  lemma BlankMeansSpaces(input: string)
    ensures Blank(input) <==> forall i :: 0 <= i < |input| ==> IsSpace(input[i])
  {
    BlankIffAllSpace(input);
  }

  /** Ideographic spaces (U+3000) are white space to `trim`: an input of
      them is blank and leaves the send button disabled. */
  lemma IdeographicSpaceBlank()
    ensures Blank("\U{3000}\U{3000}") && SendDisabled(false, "\U{3000}")
  {
    BlankIffAllSpace("\U{3000}\U{3000}");
    BlankIffAllSpace("\U{3000}");
  }

  /** The send button: disabled while a message is on its way and while the
      input is blank. */
  function SendDisabled(isLoading: bool, input: string): (r: bool)
    ensures !r <==> !isLoading && exists i :: 0 <= i < |input| && !IsSpace(input[i])
  {
    BlankIffAllSpace(input);
    isLoading || Blank(input)
  }

  /** `truncateText(text, maxLength)` on the UTF-16 code units that
      `length` and `substring` count: text longer than the limit is cut to
      the limit and marked with "...". */
  function TruncateText(text: seq<CodeUnit>, maxLength: nat): (r: seq<CodeUnit>)
    ensures |text| <= maxLength ==> r == text
    ensures |text| > maxLength ==>
      |r| == maxLength + 3 && r[..maxLength] == text[..maxLength] && r[maxLength..] == Utf16("...")
  {
    if |text| > maxLength then text[..maxLength] + Utf16("...") else text
  }

  /** The preview under a session: its latest message cut at 50 units. */
  function Preview(latest: Message): seq<CodeUnit> {
    TruncateText(Utf16(latest.content), 50)
  }

  /** Shortening twice is shortening once. */
  lemma TruncateIdempotent(text: seq<CodeUnit>, maxLength: nat)
    ensures TruncateText(TruncateText(text, maxLength), maxLength) == TruncateText(text, maxLength)
  {
    if |text| > maxLength {
      var r := TruncateText(text, maxLength);
      assert r == r[..maxLength] + r[maxLength..];
    }
  }

  /** For text below U+10000 units and characters coincide: the preview is
      the first `maxLength` characters and "...". */
  lemma TruncateInBmp(text: string, maxLength: nat)
    requires InBmp(text)
    ensures TruncateText(Utf16(text), maxLength) ==
      Utf16(if |text| > maxLength then text[..maxLength] + "..." else text)
  {
    Utf16InBmp(text);
    if |text| > maxLength {
      var head := text[..maxLength];
      assert InBmp(head);
      Utf16InBmp(head);
      assert Utf16(text)[..maxLength] == Utf16(head);
      Utf16Append(head, "...");
    }
  }

  /** Emoji take two units each: more than half the limit of them is cut
      after `maxLength / 2` of them (30 emoji under 50 keep 25). */
  lemma TruncateAllAstral(text: string, maxLength: nat)
    requires AllAstral(text) && maxLength % 2 == 0 && 2 * |text| > maxLength
    ensures TruncateText(Utf16(text), maxLength) == Utf16(text[..maxLength / 2] + "...")
  {
    var head := text[..maxLength / 2];
    Utf16AllAstral(text, maxLength / 2);
    Utf16Append(head, "...");
    assert Utf16(text)[..maxLength] == Utf16(head);
  }

  /** An odd limit inside emoji text cuts a surrogate pair: the last unit
      kept is a lone high surrogate. */
  lemma TruncateSplitsPair(text: string, maxLength: nat)
    requires AllAstral(text) && maxLength % 2 == 1 && 2 * |text| > maxLength
    ensures |Utf16(text)| == 2 * |text| &&
      0xD800 <= TruncateText(Utf16(text), maxLength)[maxLength - 1] < 0xDC00
  {
    var k := maxLength / 2;
    Utf16AllAstral(text, k);
    Utf16Append(text[..k], text[k..]);
    assert text == text[..k] + text[k..];
    assert Utf16(text[k..]) == UnitsOf(text[k]) + Utf16(text[k + 1..]);
    assert Utf16(text)[maxLength - 1] == UnitsOf(text[k])[0];
  }

  // ---------------------------------------------------------------------
  // The page
  // ---------------------------------------------------------------------

  class Page {
    var messages: seq<Message>
    var inputMessage: string
    var isLoading: bool
    var currentSessionId: Option<string>
    var currentSessionTitle: string
    var error: Option<string>
    var sessions: seq<SessionItem>
    var isLoadingSessions: bool

    constructor()
      ensures messages == [] && inputMessage == "" && !isLoading && currentSessionId.None?
      ensures currentSessionTitle == "" && error.None? && sessions == [] && isLoadingSessions
    {
      messages, inputMessage, isLoading, currentSessionId := [], "", false, None;
      currentSessionTitle, error, sessions, isLoadingSessions := "", None, [], true;
    }

    /** `!currentSessionId`. */
    predicate NoSession()
      reads this
    {
      currentSessionId.None? || currentSessionId.value == ""
    }

    /** `loadSessionMessages(id)` given the reply: the session becomes
        current and is remembered in storage only once it has loaded. Each
        reply here is the outcome after the shared client; its storage
        effects on a 401 (`ApiClient.OnError`) are not part of these steps. */
    method LoadSessionMessages(w: Window, sessionId: string, reply: Reply<SessionData>)
      modifies this`currentSessionId, this`currentSessionTitle, this`messages, this`error, w
      ensures reply.Ok? ==>
        currentSessionId == Some(sessionId) && currentSessionTitle == reply.data.title &&
        messages == reply.data.messages.GetOr([]) && w.storage == old(w.storage)[SessionKey := sessionId] &&
        error == old(error)
      ensures reply.Err? ==>
        error == Some(HistoryFailed) && w.storage == old(w.storage) &&
        unchanged(this`currentSessionId, this`currentSessionTitle, this`messages)
      ensures w.location == old(w.location)
    {
      match reply {
        case Ok(data) =>
          currentSessionId := Some(sessionId);
          currentSessionTitle := data.title;
          messages := data.messages.GetOr([]);
          w.SetItem(SessionKey, sessionId);
        case Err(_, _) =>
          error := Some(HistoryFailed);
      }
    }

    /** `loadSessions` given the reply to the list request and the reply to
        the request for the session it picks. */
    method LoadSessions(w: Window, now: string, reply: Reply<seq<SessionItem>>, detail: Reply<SessionData>)
      modifies this`sessions, this`isLoadingSessions, this`currentSessionId, this`currentSessionTitle,
        this`messages, this`error, w
      ensures !isLoadingSessions && w.location == old(w.location)
      ensures reply.Err? ==>
        messages == [Welcome(now)] && w.storage == old(w.storage) &&
        unchanged(this`sessions, this`currentSessionId, this`currentSessionTitle, this`error)
      ensures reply.Ok? ==> sessions == reply.data
      ensures reply.Ok? && SessionToRestore(reply.data, Lookup(old(w.storage), SessionKey)).None? ==>
        messages == [Welcome(now)] && w.storage == old(w.storage) &&
        unchanged(this`currentSessionId, this`currentSessionTitle, this`error)
      ensures reply.Ok? && SessionToRestore(reply.data, Lookup(old(w.storage), SessionKey)).Some? && detail.Ok? ==>
        currentSessionId == SessionToRestore(reply.data, Lookup(old(w.storage), SessionKey)) &&
        messages == detail.data.messages.GetOr([]) &&
        w.storage == old(w.storage)[SessionKey := currentSessionId.value]
      ensures reply.Ok? && SessionToRestore(reply.data, Lookup(old(w.storage), SessionKey)).Some? && detail.Err? ==>
        error == Some(HistoryFailed) && w.storage == old(w.storage) &&
        unchanged(this`currentSessionId, this`currentSessionTitle, this`messages)
    {
      isLoadingSessions := true;
      match reply {
        case Ok(list) =>
          sessions := list;
          var saved := w.GetItem(SessionKey);
          var pick := SessionToRestore(list, saved);
          if pick.Some? {
            LoadSessionMessages(w, pick.value, detail);
          } else {
            messages := [Welcome(now)];
          }
        case Err(_, _) =>
          messages := [Welcome(now)];
      }
      isLoadingSessions := false;
    }

    /** `handleSendMessage` given the clock readings and the reply to the
        request it makes: `created` when there is no session yet, `sent`
        otherwise. The session list reload it starts without waiting is not
        part of this step. */
    method HandleSendMessage(w: Window, stamp: nat, now: string, created: Reply<SessionData>, sent: Reply<SendResult>)
      modifies this`messages, this`inputMessage, this`isLoading, this`error, this`currentSessionId,
        this`currentSessionTitle, w
      ensures Blank(old(inputMessage)) ==>
        unchanged(this`messages, this`inputMessage, this`isLoading, this`error, this`currentSessionId,
          this`currentSessionTitle) && w.storage == old(w.storage)
      ensures !Blank(old(inputMessage)) ==> !isLoading
      ensures w.location == old(w.location)
      // A first message opens a session.
      ensures !Blank(old(inputMessage)) && old(NoSession()) && created.Ok? ==>
        currentSessionId == Some(created.data.id) && currentSessionTitle == created.data.title &&
        messages == (if created.data.messages.Some? && created.data.messages.value != []
                     then created.data.messages.value else old(messages)) &&
        w.storage == old(w.storage)[SessionKey := created.data.id] &&
        inputMessage == "" && error.None?
      ensures !Blank(old(inputMessage)) && old(NoSession()) && created.Err? ==>
        messages == Filter(old(messages), NotTemp()) && error == Some(SendFailed) &&
        inputMessage == old(inputMessage) && w.storage == old(w.storage) &&
        unchanged(this`currentSessionId, this`currentSessionTitle)
      // Later messages go through a placeholder.
      ensures !Blank(old(inputMessage)) && !old(NoSession()) && sent.Ok? ==>
        messages == Filter(old(messages) + [Placeholder(stamp, old(inputMessage), now)],
                           OtherId(Placeholder(stamp, old(inputMessage), now).id))
          + [sent.data.user_message, sent.data.bot_response] &&
        inputMessage == "" && error.None? && w.storage == old(w.storage) &&
        unchanged(this`currentSessionId, this`currentSessionTitle)
      ensures !Blank(old(inputMessage)) && !old(NoSession()) && sent.Err? ==>
        messages == Filter(old(messages) + [Placeholder(stamp, old(inputMessage), now)], NotTemp()) &&
        error == Some(SendFailed) && inputMessage == old(inputMessage) && w.storage == old(w.storage) &&
        unchanged(this`currentSessionId, this`currentSessionTitle)
    {
      if Blank(inputMessage) {
        return;
      }
      isLoading := true;
      error := None;
      if NoSession() {
        match created {
          case Ok(data) =>
            currentSessionId := Some(data.id);
            currentSessionTitle := data.title;
            if data.messages.Some? && data.messages.value != [] {
              messages := data.messages.value;
            }
            w.SetItem(SessionKey, data.id);
            inputMessage := "";
          case Err(_, _) =>
            error := Some(SendFailed);
            messages := Filter(messages, NotTemp());
        }
      } else {
        var temp := Placeholder(stamp, inputMessage, now);
        messages := messages + [temp];
        match sent {
          case Ok(result) =>
            messages := Filter(messages, OtherId(temp.id)) + [result.user_message, result.bot_response];
            inputMessage := "";
          case Err(_, _) =>
            error := Some(SendFailed);
            messages := Filter(messages, NotTemp());
        }
      }
      isLoading := false;
    }

    /** `handleNewChat`: no session, no title, the saved id forgotten, one
        welcome message and no error. */
    method HandleNewChat(w: Window, now: string)
      modifies this`currentSessionId, this`currentSessionTitle, this`messages, this`error, w
      ensures currentSessionId.None? && currentSessionTitle == "" && messages == [Welcome(now)] && error.None?
      ensures w.storage == old(w.storage) - {SessionKey} && w.location == old(w.location)
    {
      currentSessionId := None;
      currentSessionTitle := "";
      w.RemoveItem(SessionKey);
      messages := [Welcome(now)];
      error := None;
    }

    /** `handleSelectSession(id)`: choosing the current session again does
        nothing; any other loads it. */
    method HandleSelectSession(w: Window, sessionId: string, reply: Reply<SessionData>)
      modifies this`currentSessionId, this`currentSessionTitle, this`messages, this`error, w
      ensures old(currentSessionId) == Some(sessionId) ==>
        unchanged(this`currentSessionId, this`currentSessionTitle, this`messages, this`error) &&
        w.storage == old(w.storage)
      ensures old(currentSessionId) != Some(sessionId) && reply.Ok? ==>
        currentSessionId == Some(sessionId) && currentSessionTitle == reply.data.title &&
        messages == reply.data.messages.GetOr([]) && w.storage == old(w.storage)[SessionKey := sessionId]
      ensures old(currentSessionId) != Some(sessionId) && reply.Err? ==>
        error == Some(HistoryFailed) && w.storage == old(w.storage) &&
        unchanged(this`currentSessionId, this`currentSessionTitle, this`messages)
      ensures w.location == old(w.location)
    {
      if currentSessionId != Some(sessionId) {
        LoadSessionMessages(w, sessionId, reply);
      }
    }
  }

  /** In an open session a successful send keeps the conversation in order
      and appends the stored message and the answer, as long as no earlier
      message has the placeholder's id. */
  lemma SendAppendsPair(prev: seq<Message>, stamp: nat, input: string, now: string, result: SendResult)
    requires forall i :: 0 <= i < |prev| ==> prev[i].id != Placeholder(stamp, input, now).id
    ensures Filter(prev + [Placeholder(stamp, input, now)], OtherId(Placeholder(stamp, input, now).id))
      + [result.user_message, result.bot_response] == prev + [result.user_message, result.bot_response]
  {
    ReplacePlaceholder(prev, Placeholder(stamp, input, now));
  }
}
