/** The top-level screen of App.tsx: the active mode and the two text histories,
    and the routing of a finished exchange to the history of its mode. */
module App {
  import opened Wrappers
  import opened Messages

  datatype AppState = AppState(activeMode: AppMode, chatHistory: seq<Message>, searchHistory: seq<Message>)

  /** The state when the application mounts. */
  function Initial(): AppState {
    AppState(CHAT, [], [])
  }

  /** The history a mode shows; the voice screen keeps none. */
  function History(s: AppState, mode: AppMode): seq<Message> {
    match mode
    case CHAT => s.chatHistory
    case SEARCH => s.searchHistory
    case VOICE => []
  }

  /** The user's own message as recorded in a history. */
  function UserMessage(content: string): (m: Message)
    ensures m.role == User && m.content == content && m.sources.None?
  {
    Message(User, content, None)
  }

  /** `handleSendMessage`: the user's message and the response are appended, in
      that order, to the history of `mode` only. */
  function SendMessage(s: AppState, content: string, mode: AppMode, response: Message): (r: AppState)
    ensures r.activeMode == s.activeMode
    ensures mode != VOICE ==> History(r, mode) == History(s, mode) + [UserMessage(content), response]
    ensures forall other :: other != mode ==> History(r, other) == History(s, other)
    ensures mode == VOICE ==> r == s
  {
    if mode == CHAT then s.(chatHistory := s.chatHistory + [UserMessage(content), response])
    else if mode == SEARCH then s.(searchHistory := s.searchHistory + [UserMessage(content), response])
    else s
  }

  /** The sidebar's `onModeChange`: only the active mode changes. */
  function ChangeMode(s: AppState, mode: AppMode): (r: AppState)
    ensures r.activeMode == mode
    ensures r.chatHistory == s.chatHistory && r.searchHistory == s.searchHistory
  {
    s.(activeMode := mode)
  }

  /** Sending keeps the earlier history as a prefix and grows it by two, the user
      message first with exactly the submitted text. */
  lemma SendKeepsPrefix(s: AppState, content: string, mode: AppMode, response: Message)
    requires mode != VOICE
    ensures var h := History(SendMessage(s, content, mode, response), mode);
            var n := |History(s, mode)|;
            |h| == n + 2 && h[..n] == History(s, mode)
            && h[n].role == User && h[n].content == content && h[n + 1] == response
  {
  }

  /** A series of exchanges in one mode from the initial state: the history is the
      exchanges' user messages and responses, interleaved, in order. */
  function SendAll(s: AppState, mode: AppMode, exchanges: seq<(string, Message)>): AppState
    decreases |exchanges|
  {
    if exchanges == [] then s
    else
      var last := exchanges[|exchanges| - 1];
      SendMessage(SendAll(s, mode, exchanges[..|exchanges| - 1]), last.0, mode, last.1)
  }

  function Transcript(exchanges: seq<(string, Message)>): seq<Message>
    decreases |exchanges|
  {
    if exchanges == [] then []
    else
      var last := exchanges[|exchanges| - 1];
      Transcript(exchanges[..|exchanges| - 1]) + [UserMessage(last.0), last.1]
  }

  lemma {:induction false} SendAllAppends(s: AppState, mode: AppMode, exchanges: seq<(string, Message)>)
    requires mode != VOICE
    ensures History(SendAll(s, mode, exchanges), mode) == History(s, mode) + Transcript(exchanges)
    ensures forall other :: other != mode ==> History(SendAll(s, mode, exchanges), other) == History(s, other)
    decreases |exchanges|
  {
    if exchanges != [] {
      SendAllAppends(s, mode, exchanges[..|exchanges| - 1]);
    }
  }

  /** From the initial state the application is in chat mode with both
      histories empty, so the first chat exchange is the whole chat history. */
  lemma InitialFirstExchange(content: string, response: Message)
    ensures Initial().activeMode == CHAT
    ensures History(Initial(), CHAT) == [] && History(Initial(), SEARCH) == []
    ensures SendMessage(Initial(), content, CHAT, response).chatHistory == [UserMessage(content), response]
  {
  }
}
