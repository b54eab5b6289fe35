/**
 * The chat panel controller (components/ChatInterface.tsx): the send guard,
 * the message list around one request, the history it builds, the reply
 * fallback, grounding-link extraction and the three option toggles.
 */
module ChatInterface {
  import opened Wrappers
  import opened Types
  import opened JsStrings
  import opened GeminiService

  /** The text shown for a reply without text. */
  const EmptyReplyText: string := "..."

  /** The text of the model message appended when the request fails. */
  const ConnectionErrorText: string := "Connection Error."

  /** The panel's state. */
  datatype ChatPanel = ChatPanel(messages: seq<ChatMessage>, input: string, loading: bool,
                                 useThinking: bool, useSearch: bool, useMaps: bool,
                                 location: Option<LatLng>)

  /** The panel as mounted (the position arrives later, if at all). */
  const Initial: ChatPanel := ChatPanel([], "", false, false, false, false, None)

  /** The arguments `handleSend` passes to `generateChatResponse`. */
  datatype ChatCall = ChatCall(history: seq<HistoryEntry>, message: string, images: seq<string>,
                               options: ChatOptions)

  /** The response fields the panel reads: the text ('' when absent) and the first candidate's grounding chunks. */
  datatype ChatResponse = ChatResponse(text: string, groundingChunks: Option<seq<GroundingChunk>>)

  /** How the request ended. */
  datatype ChatOutcome = Replied(response: ChatResponse) | Failed

  /** The send button is disabled while loading or while the input is blank. */
  predicate SendDisabled(p: ChatPanel) {
    p.loading || Trim(p.input) == []
  }

  /** Each earlier message as a history entry: its role and a single text part. */
  function History(messages: seq<ChatMessage>): (h: seq<HistoryEntry>)
    ensures |h| == |messages|
    ensures forall i | 0 <= i < |h| :: h[i].role == messages[i].role && h[i].parts == [TextPart(messages[i].text)]
  {
    seq(|messages|, i requires 0 <= i < |messages| => HistoryEntry(messages[i].role, [TextPart(messages[i].text)]))
  }

  /**
   * The synchronous part of `handleSend`: ignored when the trimmed input is
   * empty; otherwise the untrimmed input is appended as a user message, the
   * input is cleared, loading starts, and the call carries the history of
   * the messages before it. (The Enter key reaches this even while loading.)
   */
  function BeginSend(p: ChatPanel): (r: Option<(ChatPanel, ChatCall)>)
    ensures r.None? <==> AllWhitespace(p.input)
    ensures r.Some? ==> r.value.0.messages == p.messages + [ChatMessage(User, p.input, None)]
    ensures r.Some? ==> r.value.0.input == [] && r.value.0.loading
    ensures r.Some? ==> r.value.0.(messages := p.messages, input := p.input, loading := p.loading) == p
    ensures r.Some? ==> r.value.1 == ChatCall(History(p.messages), p.input, [],
                                              ChatOptions(p.useThinking, p.useSearch, p.useMaps, false, p.location))
  {
    if Trim(p.input) == [] then None
    else
      var user := ChatMessage(User, p.input, None);
      Some((p.(messages := p.messages + [user], input := [], loading := true),
            ChatCall(History(p.messages), p.input, [],
                     ChatOptions(p.useThinking, p.useSearch, p.useMaps, false, p.location))))
  }

  /** The text shown for a reply: the reply's text, or "..." when it is empty. */
  function ReplyText(text: string): (r: string)
    ensures r != []
    ensures text != [] ==> r == text
    ensures text == [] ==> r == EmptyReplyText
  {
    if text == [] then EmptyReplyText else text
  }

  /** The link a grounding chunk yields: its web source, else its maps source, else none. */
  function GroundingUrlOf(c: GroundingChunk): (r: Option<GroundingUrl>)
    ensures c.web.Some? ==> r == c.web
    ensures c.web.None? ==> r == c.maps
  {
    if c.web.Some? then c.web else if c.maps.Some? then c.maps else None
  }

  /** The links of a chunk list, in order, skipping chunks with neither source. */
  function GroundingUrls(chunks: seq<GroundingChunk>): (urls: seq<GroundingUrl>)
    ensures |urls| <= |chunks|
    ensures urls == [] <==> forall j | 0 <= j < |chunks| :: GroundingUrlOf(chunks[j]).None?
    ensures forall i | 0 <= i < |urls| :: exists j | 0 <= j < |chunks| :: GroundingUrlOf(chunks[j]) == Some(urls[i])
    decreases |chunks|
  {
    if |chunks| == 0 then []
    else
      var rest := GroundingUrls(chunks[1..]);
      match GroundingUrlOf(chunks[0])
      case None => rest
      case Some(u) => [u] + rest
  }

  /** Extraction commutes with concatenation, so the links keep the order of their chunks. */
  lemma {:induction false} GroundingUrlsAppend(a: seq<GroundingChunk>, b: seq<GroundingChunk>)
    ensures GroundingUrls(a + b) == GroundingUrls(a) + GroundingUrls(b)
    decreases |a|
  {
    if |a| > 0 {
      assert (a + b)[1..] == a[1..] + b;
      GroundingUrlsAppend(a[1..], b);
    } else {
      assert a + b == b;
    }
  }

  /** A single chunk contributes its link, if any. */
  lemma GroundingUrlsOfSingle(c: GroundingChunk)
    ensures GroundingUrls([c]) == (if GroundingUrlOf(c).Some? then [GroundingUrlOf(c).value] else [])
  {
  }

  /** The model message for a reply: its text (or "...") and its grounding links. */
  function ReplyMessage(response: ChatResponse): (m: ChatMessage)
    ensures m.role == Model && m.text == ReplyText(response.text)
    ensures m.groundingUrls.Some?
    ensures response.groundingChunks.None? ==> m.groundingUrls == Some([])
    ensures response.groundingChunks.Some? ==> m.groundingUrls == Some(GroundingUrls(response.groundingChunks.value))
  {
    var chunks := if response.groundingChunks.Some? then response.groundingChunks.value else [];
    ChatMessage(Model, ReplyText(response.text), Some(GroundingUrls(chunks)))
  }

  /**
   * The asynchronous end of `handleSend`: exactly one model message is
   * appended, the reply or "Connection Error.", and loading ends.
   */
  function FinishSend(p: ChatPanel, outcome: ChatOutcome): (r: ChatPanel)
    ensures |r.messages| == |p.messages| + 1 && r.messages[..|p.messages|] == p.messages
    ensures r.messages[|p.messages|].role == Model
    ensures outcome.Replied? ==> r.messages[|p.messages|] == ReplyMessage(outcome.response)
    ensures outcome.Failed? ==> r.messages[|p.messages|] == ChatMessage(Model, ConnectionErrorText, None)
    ensures !r.loading
    ensures r.(messages := p.messages, loading := p.loading) == p
  {
    var bot := match outcome
      case Replied(response) => ReplyMessage(response)
      case Failed => ChatMessage(Model, ConnectionErrorText, None);
    p.(messages := p.messages + [bot], loading := false)
  }

  /** A completed send adds the user's message and then one model message, and clears the input. */
  lemma SendAppendsTwoMessages(p: ChatPanel, outcome: ChatOutcome)
    requires !AllWhitespace(p.input)
    ensures BeginSend(p).Some?
    ensures var q := FinishSend(BeginSend(p).value.0, outcome);
            |q.messages| == |p.messages| + 2 && q.messages[..|p.messages|] == p.messages
            && q.messages[|p.messages|] == ChatMessage(User, p.input, None)
            && q.messages[|p.messages| + 1].role == Model
            && q.input == [] && !q.loading
  {
    var q1 := BeginSend(p).value.0;
    var q := FinishSend(q1, outcome);
    assert q.messages[..|q1.messages|] == q1.messages;
    assert q.messages[..|p.messages|] == q1.messages[..|p.messages|];
  }

  /** The send button is enabled exactly when not loading and a send would be accepted. */
  lemma SendDisabledRule(p: ChatPanel)
    ensures !SendDisabled(p) <==> !p.loading && BeginSend(p).Some?
  {
  }

  /** The chat panel never sends images or enables code, so it asks for the pro model exactly when thinking is on. */
  lemma PanelChatModel(p: ChatPanel)
    requires BeginSend(p).Some?
    ensures var c := BeginSend(p).value.1;
            BuildChatRequest(c.history, c.message, c.images, c.options).model
              == (if p.useThinking then ChatProModel else ChatFlashModel)
  {
  }

  /** Search and maps are never both on. */
  predicate ToolsExclusive(p: ChatPanel) {
    !(p.useSearch && p.useMaps)
  }

  /** The thinking toggle flips thinking and nothing else. */
  function ToggleThinking(p: ChatPanel): (r: ChatPanel)
    ensures r.useThinking == !p.useThinking
    ensures r.(useThinking := p.useThinking) == p
  {
    p.(useThinking := !p.useThinking)
  }

  /** The search toggle flips search and switches maps off. */
  function ToggleSearch(p: ChatPanel): (r: ChatPanel)
    ensures r.useSearch == !p.useSearch && !r.useMaps
    ensures ToolsExclusive(r)
    ensures r.(useSearch := p.useSearch, useMaps := p.useMaps) == p
  {
    p.(useSearch := !p.useSearch, useMaps := false)
  }

  /** The maps toggle flips maps and switches search off. */
  function ToggleMaps(p: ChatPanel): (r: ChatPanel)
    ensures r.useMaps == !p.useMaps && !r.useSearch
    ensures ToolsExclusive(r)
    ensures r.(useSearch := p.useSearch, useMaps := p.useMaps) == p
  {
    p.(useMaps := !p.useMaps, useSearch := false)
  }

  /** Everything the panel does to its own state. */
  datatype ChatEvent =
    | Type(text: string)
    | Send
    | Finish(outcome: ChatOutcome)
    | PositionKnown(location: LatLng)
    | ThinkingClicked
    | SearchClicked
    | MapsClicked

  /** One event applied to the panel. */
  function ChatStep(p: ChatPanel, e: ChatEvent): (r: ChatPanel)
    ensures ToolsExclusive(p) ==> ToolsExclusive(r)
  {
    match e
    case Type(text) => p.(input := text)
    case Send => if BeginSend(p).Some? then BeginSend(p).value.0 else p
    case Finish(outcome) => FinishSend(p, outcome)
    case PositionKnown(location) => p.(location := Some(location))
    case ThinkingClicked => ToggleThinking(p)
    case SearchClicked => ToggleSearch(p)
    case MapsClicked => ToggleMaps(p)
  }

  /** From the mounted panel, no sequence of events turns search and maps on together. */
  lemma {:induction false} ToolsNeverBothOn(events: seq<ChatEvent>)
    ensures ToolsExclusive(ChatRun(Initial, events))
    decreases |events|
  {
    if |events| > 0 {
      ToolsNeverBothOn(events[..|events| - 1]);
    }
  }

  /** The panel after a run of events. */
  function ChatRun(p: ChatPanel, events: seq<ChatEvent>): ChatPanel
    decreases |events|
  {
    if |events| == 0 then p else ChatStep(ChatRun(p, events[..|events| - 1]), events[|events| - 1])
  }
}
