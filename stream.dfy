/** The stream session of the chat page: what one submission appends, the address the event
    stream is opened at, and how each decoded server event, the transport error and the close
    fold into the conversation state. Everything here is a function of the previous state;
    the class in module Page performs the same transitions in place. */
module Stream {
  import opened Wrappers
  import opened Text
  import opened Conversation
  import opened SearchProgress

  /** One decoded frame of the event stream. `SearchResultsBadUrls` is a `search_results` frame whose
      string-encoded url list fails its second decode; `Malformed` is a frame that is not JSON;
      `Unrecognised` carries any other `type`. */
  datatype Event =
    | Checkpoint(checkpointId: string)
    | Content(fragment: string)
    | SearchStart(query: string)
    | SearchResults(urls: seq<string>)
    | SearchResultsBadUrls
    | SearchError(error: string)
    | End
    | Unrecognised(kind: string)
    | Malformed

  /** The page state (`messages`, `checkpointId`) together with the variables of the newest
      session (`streamedContent`, `searchData`, whether its transport is closed, `aiResponseId`). */
  datatype ChatState = ChatState(
    messages: seq<Message>,
    streamed: string,
    searchData: Option<SearchInfo>,
    checkpoint: Option<string>,
    closed: bool,
    aiResponseId: int)

  const ErrorReply := "Sorry, there was an error processing your request."
  const SetupErrorReply := "Sorry, there was an error connecting to the server."
  const StreamEndpoint := "http://127.0.0.1:8000/chat_stream/"

  /** The page as first rendered: the greeting, no token, no open session. */
  const Initial := ChatState([Greeting], "", None, None, true, 0)

  // ---------------------------------------------------------------------------------------
  // Submission

  /** `handleSubmit`: a blank input is ignored; otherwise the user message and the assistant
      placeholder are appended and a new session starts. When opening the transport throws
      (`setupFails`), a second assistant message carrying the setup apology is appended with the
      placeholder's id, and no transport is open. */
  function Submit(s: ChatState, input: string, setupFails: bool): ChatState {
    if Trim(input) == [] then s
    else
      var id := NextId(s.messages);
      ChatState(SubmittedMessages(s.messages, id, input, setupFails), "", None, s.checkpoint, setupFails, id + 1)
  }

  /** The messages after a non-blank submission whose user message gets `id`. */
  function SubmittedMessages(msgs: seq<Message>, id: int, input: string, setupFails: bool): seq<Message> {
    var user := Message(id, input, true, false, None);
    var placeholder := Message(id + 1, "", false, true, Some(EmptySearch));
    if setupFails then msgs + [user, placeholder] + [Message(id + 1, SetupErrorReply, false, false, None)]
    else msgs + [user, placeholder]
  }

  /** JavaScript truthiness of the stored token: present and not the empty string. */
  predicate Truthy(token: Option<string>) {
    token.Some? && token.value != ""
  }

  /** The address the event stream is opened at; `encode` stands for `encodeURIComponent`. */
  function RequestUrl(input: string, checkpoint: Option<string>, encode: string -> string): string {
    var url := StreamEndpoint + encode(input);
    if Truthy(checkpoint) then url + "?checkpoint_id=" + encode(checkpoint.value) else url
  }

  // ---------------------------------------------------------------------------------------
  // Events

  /** A search event: the new projection becomes `searchData` and is written to the assistant
      message together with the buffered content. */
  function Searched(s: ChatState, info: SearchInfo): ChatState {
    s.(searchData := Some(info),
       messages := UpdateById(s.messages, s.aiResponseId, Patch(Some(s.streamed), Some(info))))
  }

  /** The `onmessage` handler applied to one decoded frame. */
  function Step(s: ChatState, ev: Event): ChatState {
    match ev
    case Checkpoint(token) => s.(checkpoint := Some(token))
    case Content(fragment) =>
      var buffer := s.streamed + fragment;
      s.(streamed := buffer, messages := UpdateById(s.messages, s.aiResponseId, Patch(Some(buffer), None)))
    case SearchStart(query) => Searched(s, Started(query))
    case SearchResults(urls) => Searched(s, WithResults(s.searchData, urls))
    case SearchResultsBadUrls => s
    case SearchError(error) => Searched(s, WithError(s.searchData, error))
    case End =>
      if s.searchData.Some? then
        s.(messages := UpdateById(s.messages, s.aiResponseId, Patch(None, Some(Finished(s.searchData.value)))),
           closed := true)
      else s.(closed := true)
    case Unrecognised(_) => s
    case Malformed => s
  }

  /** `eventSource.close()`, also what the named `end` listener does. */
  function Close(s: ChatState): ChatState {
    s.(closed := true)
  }

  /** The `onerror` handler: close, and show the apology unless some content has streamed. */
  function TransportError(s: ChatState): ChatState {
    s.(closed := true,
       messages := if s.streamed == "" then UpdateById(s.messages, s.aiResponseId, Patch(Some(ErrorReply), None))
                   else s.messages)
  }

  /** The transport delivering `evs` in arrival order; once closed it delivers nothing more. */
  function Run(s: ChatState, evs: seq<Event>): ChatState
    decreases |evs|
  {
    if evs == [] || s.closed then s else Run(Step(s, evs[0]), evs[1..])
  }

  // ---------------------------------------------------------------------------------------
  // Reference definitions used by the properties

  /** The content events carrying `fragments`, in order. */
  function Contents(fragments: seq<string>): (evs: seq<Event>)
    ensures |evs| == |fragments|
    ensures forall i | 0 <= i < |evs| :: evs[i] == Content(fragments[i])
  {
    if fragments == [] then [] else [Content(fragments[0])] + Contents(fragments[1..])
  }

  /** The fragments concatenated in order. */
  function Concat(fragments: seq<string>): string {
    if fragments == [] then "" else fragments[0] + Concat(fragments[1..])
  }

  /** Frames the handler drops: malformed, of an unknown type, or with undecodable urls. */
  predicate Noise(ev: Event) {
    ev.Malformed? || ev.Unrecognised? || ev.SearchResultsBadUrls?
  }

  /** `evs` without its noise frames. */
  function Signal(evs: seq<Event>): (r: seq<Event>)
    ensures |r| <= |evs|
    ensures forall i | 0 <= i < |r| :: !Noise(r[i])
  {
    if evs == [] then []
    else if Noise(evs[0]) then Signal(evs[1..])
    else [evs[0]] + Signal(evs[1..])
  }

  /** The token of the last checkpoint frame in `evs`, or `current` when there is none. */
  function LastCheckpoint(current: Option<string>, evs: seq<Event>): Option<string> {
    if evs == [] then current
    else if evs[|evs| - 1].Checkpoint? then Some(evs[|evs| - 1].checkpointId)
    else LastCheckpoint(current, evs[..|evs| - 1])
  }

  /** `after` differs from `before` at most in the messages whose id is `id`; those keep their id
      and author. */
  predicate OnlyResponseChanged(before: seq<Message>, after: seq<Message>, id: int) {
    |after| == |before|
    && forall i | 0 <= i < |before| ::
         after[i].id == before[i].id && after[i].isUser == before[i].isUser
         && (before[i].id != id ==> after[i] == before[i])
  }

  /** `p` is a prefix of `q`. */
  predicate IsPrefix<T(==)>(p: seq<T>, q: seq<T>) {
    |p| <= |q| && q[..|p|] == p
  }

  // ---------------------------------------------------------------------------------------
  // Properties of the conversation store

  /** Updating the same id twice is one update with the later patch's fields winning. */
  lemma UpdateTwice(msgs: seq<Message>, id: int, p: Patch, q: Patch)
    ensures UpdateById(UpdateById(msgs, id, p), id, q)
         == UpdateById(msgs, id, Patch(if q.content.Some? then q.content else p.content,
                                       if q.searchInfo.Some? then q.searchInfo else p.searchInfo))
  {
    var r := Patch(if q.content.Some? then q.content else p.content,
                   if q.searchInfo.Some? then q.searchInfo else p.searchInfo);
    var a := UpdateById(UpdateById(msgs, id, p), id, q);
    var b := UpdateById(msgs, id, r);
    assert forall i | 0 <= i < |msgs| :: a[i] == b[i];
  }

  /** One event changes no message but the assistant message of the session. */
  lemma StepOnlyTouchesResponse(s: ChatState, ev: Event)
    ensures OnlyResponseChanged(s.messages, Step(s, ev).messages, s.aiResponseId)
    ensures Step(s, ev).aiResponseId == s.aiResponseId
  {
  }

  /** A whole run of events changes no message but the assistant message of the session; with
      no message of that id the list is untouched. */
  lemma {:induction false} RunOnlyTouchesResponse(s: ChatState, evs: seq<Event>)
    decreases |evs|
    ensures OnlyResponseChanged(s.messages, Run(s, evs).messages, s.aiResponseId)
    ensures Run(s, evs).aiResponseId == s.aiResponseId
    ensures (forall i | 0 <= i < |s.messages| :: s.messages[i].id != s.aiResponseId)
            ==> Run(s, evs).messages == s.messages
  {
    if evs != [] && !s.closed {
      var t := Step(s, evs[0]);
      StepOnlyTouchesResponse(s, evs[0]);
      RunOnlyTouchesResponse(t, evs[1..]);
      if forall i | 0 <= i < |s.messages| :: s.messages[i].id != s.aiResponseId {
        assert t.messages == s.messages;
      }
    }
  }

  /** Unique ids survive any run of events. */
  lemma RunKeepsIdsUnique(s: ChatState, evs: seq<Event>)
    requires UniqueIds(s.messages)
    ensures UniqueIds(Run(s, evs).messages)
  {
    RunOnlyTouchesResponse(s, evs);
  }

  // ---------------------------------------------------------------------------------------
  // Properties of the transport

  /** Delivering `a` then `b` is delivering `a + b`. */
  lemma {:induction false} RunAppend(s: ChatState, a: seq<Event>, b: seq<Event>)
    ensures Run(s, a + b) == Run(Run(s, a), b)
    decreases |a|
  {
    if a == [] {
      assert a + b == b;
    } else if !s.closed {
      assert (a + b)[0] == a[0];
      assert (a + b)[1..] == a[1..] + b;
      RunAppend(Step(s, a[0]), a[1..], b);
    }
  }

  /** A closed transport delivers nothing, and closing again changes nothing. */
  lemma ClosedIsFinal(s: ChatState, evs: seq<Event>)
    requires s.closed
    ensures Run(s, evs) == s
    ensures Close(s) == s && TransportError(s).closed
  {
  }

  /** Closing twice is the same as closing once, for every way of closing. */
  lemma CloseIdempotent(s: ChatState)
    ensures Close(Close(s)) == Close(s)
    ensures Close(Step(s, End)) == Step(s, End)
    ensures Close(TransportError(s)) == TransportError(s)
  {
  }

  // ---------------------------------------------------------------------------------------
  // Properties of content streaming

  /** A run of content frames leaves the buffer equal to the old buffer followed by the fragments
      in order, shows that whole buffer in the assistant message and clears its loading flag, and
      touches nothing else. */
  lemma {:induction false} ContentRun(s: ChatState, fragments: seq<string>)
    requires !s.closed
    decreases |fragments|
    ensures var t := Run(s, Contents(fragments));
      && t.streamed == s.streamed + Concat(fragments)
      && t.searchData == s.searchData && t.checkpoint == s.checkpoint && !t.closed
      && t.aiResponseId == s.aiResponseId
      && |t.messages| == |s.messages|
      && forall i | 0 <= i < |s.messages| ::
           t.messages[i] == if s.messages[i].id == s.aiResponseId && fragments != []
                            then s.messages[i].(content := s.streamed + Concat(fragments), isLoading := false)
                            else s.messages[i]
  {
    if fragments != [] {
      var evs := Contents(fragments);
      var t := Step(s, Content(fragments[0]));
      ContentStep(s, fragments[0]);
      assert Run(s, evs) == Run(t, Contents(fragments[1..])) by {
        assert evs[0] == Content(fragments[0]);
        assert evs[1..] == Contents(fragments[1..]);
      }
      ContentRun(t, fragments[1..]);
      assert t.streamed + Concat(fragments[1..]) == s.streamed + Concat(fragments);
    }
  }

  /** One content event: the fragment joins the buffer, the buffer becomes the response's content. */
  lemma ContentStep(s: ChatState, fragment: string)
    ensures var t := Step(s, Content(fragment));
      && t.streamed == s.streamed + fragment
      && t.searchData == s.searchData && t.checkpoint == s.checkpoint && t.closed == s.closed
      && t.aiResponseId == s.aiResponseId
      && |t.messages| == |s.messages|
      && forall i | 0 <= i < |s.messages| ::
           t.messages[i] == if s.messages[i].id == s.aiResponseId
                            then s.messages[i].(content := t.streamed, isLoading := false)
                            else s.messages[i]
  {
  }

  /** Over a fresh session the assistant message shows exactly the concatenated fragments. */
  lemma ContentIsConcatenation(s: ChatState, fragments: seq<string>, k: nat)
    requires !s.closed && s.streamed == "" && fragments != []
    requires k < |s.messages| && s.messages[k].id == s.aiResponseId
    ensures k < |Run(s, Contents(fragments)).messages|
            && Run(s, Contents(fragments)).messages[k].content == Concat(fragments)
            && !Run(s, Contents(fragments)).messages[k].isLoading
  {
    ContentRun(s, fragments);
  }

  /** Frames the handler drops can be removed from any run without changing its outcome. */
  lemma {:induction false} NoiseIsIgnored(s: ChatState, evs: seq<Event>)
    ensures Run(s, evs) == Run(s, Signal(evs))
    decreases |evs|
  {
    if evs != [] && !s.closed {
      NoiseIsIgnored(Step(s, evs[0]), evs[1..]);
      if !Noise(evs[0]) {
        assert ([evs[0]] + Signal(evs[1..]))[1..] == Signal(evs[1..]);
      }
    }
  }

  /** A dropped frame leaves every part of the state as it was. */
  lemma NoiseChangesNothing(s: ChatState, ev: Event)
    requires Noise(ev)
    ensures Step(s, ev) == s
  {
  }

  // ---------------------------------------------------------------------------------------
  // Properties of the search projection

  /** `search_start` sets exactly one stage, the query and no urls, whatever came before. */
  lemma SearchStartResets(s: ChatState, query: string)
    ensures Step(s, SearchStart(query)).searchData == Some(SearchInfo([Searching], query, [], None))
  {
  }

  /** `search_results` adds one `Reading` tag after the previous stages (no de-duplication),
      keeps the query (empty with no earlier search), replaces the urls and drops an earlier error. */
  lemma SearchResultsAppendsReading(s: ChatState, urls: seq<string>)
    ensures var r := Step(s, SearchResults(urls)).searchData.value;
      && r.stages == PriorStages(s.searchData) + [Reading] && r.urls == urls && r.error == None
      && r.query == PriorQuery(s.searchData)
    ensures s.searchData.None? ==> PriorStages(s.searchData) == [] && PriorQuery(s.searchData) == ""
  {
  }

  /** `search_error` adds one `Error` tag after the previous stages, keeps the query, empties the
      urls and records the message. */
  lemma SearchErrorAppendsError(s: ChatState, error: string)
    ensures var r := Step(s, SearchError(error)).searchData.value;
      && r.stages == PriorStages(s.searchData) + [Error] && r.urls == [] && r.error == Some(error)
      && r.query == PriorQuery(s.searchData)
  {
  }

  /** `end` after a search shows the projection with one `Writing` tag added on the response. */
  lemma EndAppendsWriting(s: ChatState)
    requires s.searchData.Some?
    ensures forall i | 0 <= i < |s.messages| && s.messages[i].id == s.aiResponseId ::
      Step(s, End).messages[i].searchInfo == Some(s.searchData.value.(stages := s.searchData.value.stages + [Writing]))
  {
  }

  /** Without a new `search_start`, the stages of the projection only grow and its query stays. */
  lemma {:induction false} StagesOnlyGrow(s: ChatState, evs: seq<Event>)
    requires s.searchData.Some?
    requires forall i | 0 <= i < |evs| :: !evs[i].SearchStart?
    decreases |evs|
    ensures Run(s, evs).searchData.Some?
    ensures IsPrefix(s.searchData.value.stages, Run(s, evs).searchData.value.stages)
    ensures Run(s, evs).searchData.value.query == s.searchData.value.query
  {
    if evs != [] && !s.closed {
      var t := Step(s, evs[0]);
      StagesOnlyGrow(t, evs[1..]);
      var a, b, c := s.searchData.value.stages, t.searchData.value.stages, Run(t, evs[1..]).searchData.value.stages;
      assert b[..|a|] == a;
      assert c[..|a|] == c[..|b|][..|a|];
    }
  }

  /** Two `search_results` frames: the urls are exactly the second list (not merged), and the
      'reading' tag appears twice. */
  lemma ResultsReplaceUrls(s: ChatState, first: seq<string>, second: seq<string>)
    ensures Step(Step(s, SearchResults(first)), SearchResults(second)).searchData
         == Some(SearchInfo(PriorStages(s.searchData) + [Reading, Reading], PriorQuery(s.searchData), second, None))
  {
    var t := Step(s, SearchResults(first));
    assert PriorStages(t.searchData) == PriorStages(s.searchData) + [Reading];
    assert PriorStages(t.searchData) + [Reading] == PriorStages(s.searchData) + [Reading, Reading];
  }

  /** The assistant message stops loading on a content or search frame, and on `end` exactly when
      a search happened; without a search `end` leaves the messages untouched. */
  lemma LoadingClears(s: ChatState, ev: Event)
    requires ev.Content? || ev.SearchStart? || ev.SearchResults? || ev.SearchError? || ev.End?
    ensures forall i | 0 <= i < |s.messages| && s.messages[i].id == s.aiResponseId ::
      !Step(s, ev).messages[i].isLoading <==> (!ev.End? || s.searchData.Some? || !s.messages[i].isLoading)
    ensures ev.End? && s.searchData.None? ==> Step(s, ev).messages == s.messages
  {
  }

  // ---------------------------------------------------------------------------------------
  // Properties of the transport error

  /** A transport error always closes; it replaces the assistant content by the apology and clears
      loading exactly when nothing has streamed yet, and otherwise keeps the partial answer. */
  lemma TransportErrorOutcome(s: ChatState)
    ensures TransportError(s).closed
    ensures s.streamed == "" ==> forall i | 0 <= i < |s.messages| ::
      TransportError(s).messages[i]
        == if s.messages[i].id == s.aiResponseId then s.messages[i].(content := ErrorReply, isLoading := false)
           else s.messages[i]
    ensures s.streamed != "" ==> TransportError(s).messages == s.messages
    ensures |TransportError(s).messages| == |s.messages|
  {
  }

  // ---------------------------------------------------------------------------------------
  // Properties of the continuation token

  /** The stored token after a run without `end` is that of the last checkpoint frame, or the
      earlier token when there was none. */
  lemma {:induction false} CheckpointIsLatest(s: ChatState, evs: seq<Event>)
    requires !s.closed
    requires forall i | 0 <= i < |evs| :: !evs[i].End?
    ensures !Run(s, evs).closed
    ensures Run(s, evs).checkpoint == LastCheckpoint(s.checkpoint, evs)
  {
    if evs != [] {
      var front := evs[..|evs| - 1];
      CheckpointIsLatest(s, front);
      assert evs == front + [evs[|evs| - 1]];
      RunAppend(s, front, [evs[|evs| - 1]]);
    }
  }

  /** The request carries `?checkpoint_id=` exactly when a truthy token is stored; since
      `encodeURIComponent` escapes `?`, the address splits back into the encoded input and the
      encoded token. */
  lemma RequestUrlParts(input: string, checkpoint: Option<string>, encode: string -> string)
    requires '?' !in encode(input)
    ensures var url := RequestUrl(input, checkpoint, encode);
      && (IndexOf(url, '?').Some? <==> Truthy(checkpoint))
      && (IndexOf(url, '?').None? ==> url == StreamEndpoint + encode(input))
      && (IndexOf(url, '?').Some? ==>
            url[..IndexOf(url, '?').value] == StreamEndpoint + encode(input)
            && url[IndexOf(url, '?').value + 1..] == "checkpoint_id=" + encode(checkpoint.value))
  {
    var path := StreamEndpoint + encode(input);
    assert '?' !in StreamEndpoint;
    assert '?' !in path;
    if Truthy(checkpoint) {
      var url := RequestUrl(input, checkpoint, encode);
      var rest := "checkpoint_id=" + encode(checkpoint.value);
      assert url == path + ['?'] + rest;
      assert url[|path|] == '?' && url[..|path|] == path;
      assert url[|path| + 1..] == rest;
    }
  }

  /** The first position of `c` in `s`. */
  function IndexOf(s: string, c: char): (r: Option<nat>)
    ensures r.None? <==> c !in s
    ensures r.Some? ==> r.value < |s| && s[r.value] == c && c !in s[..r.value]
  {
    if s == [] then None
    else if s[0] == c then Some(0)
    else
      var r := IndexOf(s[1..], c);
      if r.None? then None
      else
        assert s[..r.value + 1] == [s[0]] + s[1..][..r.value];
        Some(r.value + 1)
  }

  // ---------------------------------------------------------------------------------------
  // Properties of submission

  /** A blank input changes nothing; any other input appends the user message with the next id
      (one above every id in use) and the loading placeholder with the id after it, and starts an
      open session addressed to that placeholder; on a setup failure the apology follows. */
  lemma SubmitOutcome(s: ChatState, input: string, setupFails: bool)
    ensures Blank(input) ==> Submit(s, input, setupFails) == s
    ensures !Blank(input) ==>
      var t := Submit(s, input, setupFails);
      var id := NextId(s.messages);
      && (forall i | 0 <= i < |s.messages| :: s.messages[i].id < id)
      && t.messages[..|s.messages|] == s.messages
      && |t.messages| == |s.messages| + (if setupFails then 3 else 2)
      && t.messages[|s.messages|] == Message(id, input, true, false, None)
      && t.messages[|s.messages| + 1] == Message(id + 1, "", false, true, Some(SearchInfo([], "", [], None)))
      && t.aiResponseId == id + 1 && t.streamed == "" && t.searchData == None
      && t.checkpoint == s.checkpoint
      && t.closed == setupFails
      && (setupFails ==> t.messages[|s.messages| + 2] == Message(id + 1, SetupErrorReply, false, false, None))
  {
    TrimEmptyIffBlank(input);
    if !Blank(input) {
      SubmittedLayout(s.messages, NextId(s.messages), input, setupFails);
    }
  }

  /** Where the submitted messages sit after the existing ones. */
  lemma SubmittedLayout(msgs: seq<Message>, id: int, input: string, setupFails: bool)
    ensures var r := SubmittedMessages(msgs, id, input, setupFails);
      && r[..|msgs|] == msgs
      && |r| == |msgs| + (if setupFails then 3 else 2)
      && r[|msgs|] == Message(id, input, true, false, None)
      && r[|msgs| + 1] == Message(id + 1, "", false, true, Some(SearchInfo([], "", [], None)))
      && (setupFails ==> r[|msgs| + 2] == Message(id + 1, SetupErrorReply, false, false, None))
  {
  }

  /** A successful submission keeps message ids unique, and afterwards the placeholder is the only
      message carrying the session's id. */
  lemma SubmitKeepsIdsUnique(s: ChatState, input: string)
    requires UniqueIds(s.messages) && !Blank(input)
    ensures UniqueIds(Submit(s, input, false).messages)
    ensures var t := Submit(s, input, false);
      forall i | 0 <= i < |t.messages| :: t.messages[i].id == t.aiResponseId <==> i == |s.messages| + 1
  {
    SubmitOutcome(s, input, false);
  }

  /** The setup-error path gives the apology the placeholder's id, so ids stop being unique. */
  lemma SetupFailureDuplicatesId(s: ChatState, input: string)
    requires !Blank(input)
    ensures !UniqueIds(Submit(s, input, true).messages)
  {
    SubmitOutcome(s, input, true);
    var t := Submit(s, input, true);
    assert t.messages[|s.messages| + 1].id == t.messages[|s.messages| + 2].id;
  }

  // ---------------------------------------------------------------------------------------
  // Properties of what the bubble shows

  /** Right after a submission the placeholder shows the "Thinking…" dots and no stage
      indicators, since its projection has no stage yet. */
  lemma PlaceholderShowsThinking(s: ChatState, input: string)
    requires !Blank(input)
    ensures var t := Submit(s, input, false);
      |s.messages| + 1 < |t.messages|
      && ShowsThinking(t.messages[|s.messages| + 1]) && !HasSearchInfo(t.messages[|s.messages| + 1])
  {
    SubmitOutcome(s, input, false);
  }

  /** After a content or search frame the assistant message no longer shows the dots; after a
      search frame it shows the stage indicators of the session's projection. */
  lemma FrameEndsThinking(s: ChatState, ev: Event, i: nat)
    requires ev.Content? || ev.SearchStart? || ev.SearchResults? || ev.SearchError?
    requires i < |s.messages| && s.messages[i].id == s.aiResponseId
    ensures i < |Step(s, ev).messages| && !ShowsThinking(Step(s, ev).messages[i])
    ensures !ev.Content? ==>
      HasSearchInfo(Step(s, ev).messages[i]) && Step(s, ev).messages[i].searchInfo == Step(s, ev).searchData
  {
    LoadingClears(s, ev);
  }
}
