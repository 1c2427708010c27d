/** Whole sessions of the chat page, frame by frame in arrival order, stated over any
    conversation that came before. */
module Scenarios {
  import opened Wrappers
  import opened Text
  import opened Conversation
  import opened SearchProgress
  import opened Stream

  /** The message at index `k` is the assistant message the session writes to. */
  predicate Responds(s: ChatState, k: nat) {
    k < |s.messages| && s.messages[k].id == s.aiResponseId
  }

  /** What a content frame does to the assistant message. */
  lemma ContentAt(s: ChatState, fragment: string, k: nat)
    requires Responds(s, k)
    ensures var t := Step(s, Content(fragment));
      && Responds(t, k) && |t.messages| == |s.messages|
      && t.messages[k].content == s.streamed + fragment && !t.messages[k].isLoading
      && t.messages[k].searchInfo == s.messages[k].searchInfo
      && t.streamed == s.streamed + fragment && t.searchData == s.searchData && t.closed == s.closed
  {
  }

  /** What a `search_start` or `search_results` frame does to the assistant message. */
  lemma SearchAt(s: ChatState, ev: Event, k: nat)
    requires Responds(s, k) && (ev.SearchStart? || ev.SearchResults?)
    ensures var t := Step(s, ev);
      && Responds(t, k) && |t.messages| == |s.messages| && t.searchData.Some?
      && t.messages[k].content == s.streamed && !t.messages[k].isLoading
      && t.messages[k].searchInfo == t.searchData
      && t.streamed == s.streamed && t.closed == s.closed
      && t.searchData.value == if ev.SearchStart? then Started(ev.query) else WithResults(s.searchData, ev.urls)
  {
  }

  /** What `end` after a search does to the assistant message. */
  lemma EndAt(s: ChatState, k: nat)
    requires Responds(s, k) && s.searchData.Some?
    ensures var t := Step(s, End);
      && Responds(t, k) && |t.messages| == |s.messages| && t.closed
      && t.messages[k].content == s.messages[k].content && !t.messages[k].isLoading
      && t.messages[k].searchInfo == Some(Finished(s.searchData.value))
  {
  }

  /** `search_start{x}`, `search_results{[u1, u2]}`, `content{"The "}`, `content{"answer."}`, `end`
      on a fresh session: the answer is the joined fragments, the stages are searching, reading,
      writing, with the query and both urls, and the transport is closed. */
  lemma SearchThenAnswerFrom(t: ChatState, k: nat)
    requires !t.closed && t.streamed == "" && t.searchData.None?
    requires Responds(t, k)
    ensures var r := Step(Step(Step(Step(Step(t, SearchStart("x")), SearchResults(["u1", "u2"])),
                                    Content("The ")), Content("answer.")), End);
      && r.closed && |r.messages| == |t.messages| && k < |r.messages|
      && r.messages[k].content == "The answer." && !r.messages[k].isLoading
      && r.messages[k].searchInfo == Some(SearchInfo([Searching, Reading, Writing], "x", ["u1", "u2"], None))
  {
    SearchPhase(t, k);
    AnswerPhase(Step(Step(t, SearchStart("x")), SearchResults(["u1", "u2"])), k);
  }

  /** `search_start{x}` then `search_results{[u1, u2]}` on a fresh session. */
  lemma SearchPhase(t: ChatState, k: nat)
    requires !t.closed && t.streamed == "" && t.searchData.None?
    requires Responds(t, k)
    ensures var t2 := Step(Step(t, SearchStart("x")), SearchResults(["u1", "u2"]));
      && Responds(t2, k) && |t2.messages| == |t.messages| && !t2.closed && t2.streamed == ""
      && t2.searchData == Some(SearchInfo([Searching, Reading], "x", ["u1", "u2"], None))
  {
    SearchAt(t, SearchStart("x"), k);
    SearchAt(Step(t, SearchStart("x")), SearchResults(["u1", "u2"]), k);
    assert [Searching] + [Reading] == [Searching, Reading];
  }

  /** `content{"The "}`, `content{"answer."}`, `end` after that search. */
  lemma AnswerPhase(t2: ChatState, k: nat)
    requires Responds(t2, k) && !t2.closed && t2.streamed == ""
    requires t2.searchData == Some(SearchInfo([Searching, Reading], "x", ["u1", "u2"], None))
    ensures var r := Step(Step(Step(t2, Content("The ")), Content("answer.")), End);
      && r.closed && |r.messages| == |t2.messages| && k < |r.messages|
      && r.messages[k].content == "The answer." && !r.messages[k].isLoading
      && r.messages[k].searchInfo == Some(SearchInfo([Searching, Reading, Writing], "x", ["u1", "u2"], None))
  {
    TwoFragments(t2, k);
    assert [Searching, Reading] + [Writing] == [Searching, Reading, Writing];
    EndAt(Step(Step(t2, Content("The ")), Content("answer.")), k);
  }

  /** `content{"The "}` then `content{"answer."}`: the response holds the joined text. */
  lemma TwoFragments(t: ChatState, k: nat)
    requires Responds(t, k) && t.streamed == ""
    ensures var t2 := Step(Step(t, Content("The ")), Content("answer."));
      && Responds(t2, k) && |t2.messages| == |t.messages| && t2.searchData == t.searchData
      && t2.closed == t.closed && t2.messages[k].content == "The answer." && t2.streamed == "The answer."
  {
    ContentAt(t, "The ", k);
    ContentAt(Step(t, Content("The ")), "answer.", k);
    assert "" + "The " + "answer." == "The answer.";
  }

  /** The same frames right after a submission: the placeholder, which follows the user message,
      ends up holding the answer. */
  lemma SearchThenAnswer(s: ChatState, input: string)
    requires !Blank(input)
    ensures var r := Step(Step(Step(Step(Step(Submit(s, input, false), SearchStart("x")), SearchResults(["u1", "u2"])),
                                    Content("The ")), Content("answer.")), End);
      && r.closed && |r.messages| == |s.messages| + 2
      && r.messages[|s.messages| + 1].id == NextId(s.messages) + 1
      && r.messages[|s.messages| + 1].content == "The answer." && !r.messages[|s.messages| + 1].isLoading
      && r.messages[|s.messages| + 1].searchInfo
         == Some(SearchInfo([Searching, Reading, Writing], "x", ["u1", "u2"], None))
  {
    SubmitOutcome(s, input, false);
    var t := Submit(s, input, false);
    SearchThenAnswerFrom(t, |s.messages| + 1);
    StepOnlyTouchesResponse(t, SearchStart("x"));
    var t1 := Step(t, SearchStart("x"));
    StepOnlyTouchesResponse(t1, SearchResults(["u1", "u2"]));
    var t2 := Step(t1, SearchResults(["u1", "u2"]));
    StepOnlyTouchesResponse(t2, Content("The "));
    var t3 := Step(t2, Content("The "));
    StepOnlyTouchesResponse(t3, Content("answer."));
    StepOnlyTouchesResponse(Step(t3, Content("answer.")), End);
  }

  /** A malformed frame between two content frames is dropped and both fragments still apply. */
  lemma MalformedFrameMidStream(t: ChatState, k: nat)
    requires t.streamed == "" && Responds(t, k)
    ensures var r := Step(Step(Step(t, Content("The ")), Malformed), Content("answer."));
      k < |r.messages| && r.messages[k].content == "The answer." && r.streamed == "The answer."
  {
    var t1 := Step(t, Content("The "));
    assert Responds(t1, k) && t1.streamed == "The " by {
      ContentAt(t, "The ", k);
    }
    NoiseChangesNothing(t1, Malformed);
    TwoFragments(t, k);
  }

  /** A transport error before any content shows the apology and stops loading. */
  lemma ErrorBeforeContent(t: ChatState, k: nat)
    requires t.streamed == "" && Responds(t, k)
    ensures var r := TransportError(t);
      r.closed && k < |r.messages| && r.messages[k].content == ErrorReply && !r.messages[k].isLoading
  {
  }

  /** A transport error after a fragment keeps the partial answer. */
  lemma ErrorAfterPartialContent(t: ChatState, k: nat)
    requires t.streamed == "" && Responds(t, k)
    ensures var r := TransportError(Step(t, Content("Partial")));
      r.closed && k < |r.messages| && r.messages[k].content == "Partial"
  {
    ContentAt(t, "Partial", k);
  }

  /** With no stored token the first request has no `checkpoint_id`; a checkpoint frame then
      stores the token and the next request carries it. */
  lemma CheckpointRoundTrip(s: ChatState, encode: string -> string)
    requires s.checkpoint == None
    ensures RequestUrl("weather today", s.checkpoint, encode) == StreamEndpoint + encode("weather today")
    ensures Step(s, Checkpoint("abc123")).checkpoint == Some("abc123")
    ensures RequestUrl("next", Step(s, Checkpoint("abc123")).checkpoint, encode)
         == StreamEndpoint + encode("next") + "?checkpoint_id=" + encode("abc123")
  {
  }
}
