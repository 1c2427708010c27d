/** The chat page component as it runs: the conversation and the continuation token are page
    state, the buffer, the search projection, the transport flag and the assistant id belong to the
    newest stream session, and the handlers update them in place. Each handler is specified by the
    matching transition of module Stream. */
module Page {
  import opened Wrappers
  import opened Text
  import opened Conversation
  import opened SearchProgress
  import Stream

  class ChatPage {
    var messages: seq<Message>
    var streamed: string
    var searchData: Option<SearchInfo>
    var checkpoint: Option<string>
    var closed: bool
    var aiResponseId: int

    /** The page as first rendered: only the greeting, no token, no open session. */
    constructor ()
      ensures State() == Stream.Initial
    {
      messages := [Greeting];
      streamed := "";
      searchData := None;
      checkpoint := None;
      closed := true;
      aiResponseId := 0;
    }

    /** The fields as one value. */
    function State(): Stream.ChatState
      reads this
    {
      Stream.ChatState(messages, streamed, searchData, checkpoint, closed, aiResponseId)
    }

    /** `handleSubmit`: appends the user message and the assistant placeholder, builds the
        stream address from the input and the stored token, and starts the session. Returns the
        address built from them, which the transport is opened at when setup succeeds, or `None`
        for a blank input, which changes nothing. `encode` stands for `encodeURIComponent`;
        `setupFails` says whether setting up the transport throws, in which case no transport
        is open afterwards. */
    method Submit(input: string, encode: string -> string, setupFails: bool) returns (url: Option<string>)
      modifies this
      ensures State() == Stream.Submit(old(State()), input, setupFails)
      ensures url == if Blank(input) then None else Some(Stream.RequestUrl(input, old(checkpoint), encode))
    {
      TrimEmptyIffBlank(input);
      if Trim(input) == [] {
        return None;
      }
      var newMessageId := NextId(messages);
      var updated := messages + [Message(newMessageId, input, true, false, None),
                                 Message(newMessageId + 1, "", false, true, Some(EmptySearch))];
      if setupFails {
        updated := updated + [Message(newMessageId + 1, Stream.SetupErrorReply, false, false, None)];
      }
      assert updated == Stream.SubmittedMessages(messages, newMessageId, input, setupFails);
      var address := Stream.StreamEndpoint + encode(input);
      if Stream.Truthy(checkpoint) {
        address := address + "?checkpoint_id=" + encode(checkpoint.value);
      }
      messages, streamed, searchData, closed, aiResponseId := updated, "", None, setupFails, newMessageId + 1;
      url := Some(address);
    }

    /** The `onmessage` handler for one decoded frame. */
    method Step(ev: Stream.Event)
      modifies this
      ensures State() == Stream.Step(old(State()), ev)
    {
      match ev
      case Checkpoint(token) =>
        checkpoint := Some(token);
      case Content(fragment) =>
        streamed := streamed + fragment;
        messages := UpdateById(messages, aiResponseId, Patch(Some(streamed), None));
      case SearchStart(query) =>
        var info := Started(query);
        searchData := Some(info);
        messages := UpdateById(messages, aiResponseId, Patch(Some(streamed), Some(info)));
      case SearchResults(urls) =>
        var info := WithResults(searchData, urls);
        searchData := Some(info);
        messages := UpdateById(messages, aiResponseId, Patch(Some(streamed), Some(info)));
      case SearchResultsBadUrls =>
      case SearchError(error) =>
        var info := WithError(searchData, error);
        searchData := Some(info);
        messages := UpdateById(messages, aiResponseId, Patch(Some(streamed), Some(info)));
      case End =>
        if searchData.Some? {
          messages := UpdateById(messages, aiResponseId, Patch(None, Some(Finished(searchData.value))));
        }
        closed := true;
      case Unrecognised(_) =>
      case Malformed =>
    }

    /** The `onerror` handler. */
    method OnTransportError()
      modifies this
      ensures State() == Stream.TransportError(old(State()))
    {
      closed := true;
      if streamed == "" {
        messages := UpdateById(messages, aiResponseId, Patch(Some(Stream.ErrorReply), None));
      }
    }

    /** The listener for the named `end` event: closes the transport. */
    method OnEndEvent()
      modifies this
      ensures State() == Stream.Close(old(State()))
    {
      closed := true;
    }
  }
}
