/** The conversation store of the chat page: messages, their search projections, the id rule,
    the update-by-id merge every stream event goes through, and what the page displays of them. */
module Conversation {
  import opened Wrappers

  /** A progress tag of a search-augmented answer ('searching', 'reading', 'writing', 'error'). */
  datatype Stage = Searching | Reading | Writing | Error

  /** The search projection attached to an assistant message. */
  datatype SearchInfo = SearchInfo(stages: seq<Stage>, query: string, urls: seq<string>, error: Option<string>)

  /** One chat message. An absent `isLoading` in the page is falsy and is modelled as `false`;
      the constant `type: 'message'` field is not modelled. */
  datatype Message = Message(id: int, content: string, isUser: bool, isLoading: bool, searchInfo: Option<SearchInfo>)

  /** The seed greeting the page starts with. */
  const Greeting := Message(1, "Hi there, how can I help you?", false, false, None)

  /** The search projection every assistant placeholder is created with. */
  const EmptySearch := SearchInfo([], "", [], None)

  /** `Math.max(...msgs.map(msg => msg.id))`. */
  function MaxId(msgs: seq<Message>): (r: int)
    requires msgs != []
    ensures forall i | 0 <= i < |msgs| :: msgs[i].id <= r
    ensures exists i | 0 <= i < |msgs| :: msgs[i].id == r
  {
    if |msgs| == 1 then msgs[0].id
    else
      var rest := MaxId(msgs[1..]);
      assert forall i | 1 <= i < |msgs| :: msgs[i] == msgs[1..][i - 1];
      if msgs[0].id > rest then msgs[0].id else rest
  }

  /** The id a new message gets: one more than the largest id in use, or 1 for an empty list. */
  function NextId(msgs: seq<Message>): (r: int)
    ensures msgs == [] ==> r == 1
    ensures forall i | 0 <= i < |msgs| :: msgs[i].id < r
    ensures msgs != [] ==> exists i | 0 <= i < |msgs| :: msgs[i].id == r - 1
  {
    if |msgs| > 0 then MaxId(msgs) + 1 else 1
  }

  /** No two messages share an id (React keys the rendered list by id). */
  predicate UniqueIds(msgs: seq<Message>) {
    forall i, j | 0 <= i < j < |msgs| :: msgs[i].id != msgs[j].id
  }

  /** The part of a message an event overwrites, as in `{ ...msg, content, searchInfo, isLoading: false }`;
      a `None` field is left as it was. Every patch in the page clears `isLoading`. */
  datatype Patch = Patch(content: Option<string>, searchInfo: Option<SearchInfo>)

  /** The message with `p` merged over it. */
  function Merge(m: Message, p: Patch): (r: Message)
    ensures r.id == m.id && r.isUser == m.isUser && !r.isLoading
    ensures r.content == p.content.GetOr(m.content)
    ensures r.searchInfo == if p.searchInfo.Some? then p.searchInfo else m.searchInfo
  {
    m.(content := p.content.GetOr(m.content),
       isLoading := false,
       searchInfo := if p.searchInfo.Some? then p.searchInfo else m.searchInfo)
  }

  /** `msgs.map(msg => msg.id === id ? {...msg, ...p} : msg)`: every message with that id is patched,
      every other message is kept, and the order and length stay; an absent id changes nothing. */
  function UpdateById(msgs: seq<Message>, id: int, p: Patch): (r: seq<Message>)
    ensures |r| == |msgs|
    ensures forall i | 0 <= i < |msgs| :: r[i] == if msgs[i].id == id then Merge(msgs[i], p) else msgs[i]
    ensures (forall i | 0 <= i < |msgs| :: msgs[i].id != id) ==> r == msgs
  {
    if msgs == [] then []
    else
      var rest := UpdateById(msgs[1..], id, p);
      [if msgs[0].id == id then Merge(msgs[0], p) else msgs[0]] + rest
  }

  /** The stage indicators are rendered only for a projection with at least one stage. */
  predicate HasSearchInfo(m: Message) {
    m.searchInfo.Some? && |m.searchInfo.value.stages| > 0
  }

  /** The bubble shows the "Thinking…" dots instead of the content. */
  predicate ShowsThinking(m: Message) {
    m.isLoading && m.content == ""
  }

  /** The source links shown under a search projection: the first five urls, in order. */
  function ShownSources(info: SearchInfo): (r: seq<string>)
    ensures |r| <= 5 && |r| <= |info.urls| && r == info.urls[..|r|]
    ensures |r| == 5 || r == info.urls
  {
    if |info.urls| <= 5 then info.urls else info.urls[..5]
  }
}
