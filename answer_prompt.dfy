/** The prompt the answer route composes from the query, the search results and the chat history
    before handing it to the language model. */
module AnswerPrompt {
  import opened Wrappers
  import opened Text

  datatype SearchResult = SearchResult(url: string, title: string, snippet: string)

  datatype Role = User | Assistant

  /** One entry of the chat history. */
  datatype Turn = Turn(role: Role, content: string)

  const NoResults := "No search results available."
  const NoConversation := "N/A"
  const Preamble :=
    "You are a concise, helpful assistant with a witty, Grok-like tone when appropriate. "
    + "Use the provided web results to answer the user's query. "
    + "Cite with plain language (\"According to \U{E2}\U{20AC}\U{A6}\") and avoid fabricating URLs. "
    + "If uncertain, say so briefly."
  const Closing := "Write a helpful answer (3-8 sentences)."

  /** At most this many results are quoted, and at most this many history turns. */
  const MaxResults := 5
  const MaxTurns := 8

  /** `s.slice(0, n)`. */
  function FirstN<T>(s: seq<T>, n: nat): seq<T> {
    if |s| <= n then s else s[..n]
  }

  /** `s.slice(-n)` for a positive `n`. */
  function LastN<T>(s: seq<T>, n: nat): seq<T> {
    if |s| <= n then s else s[|s| - n..]
  }

  /** One quoted result, numbered `n`. */
  function Entry(n: nat, r: SearchResult): string {
    "(" + Numeral(n) + ") " + r.title + "\nURL: " + r.url + "\nSnippet: " + r.snippet
  }

  /** `rs.map((r, i) => Entry(first + i, r))`. */
  function Numbered(rs: seq<SearchResult>, first: nat): (entries: seq<string>)
    ensures |entries| == |rs|
    ensures forall i | 0 <= i < |rs| :: entries[i] == Entry(first + i, rs[i])
  {
    if rs == [] then []
    else
      var rest := Numbered(rs[1..], first + 1);
      assert forall i | 1 <= i < |rs| :: rs[1..][i - 1] == rs[i];
      [Entry(first, rs[0])] + rest
  }

  /** `contextBlock`: the first five results numbered from 1 and separated by blank lines, or the
      fallback text when `results` is missing or empty. */
  function ContextBlock(results: Option<seq<SearchResult>>): string {
    if results.None? || results.value == [] then NoResults
    else Join(Numbered(FirstN(results.value, MaxResults), 1), "\n\n")
  }

  /** `role.toUpperCase()`. */
  function RoleName(r: Role): string {
    match r
    case User => "USER"
    case Assistant => "ASSISTANT"
  }

  /** One history turn as a line of the conversation block. */
  function Line(t: Turn): string {
    RoleName(t.role) + ": " + t.content
  }

  /** `turns.map(Line)`. */
  function Lines(turns: seq<Turn>): (lines: seq<string>)
    ensures |lines| == |turns|
    ensures forall i | 0 <= i < |turns| :: lines[i] == Line(turns[i])
  {
    if turns == [] then []
    else
      var rest := Lines(turns[1..]);
      assert forall i | 1 <= i < |turns| :: turns[1..][i - 1] == turns[i];
      [Line(turns[0])] + rest
  }

  /** `convoBlock`: undefined without a history, else its last eight turns one per line. */
  function ConvoBlock(history: Option<seq<Turn>>): Option<string> {
    if history.None? then None else Some(Join(Lines(LastN(history.value, MaxTurns)), "\n"))
  }

  /** `convoBlock || "N/A"`. */
  function ConversationText(history: Option<seq<Turn>>): string {
    var convo := ConvoBlock(history);
    if convo.None? || convo.value == "" then NoConversation else convo.value
  }

  /** The prompt: preamble, conversation, user query, web results and the closing instruction. */
  function Prompt(query: string, results: Option<seq<SearchResult>>, history: Option<seq<Turn>>): string {
    Compose(Preamble, ConversationText(history), query, ContextBlock(results))
  }

  /** The template the prompt is written with: each part after the preamble starts on a new
      paragraph. */
  function Compose(preamble: string, conversation: string, query: string, web: string): string {
    preamble + ConversationHeader + conversation + QueryHeader + query + ResultsHeader + web + Ending
  }

  const ConversationHeader := "\n\nConversation so far:\n"
  const QueryHeader := "\n\nUser query: "
  const ResultsHeader := "\n\nWeb results:\n"
  const Ending := "\n\n" + Closing

  // ---------------------------------------------------------------------------------------
  // Properties

  /** The fallback text appears exactly when the results are missing or empty. */
  lemma ContextFallback(results: Option<seq<SearchResult>>)
    ensures ContextBlock(results) == NoResults <==> results.None? || results.value == []
  {
    if results.Some? && results.value != [] {
      var entries := Numbered(FirstN(results.value, MaxResults), 1);
      JoinStartsWithFirst(entries, "\n\n");
      assert ContextBlock(results)[0] == entries[0][0] == '(';
    }
  }

  /** With results, the block is the first `min(5, n)` of them, in input order, numbered 1, 2, …
      and separated by blank lines. */
  lemma ContextListsFirstFive(rs: seq<SearchResult>)
    requires rs != []
    ensures var k := if |rs| < MaxResults then |rs| else MaxResults;
      k <= 5 && ContextBlock(Some(rs)) == Join(seq(k, i requires 0 <= i < k => Entry(i + 1, rs[i])), "\n\n")
  {
    var k := if |rs| < MaxResults then |rs| else MaxResults;
    var entries := Numbered(FirstN(rs, MaxResults), 1);
    assert entries == seq(k, i requires 0 <= i < k => Entry(i + 1, rs[i]));
  }

  /** The conversation block is the last `min(8, n)` turns, in order, as `ROLE: content` lines. */
  lemma ConversationIsLastEight(h: seq<Turn>)
    requires h != []
    ensures var k := if |h| < MaxTurns then |h| else MaxTurns;
      ConversationText(Some(h)) == Join(seq(k, i requires 0 <= i < k => Line(h[|h| - k + i])), "\n")
  {
    var k := if |h| < MaxTurns then |h| else MaxTurns;
    var lines := Lines(LastN(h, MaxTurns));
    assert lines == seq(k, i requires 0 <= i < k => Line(h[|h| - k + i]));
    JoinStartsWithFirst(lines, "\n");
    assert Join(lines, "\n") != "";
  }

  /** "N/A" stands for the conversation exactly when the history is missing or empty. */
  lemma ConversationFallback(history: Option<seq<Turn>>)
    ensures ConversationText(history) == NoConversation <==> history.None? || history.value == []
  {
    if history.Some? && history.value != [] {
      var lines := Lines(LastN(history.value, MaxTurns));
      JoinStartsWithFirst(lines, "\n");
      var t := LastN(history.value, MaxTurns)[0];
      assert ConversationText(history)[0] == lines[0][0] == RoleName(t.role)[0];
      assert RoleName(t.role)[0] != 'N';
    }
  }

  /** The prompt is exactly the preamble, the conversation header and text, the query header and
      query, the results header and web block, and the closing instruction, in that order. */
  lemma PromptLayout(query: string, results: Option<seq<SearchResult>>, history: Option<seq<Turn>>)
    ensures var p := Prompt(query, results, history);
      var head := Preamble + ConversationHeader;
      var c := ConversationText(history);
      var w := ContextBlock(results);
      && |p| == |head| + |c| + |QueryHeader| + |query| + |ResultsHeader| + |w| + |Ending|
      && p[..|head|] == head
      && p[|head|..|head| + |c|] == c
      && p[|head| + |c|..|head| + |c| + |QueryHeader|] == QueryHeader
      && p[|head| + |c| + |QueryHeader|..|head| + |c| + |QueryHeader| + |query|] == query
      && p[|head| + |c| + |QueryHeader| + |query|..|p| - |Ending| - |w|] == ResultsHeader
      && p[|p| - |Ending| - |w|..|p| - |Ending|] == w
      && p[|p| - |Ending|..] == Ending
  {
    SevenParts(Preamble + ConversationHeader, ConversationText(history), QueryHeader, query,
      ResultsHeader, ContextBlock(results), Ending);
  }

  /** Where each of seven concatenated pieces sits. */
  lemma SevenParts(s1: string, s2: string, s3: string, s4: string, s5: string, s6: string, s7: string)
    ensures var p := s1 + s2 + s3 + s4 + s5 + s6 + s7;
      var a, b, c, d := |s1|, |s1| + |s2|, |s1| + |s2| + |s3|, |s1| + |s2| + |s3| + |s4|;
      && |p| == d + |s5| + |s6| + |s7|
      && p[..a] == s1 && p[a..b] == s2 && p[b..c] == s3 && p[c..d] == s4
      && p[d..|p| - |s7| - |s6|] == s5
      && p[|p| - |s7| - |s6|..|p| - |s7|] == s6 && p[|p| - |s7|..] == s7
  {
  }
}
