/** The search projection the stream handler keeps in its `searchData` variable, and how each
    search event rebuilds it from the previous one (`None` before any search event). */
module SearchProgress {
  import opened Wrappers
  import opened Conversation

  /** The stages of the previous projection, or none. */
  function PriorStages(prev: Option<SearchInfo>): seq<Stage> {
    if prev.Some? then prev.value.stages else []
  }

  /** `searchData?.query || ""`. */
  function PriorQuery(prev: Option<SearchInfo>): string {
    if prev.Some? then prev.value.query else ""
  }

  /** `search_start`: a fresh projection, whatever came before. */
  function Started(query: string): SearchInfo
  {
    SearchInfo([Searching], query, [], None)
  }

  /** `search_results`: one 'reading' tag appended, the url list replaced, any error dropped. */
  function WithResults(prev: Option<SearchInfo>, urls: seq<string>): SearchInfo
  {
    SearchInfo(PriorStages(prev) + [Reading], PriorQuery(prev), urls, None)
  }

  /** `search_error`: one 'error' tag appended, the error recorded, the url list emptied. */
  function WithError(prev: Option<SearchInfo>, error: string): SearchInfo
  {
    SearchInfo(PriorStages(prev) + [Error], PriorQuery(prev), [], Some(error))
  }

  /** `end` after a search: one 'writing' tag appended, everything else kept. */
  function Finished(prev: SearchInfo): SearchInfo
  {
    prev.(stages := prev.stages + [Writing])
  }
}
