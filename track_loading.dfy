/**
 * src/track_loading.rs: deciding between a search and a direct load, turning
 * the server's load outcome into data or an error, and searching one or several
 * engines. The server is a parameter: `catalog(q)` is what `load_tracks` answers
 * for the query string `q`, or the transport error it fails with.
 */
module TrackLoading {
  import opened Wrappers
  import opened Text
  import opened Lavalink

  type Catalog = string -> Result<LoadResponse, string>

  const DefaultSearchEngine: Engine := YouTube

  /** What the functions of this file fail with. */
  datatype LoadErr =
    | LoadFailed(error: TrackError)
    | NotSearchResults
    | NoMatches
    | RequestFailed(reason: string)

  /** The text each error is reported with. */
  function ErrorText(e: LoadErr): string {
    match e
    case LoadFailed(t) =>
      "Error loading track (" + t.severity + "): " + t.message + "\ncaused by: " + t.cause
    case NotSearchResults => "NotSearchResults"
    case NoMatches => "No matches for identifier"
    case RequestFailed(reason) => reason
  }

  /**
   * How a loading step ends: with a value, with an error it bails with, or with
   * a panic (an `unwrap` or `expect` that fails).
   */
  datatype Loaded<+T> = Got(value: T) | Bailed(error: LoadErr) | Panics

  // ---------------------------------------------------------------- the first token of a query

  /** `u8::is_ascii_whitespace`: space, tab, line feed, form feed, carriage return. */
  predicate IsAsciiWhitespace(c: char) {
    c == ' ' || c == '\t' || c == '\n' || c == '\U{000C}' || c == '\r'
  }

  predicate HasToken(s: string) {
    exists k :: 0 <= k < |s| && !IsAsciiWhitespace(s[k])
  }

  /** The index of the first non-whitespace character at or after `i`. */
  function TokenStart(s: string, i: nat): (k: nat)
    requires i <= |s|
    ensures i <= k <= |s|
    ensures forall j :: i <= j < k ==> IsAsciiWhitespace(s[j])
    ensures k < |s| ==> !IsAsciiWhitespace(s[k])
    decreases |s| - i
  {
    if i == |s| || !IsAsciiWhitespace(s[i]) then i else TokenStart(s, i + 1)
  }

  /** The index of the first whitespace character at or after `i`. */
  function TokenEnd(s: string, i: nat): (k: nat)
    requires i <= |s|
    ensures i <= k <= |s|
    ensures forall j :: i <= j < k ==> !IsAsciiWhitespace(s[j])
    ensures k < |s| ==> IsAsciiWhitespace(s[k])
    decreases |s| - i
  {
    if i == |s| || IsAsciiWhitespace(s[i]) then i else TokenEnd(s, i + 1)
  }

  /**
   * `query.split_ascii_whitespace().next().unwrap()`: the first maximal run of
   * non-whitespace characters. Without one, `unwrap` panics.
   */
  function FirstToken(s: string): (t: string)
    requires HasToken(s)
    ensures t != []
    ensures forall j :: 0 <= j < |t| ==> !IsAsciiWhitespace(t[j])
  {
    var start := TokenStart(s, 0);
    assert start < |s| by {
      var k :| 0 <= k < |s| && !IsAsciiWhitespace(s[k]);
      assert !(k < start);
    }
    s[start..TokenEnd(s, start)]
  }

  /** The first token sits after leading whitespace only, and ends at whitespace or the end. */
  lemma FirstTokenPlace(s: string) returns (start: nat, end: nat)
    requires HasToken(s)
    ensures start < end <= |s| && FirstToken(s) == s[start..end]
    ensures forall j :: 0 <= j < start ==> IsAsciiWhitespace(s[j])
    ensures end < |s| ==> IsAsciiWhitespace(s[end])
  {
    start := TokenStart(s, 0);
    end := TokenEnd(s, start);
  }

  /** The rule of `load_or_search`: a prefixed query that is not a URL or a mix is searched. */
  predicate IsSearchQuery(query: string)
    requires HasToken(query)
  {
    var hasPrefix := ':' in FirstToken(query);
    var knownPrefix := StartsWith(query, "http") || StartsWith(query, "mix:");
    hasPrefix && !knownPrefix
  }

  // ---------------------------------------------------------------- load outcomes

  /**
   * `raise_for_load_type`: an error-typed answer becomes its error (and panics
   * when it carries no error data); every other answer gives its data.
   */
  function RaiseForLoadType(response: LoadResponse): (r: Loaded<Option<LoadData>>)
    ensures r.Got? <==> response.loadType != ErrorType
    ensures r.Got? ==> r.value == response.data
    ensures r.Bailed? <==> response.loadType == ErrorType && response.data.Some? && response.data.value.Failed?
    ensures r.Bailed? ==> r.error == LoadFailed(response.data.value.error)
    ensures r.Panics? <==> response.loadType == ErrorType && !WellFormed(response)
  {
    if response.loadType == ErrorType then
      match response.data
      case Some(Failed(e)) => Bailed(LoadFailed(e))
      case _ => Panics
    else Got(response.data)
  }

  /** `search_single`: one engine's search results, an empty list without data, otherwise an error. */
  function SearchSingle(catalog: Catalog, query: string, engine: Engine): (r: Loaded<seq<Track>>)
    ensures catalog(EngineQuery(engine, query)).Err? ==>
              r == Bailed(RequestFailed(catalog(EngineQuery(engine, query)).error))
    ensures catalog(EngineQuery(engine, query)).Ok? ==>
              var response := catalog(EngineQuery(engine, query)).value;
              && (response.loadType == ErrorType && WellFormed(response) ==> r == Bailed(LoadFailed(response.data.value.error)))
              && (response.loadType == ErrorType && !WellFormed(response) ==> r == Panics)
              && (response.loadType != ErrorType && response.data == None ==> r == Got([]))
              && (response.loadType != ErrorType && response.data.Some? && response.data.value.Search? ==>
                    r == Got(response.data.value.results))
              && (response.loadType != ErrorType && response.data.Some? && !response.data.value.Search? ==>
                    r == Bailed(NotSearchResults))
  {
    match catalog(EngineQuery(engine, query))
    case Err(reason) => Bailed(RequestFailed(reason))
    case Ok(response) =>
      match RaiseForLoadType(response)
      case Bailed(e) => Bailed(e)
      case Panics => Panics
      case Got(None) => Got([])
      case Got(Some(Search(results))) => Got(results)
      case Got(Some(_)) => Bailed(NotSearchResults)
  }

  /** A search's result as `search_multiple` keeps it in its slot. */
  function Slot(r: Loaded<seq<Track>>): Result<seq<Track>, LoadErr>
    requires !r.Panics?
  {
    if r.Got? then Ok(r.value) else Err(r.error)
  }

  /**
   * `search_multiple`: one search per engine, collected in engine order; a failing
   * engine leaves its error in its own slot and the others go on. A search that
   * panics brings the whole call down.
   */
  function SearchMultiple(catalog: Catalog, query: string, engines: seq<Engine>)
      : (r: Loaded<seq<Result<seq<Track>, LoadErr>>>)
    ensures r.Panics? <==> exists i :: 0 <= i < |engines| && SearchSingle(catalog, query, engines[i]).Panics?
    ensures !r.Bailed?
    ensures r.Got? ==> |r.value| == |engines|
    ensures r.Got? ==> forall i :: 0 <= i < |engines| ==> r.value[i] == Slot(SearchSingle(catalog, query, engines[i]))
    decreases |engines|
  {
    if engines == [] then Got([])
    else
      var first := SearchSingle(catalog, query, engines[0]);
      var rest := SearchMultiple(catalog, query, engines[1..]);
      assert forall i :: 1 <= i < |engines| ==> engines[1..][i - 1] == engines[i];
      if first.Panics? || rest.Panics? then Panics
      else Got([Slot(first)] + rest.value)
  }

  /** When every answer that arrives is well formed, searching several engines never panics. */
  lemma WellFormedSearchesDoNotPanic(catalog: Catalog, query: string, engines: seq<Engine>)
    requires forall i :: 0 <= i < |engines| && catalog(EngineQuery(engines[i], query)).Ok? ==>
               WellFormed(catalog(EngineQuery(engines[i], query)).value)
    ensures SearchMultiple(catalog, query, engines).Got?
  {
  }

  /** `load_direct`: the query string as it is, through `raise_for_load_type`. */
  function LoadDirect(catalog: Catalog, query: string): (r: Loaded<Option<LoadData>>)
    ensures catalog(query).Err? ==> r == Bailed(RequestFailed(catalog(query).error))
    ensures catalog(query).Ok? ==> r == RaiseForLoadType(catalog(query).value)
  {
    match catalog(query)
    case Err(reason) => Bailed(RequestFailed(reason))
    case Ok(response) => RaiseForLoadType(response)
  }

  /**
   * `load_or_search`: a query without any token panics at the `unwrap`; a search
   * query goes to the default engine and comes back wrapped as search results;
   * anything else is loaded directly and must yield data.
   */
  function LoadOrSearch(catalog: Catalog, query: string): (r: Loaded<LoadData>)
    ensures !HasToken(query) ==> r == Panics
    // a search query: what the default engine answers, always as search results
    ensures HasToken(query) && IsSearchQuery(query) ==>
              var answer := catalog(EngineQuery(DefaultSearchEngine, query));
              && (r.Got? ==> r.value.Search?)
              && (answer.Err? ==> r == Bailed(RequestFailed(answer.error)))
              && (answer.Ok? && answer.value.loadType == ErrorType ==>
                    (r.Panics? <==> !WellFormed(answer.value))
                    && (WellFormed(answer.value) ==> r == Bailed(LoadFailed(answer.value.data.value.error))))
              && (answer.Ok? && answer.value.loadType != ErrorType ==>
                    match answer.value.data
                    case None => r == Got(Search([]))
                    case Some(Search(results)) => r == Got(Search(results))
                    case Some(_) => r == Bailed(NotSearchResults))
    // any other query: what the server answers for the query itself, which must carry data
    ensures HasToken(query) && !IsSearchQuery(query) ==>
              var answer := catalog(query);
              && (answer.Err? ==> r == Bailed(RequestFailed(answer.error)))
              && (answer.Ok? && answer.value.loadType == ErrorType ==>
                    (r.Panics? <==> !WellFormed(answer.value))
                    && (WellFormed(answer.value) ==> r == Bailed(LoadFailed(answer.value.data.value.error))))
              && (answer.Ok? && answer.value.loadType != ErrorType ==>
                    match answer.value.data
                    case None => r == Bailed(NoMatches)
                    case Some(data) => r == Got(data))
  {
    if !HasToken(query) then Panics
    else if IsSearchQuery(query) then
      match SearchSingle(catalog, query, DefaultSearchEngine)
      case Got(results) => Got(Search(results))
      case Bailed(e) => Bailed(e)
      case Panics => Panics
    else
      match LoadDirect(catalog, query)
      case Got(Some(data)) => Got(data)
      case Got(None) => Bailed(NoMatches)
      case Bailed(e) => Bailed(e)
      case Panics => Panics
  }

  /** A search query's results always come back as the Search variant, never as a track or playlist. */
  lemma SearchQueryYieldsSearch(catalog: Catalog, query: string)
    requires HasToken(query) && IsSearchQuery(query)
    ensures LoadOrSearch(catalog, query).Got? ==> LoadOrSearch(catalog, query).value.Search?
  {
  }

  /** A direct load that finds nothing fails with "No matches for identifier". */
  lemma DirectLoadWithoutDataFails(catalog: Catalog, query: string)
    requires HasToken(query) && !IsSearchQuery(query)
    requires catalog(query).Ok? && catalog(query).value.loadType != ErrorType
    requires catalog(query).value.data == None
    ensures LoadOrSearch(catalog, query) == Bailed(NoMatches)
    ensures ErrorText(LoadOrSearch(catalog, query).error) == "No matches for identifier"
  {
  }

  /** URLs and mixes are never searched, whatever else they contain. */
  lemma KnownPrefixesLoadDirectly(query: string)
    requires HasToken(query)
    requires StartsWith(query, "http") || StartsWith(query, "mix:")
    ensures !IsSearchQuery(query)
  {
  }

  /** A query with no colon anywhere is never searched either, e.g. plain words. */
  lemma UnprefixedQueriesLoadDirectly(query: string)
    requires HasToken(query)
    requires forall k :: 0 <= k < |query| ==> query[k] != ':'
    ensures !IsSearchQuery(query)
  {
    var start, end := FirstTokenPlace(query);
    assert forall j :: 0 <= j < |FirstToken(query)| ==> FirstToken(query)[j] == query[start + j];
  }
}
