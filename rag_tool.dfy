/**
 * `SeinfeldRAGTool`: the search tool the script-writing agents call. Its
 * connection handles are set, one after the other, while it is built; a
 * search either formats the hits of the vector store or falls back to the
 * canned demo response.
 */
module RagTool {
  import opened Wrappers
  import opened PyStr
  import opened Report
  import opened DemoResponse

  /** Defaults and bounds of `SeinfeldSearchInput.num_results`. */
  const DefaultNumResults: int := 5
  const MinNumResults: int := 1
  const MaxNumResults: int := 10

  /** The arguments the tool's input schema admits. */
  datatype SearchInput = SearchInput(query: string, numResults: int)

  /**
   * Validation of `SeinfeldSearchInput`: a missing count takes the default,
   * a count outside 1..10 is refused rather than clamped.
   */
  function ValidateInput(query: string, numResults: Option<int>): (r: Result<SearchInput, PyException>)
    ensures r.Ok? <==> numResults.None? || MinNumResults <= numResults.value <= MaxNumResults
    ensures r.Err? ==> r.error == ValidationError
    ensures r.Ok? ==> r.value.query == query
    ensures r.Ok? && numResults.Some? ==> r.value.numResults == numResults.value
    ensures r.Ok? && numResults.None? ==> r.value.numResults == DefaultNumResults
  {
    var n := numResults.GetOr(DefaultNumResults);
    if MinNumResults <= n <= MaxNumResults then Ok(SearchInput(query, n)) else Err(ValidationError)
  }

  /**
   * A live client object: the cluster, a bucket, an embeddings model, the
   * vector store, ... The string is only a label; nothing reads it.
   */
  datatype Handle = Handle(resource: string)

  /**
   * What the vector store's `similarity_search` did when called: it
   * returned these hits, or it raised.
   */
  datatype SearchOutcome = Returned(hits: seq<Hit>) | Raised

  /**
   * The hits `_vector_search` hands back: those the store returned, and no
   * hits when the call raised or there is no store to call.
   */
  function SearchResults(vectorStore: Option<Handle>, outcome: SearchOutcome): (hits: seq<Hit>)
    ensures outcome.Raised? || vectorStore.None? ==> hits == []
    ensures vectorStore.Some? && outcome.Returned? ==> hits == outcome.hits
  {
    match outcome
    case Raised => []
    case Returned(found) => if vectorStore.None? then [] else found
  }

  /** The answer `_run` gives for the tool's state, the query and what the search did. */
  function Respond(cluster: Option<Handle>, openAiClient: Option<Handle>, vectorStore: Option<Handle>,
                   query: string, outcome: SearchOutcome): (r: Result<string, PyException>)
    ensures cluster.None? || openAiClient.None? ==> r == Demo(query)
    ensures cluster.Some? && openAiClient.Some? && SearchResults(vectorStore, outcome) != [] ==>
      r == Ok(FormattedReport(SearchResults(vectorStore, outcome), query))
    ensures SearchResults(vectorStore, outcome) == [] ==> r == Demo(query)
  {
    if cluster.None? || openAiClient.None? then Demo(query)
    else
      var hits := SearchResults(vectorStore, outcome);
      if hits == [] then Demo(query) else Ok(FormattedReport(hits, query))
  }

  /** A failed search never surfaces: the caller gets the demo response instead. */
  lemma SearchFailureFallsBack(cluster: Option<Handle>, openAiClient: Option<Handle>,
                               vectorStore: Option<Handle>, query: string)
    ensures Respond(cluster, openAiClient, vectorStore, query, Raised) == Demo(query)
  {
  }

  /**
   * The only exception `_run` lets through is the `IndexError` of the demo
   * response on a query made only of whitespace.
   */
  lemma RespondRaisesOnlyOnBlankQuery(cluster: Option<Handle>, openAiClient: Option<Handle>,
                                      vectorStore: Option<Handle>, query: string, outcome: SearchOutcome)
    ensures Respond(cluster, openAiClient, vectorStore, query, outcome).Err? <==> 
      (query != [] && Blank(query) && (cluster.None? || openAiClient.None? || SearchResults(vectorStore, outcome) == []))
    ensures Respond(cluster, openAiClient, vectorStore, query, outcome).Err? ==>
      Respond(cluster, openAiClient, vectorStore, query, outcome).error == IndexError
  {
  }

  /** Number of connection steps `_initialize_connections` takes. */
  const ConnectionSteps: nat := 7

  class SeinfeldRagTool {
    var cluster: Option<Handle>
    var bucket: Option<Handle>
    var scope: Option<Handle>
    var collection: Option<Handle>
    var openAiClient: Option<Handle>
    var embeddings: Option<Handle>
    var vectorStore: Option<Handle>

    /**
     * The connection steps run in order and stop at the first failure, so
     * each handle is set only when the one before it is; nothing ever sets
     * the OpenAI client.
     */
    ghost predicate Valid()
      reads this
    {
      && openAiClient.None?
      && (vectorStore.Some? ==> embeddings.Some?)
      && (embeddings.Some? ==> collection.Some?)
      && (collection.Some? ==> scope.Some?)
      && (scope.Some? ==> bucket.Some?)
      && (bucket.Some? ==> cluster.Some?)
    }

    /**
     * `__init__`, which runs `_initialize_connections`. The environment and
     * the remote services are not modelled: `completed` is the number of
     * steps that succeed before the first one raises (7 when none does).
     * Step 1 creates the cluster, step 2 waits for it to be ready, then come
     * the bucket, the scope, the collection, the embeddings and the vector
     * store. The exception is caught and the tool is built all the same.
     */
    constructor (completed: nat)
      ensures Valid()
      ensures cluster.Some? <==> completed >= 1
      ensures bucket.Some? <==> completed >= 3
      ensures scope.Some? <==> completed >= 4
      ensures collection.Some? <==> completed >= 5
      ensures embeddings.Some? <==> completed >= 6
      ensures vectorStore.Some? <==> completed >= ConnectionSteps
      ensures openAiClient.None?
    {
      cluster := if completed >= 1 then Some(Handle("cluster")) else None;
      bucket := if completed >= 3 then Some(Handle("bucket")) else None;
      scope := if completed >= 4 then Some(Handle("scope")) else None;
      collection := if completed >= 5 then Some(Handle("collection")) else None;
      embeddings := if completed >= 6 then Some(Handle("embeddings")) else None;
      vectorStore := if completed >= ConnectionSteps then Some(Handle("vector store")) else None;
      openAiClient := None;
    }

    /**
     * `_vector_search`: asks the store for `numResults` hits; an exception,
     * including the one raised when there is no store, yields no hits.
     */
    method VectorSearch(query: string, numResults: int, outcome: SearchOutcome) returns (hits: seq<Hit>)
      ensures hits == SearchResults(vectorStore, outcome)
    {
      hits := SearchResults(vectorStore, outcome);
    }

    /** `_format_results`: the report, built up line by line. */
    method FormatResults(hits: seq<Hit>, query: string) returns (output: string)
      ensures output == FormattedReport(hits, query)
    {
      output := Banner();
      output := output + QueryLine(query);
      output := output + CountLine(|hits|);
      var i := 0;
      while i < |hits|
        invariant 0 <= i <= |hits|
        invariant output == Header(query, |hits|) + Concat(Examples(hits)[..i])
      {
        var number := i + 1;
        var hit := hits[i];
        output := output + Heading(number);
        output := output + MetadataLines(hit.title, hit.description);
        output := output + DialogueBlock(hit.text);
        output := output + ScoreLine(hit.score);
        output := output + Separator;
        ConcatNext(Header(query, |hits|), Examples(hits), i, Heading(number),
                   MetadataLines(hit.title, hit.description), DialogueBlock(hit.text), ScoreLine(hit.score), Separator);
        i := i + 1;
      }
      assert Examples(hits)[..|hits|] == Examples(hits);
    }

    /**
     * `_run`: the demo response unless both the cluster and the OpenAI client
     * are connected; then the formatted hits, or the demo response again
     * when the search found nothing. Since the OpenAI client is never set, a
     * tool built by its constructor always answers with the demo response.
     */
    method Run(query: string, numResults: int, outcome: SearchOutcome) returns (r: Result<string, PyException>)
      ensures r == Respond(cluster, openAiClient, vectorStore, query, outcome)
      ensures Valid() ==> r == Demo(query)
    {
      if cluster.None? || openAiClient.None? {
        return Demo(query);
      }
      var hits := VectorSearch(query, numResults, outcome);
      if hits == [] {
        return Demo(query);
      }
      var formatted := FormatResults(hits, query);
      r := Ok(formatted);
    }
  }
}
