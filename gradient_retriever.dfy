/** The retriever object: its validated configuration and the imperative
    result normaliser. */
module GradientRetriever {
  import opened Wrappers
  import opened PyValues
  import opened KBResults

  /** The `ValueError` raised by the constructor. */
  datatype ConfigError = ValueError(message: string)

  const MissingKnowledgeBaseId: string := "knowledge_base_id is required and must be provided."
  const MissingApiToken: string := "api_token is required and must be provided."

  /** Default arguments of the constructor. */
  const DefaultNumResults: int := 5
  const DefaultTimeout: real := 60.0

  /** A required string argument passes Python's `not x` test: it is neither `None` nor `""`. */
  predicate Provided(arg: Option<string>) {
    arg.Some? && arg.value != ""
  }

  /** The constructor's validation: the knowledge-base id is checked first, then the token. */
  function CheckConfig(knowledgeBaseId: Option<string>, apiToken: Option<string>): (e: Option<ConfigError>)
    ensures e.None? <==> Provided(knowledgeBaseId) && Provided(apiToken)
    ensures !Provided(knowledgeBaseId) ==> e == Some(ValueError(MissingKnowledgeBaseId))
    ensures Provided(knowledgeBaseId) && !Provided(apiToken) ==> e == Some(ValueError(MissingApiToken))
  {
    if !Provided(knowledgeBaseId) then Some(ValueError(MissingKnowledgeBaseId))
    else if !Provided(apiToken) then Some(ValueError(MissingApiToken))
    else None
  }

  /** The arguments of the remote `retrieve.documents` call. */
  datatype DocumentsRequest = DocumentsRequest(knowledgeBaseId: string, numResults: int, query: string)

  class GradientKBRetriever {
    var knowledgeBaseId: string
    var apiToken: string
    var numResults: int
    var baseUrl: Option<string>
    var timeout: real

    /** A constructed retriever always holds a non-empty id and token. */
    ghost predicate Valid()
      reads this
    {
      knowledgeBaseId != "" && apiToken != ""
    }

    /** Stores the five configuration values as given; reached only through Create,
        after validation. */
    constructor (knowledgeBaseId: string, apiToken: string, numResults: int, baseUrl: Option<string>, timeout: real)
      requires knowledgeBaseId != "" && apiToken != ""
      ensures Valid()
      ensures this.knowledgeBaseId == knowledgeBaseId && this.apiToken == apiToken
      ensures this.numResults == numResults && this.baseUrl == baseUrl && this.timeout == timeout
    {
      this.knowledgeBaseId := knowledgeBaseId;
      this.apiToken := apiToken;
      this.numResults := numResults;
      this.baseUrl := baseUrl;
      this.timeout := timeout;
    }

    /** The metadata dictionary of one result: each identifying attribute the result
        has, then its extra metadata written over them. */
    method BuildMetadata(result: RawResult) returns (metadata: map<string, Value>)
      ensures metadata == MergedMetadata(result)
    {
      metadata := map[];
      if result.documentId.Present? {
        metadata := metadata[DocumentIdKey := result.documentId.value];
      }
      assert metadata == Put(map[], DocumentIdKey, result.documentId);
      ghost var withDocumentId := metadata;
      if result.chunkId.Present? {
        metadata := metadata[ChunkIdKey := result.chunkId.value];
      }
      assert metadata == Put(withDocumentId, ChunkIdKey, result.chunkId);
      ghost var withChunkId := metadata;
      if result.source.Present? {
        metadata := metadata[SourceKey := result.source.value];
      }
      assert metadata == Put(withChunkId, SourceKey, result.source);
      assert metadata == ExtractedMetadata(result);
      ghost var extracted := metadata;
      if result.metadata.Present? && result.metadata.value.Some? && |result.metadata.value.value| > 0 {
        metadata := metadata + result.metadata.value.value;
      }
      assert metadata == extracted + ExtraMetadata(result);
    }

    /** The score of one result, defaulting to 1.0. */
    method PickScore(result: RawResult) returns (score: real)
      ensures score == ScoreOf(result)
    {
      score := DefaultScore;
      if result.score.Present? {
        score := result.score.value.GetOr(DefaultScore);
      } else if result.relevanceScore.Present? {
        score := result.relevanceScore.value.GetOr(DefaultScore);
      }
    }

    /** The node for a result with text at position `idx`: its metadata, its score, and
        `str(metadata.get("chunk_id") or f"gradient_kb_{idx}")` as its id. */
    method BuildNode(idx: nat, textContent: string, result: RawResult) returns (node: Node)
      requires textContent != "" && textContent == TextOf(result)
      ensures ConvertResult(idx, result) == Some(node)
    {
      var metadata := BuildMetadata(result);
      var score := PickScore(result);
      var chunk := if ChunkIdKey in metadata then metadata[ChunkIdKey] else PyNone;
      var id := if Truthy(chunk) then StrOf(chunk) else FallbackId(idx);
      node := Node(textContent, metadata, score, id);
    }

    /** `_convert_to_nodes`: walks the raw results in order, skips those without text,
        and appends one node per remaining result. */
    method ConvertToNodes(response: Response) returns (nodes: seq<Node>)
      ensures nodes == Normalize(response)
    {
      nodes := [];
      if response.results.Absent? || response.results.value.None? || response.results.value.value == [] {
        return;
      }
      var results := response.results.value.value;
      for idx := 0 to |results|
        invariant nodes == ConvertPrefix(results, idx)
      {
        var result := results[idx];
        var textContent := "";
        if result.textContent.Present? {
          textContent := result.textContent.value.GetOr("");
        }
        assert textContent == TextOf(result);
        if textContent == "" {
          continue;
        }

        var node := BuildNode(idx, textContent, result);
        nodes := nodes + [node];
      }
    }

    /** `_retrieve`: asks the knowledge base named by this retriever for `numResults`
        results for `query`; `response` stands for what the remote call answers, and
        the nodes are its normalisation. */
    method Retrieve(query: string, response: Response) returns (request: DocumentsRequest, nodes: seq<Node>)
      ensures request.knowledgeBaseId == knowledgeBaseId && request.numResults == numResults
      ensures request.query == query
      ensures nodes == Normalize(response)
    {
      request := DocumentsRequest(knowledgeBaseId, numResults, query);
      nodes := ConvertToNodes(response);
    }
  }

  /** `GradientKBRetriever(...)`: raises the first failing validation, otherwise
      returns a new retriever holding the arguments unchanged. */
  method Create(knowledgeBaseId: Option<string>, apiToken: Option<string>, numResults: int := DefaultNumResults,
                baseUrl: Option<string> := None, timeout: real := DefaultTimeout)
    returns (r: Result<GradientKBRetriever, ConfigError>)
    ensures CheckConfig(knowledgeBaseId, apiToken).Some? ==> r == Failure(CheckConfig(knowledgeBaseId, apiToken).value)
    ensures CheckConfig(knowledgeBaseId, apiToken).None? ==>
      && r.Success? && fresh(r.value) && r.value.Valid()
      && r.value.knowledgeBaseId == knowledgeBaseId.value && r.value.apiToken == apiToken.value
      && r.value.numResults == numResults && r.value.baseUrl == baseUrl && r.value.timeout == timeout
  {
    if knowledgeBaseId.None? || knowledgeBaseId.value == "" {
      return Failure(ValueError(MissingKnowledgeBaseId));
    }
    if apiToken.None? || apiToken.value == "" {
      return Failure(ValueError(MissingApiToken));
    }
    var retriever := new GradientKBRetriever(knowledgeBaseId.value, apiToken.value, numResults, baseUrl, timeout);
    return Success(retriever);
  }
}
