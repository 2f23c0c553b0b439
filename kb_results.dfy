/** The result normaliser of the Gradient knowledge-base retriever, as pure
    specification functions: how one raw search result becomes a scored text node,
    and how a whole response becomes the list of nodes. The imperative version
    (GradientRetriever.GradientKBRetriever.ConvertToNodes) is proved equal to Normalize. */
module KBResults {
  import opened Wrappers
  import opened PyValues
  import opened FilterMap

  /** One entry of `response.results`. Every attribute may be missing; when present it
      may still hold `None`. Scores are already numbers (`float()` is the identity on them). */
  datatype RawResult = RawResult(
    textContent: Field<Option<string>>,
    score: Field<Option<real>>,
    relevanceScore: Field<Option<real>>,
    documentId: Field<Value>,
    chunkId: Field<Value>,
    source: Field<Value>,
    metadata: Field<Option<map<string, Value>>>)

  /** The object returned by the remote retrieval call. */
  datatype Response = Response(results: Field<Option<seq<RawResult>>>)

  /** A text node paired with its score. */
  datatype Node = Node(text: string, metadata: map<string, Value>, score: real, id: string)

  const DocumentIdKey: string := "document_id"
  const ChunkIdKey: string := "chunk_id"
  const SourceKey: string := "source"
  const DefaultScore: real := 1.0
  const FallbackPrefix: string := "gradient_kb_"

  /** The raw results to walk: none when `results` is missing, `None` or empty. */
  function ResultsOf(response: Response): (rs: seq<RawResult>)
    ensures response.results.Absent? || response.results.value.None? ==> rs == []
    ensures response.results.Present? && response.results.value.Some? ==> rs == response.results.value.value
  {
    match response.results
    case Absent => []
    case Present(rs) => rs.GetOr([])
  }

  /** `result.text_content or ""` when the attribute exists, else `""`. */
  function TextOf(r: RawResult): (t: string)
    ensures t != "" <==> r.textContent.Present? && r.textContent.value.Some? && r.textContent.value.value != ""
    ensures t != "" ==> t == r.textContent.value.value
  {
    match r.textContent
    case Absent => ""
    case Present(text) => text.GetOr("")
  }

  /** `m` records attribute `f` under `key`: the key is there exactly when the
      attribute exists, and then it holds the attribute's value, `None` included. */
  predicate Records(m: map<string, Value>, key: string, f: Field<Value>) {
    (key in m <==> f.Present?) && (f.Present? ==> m[key] == f.value)
  }

  /** `if hasattr(result, key): metadata[key] = result.<key>`. */
  function Put(m: map<string, Value>, key: string, f: Field<Value>): map<string, Value> {
    if f.Present? then m[key := f.value] else m
  }

  /** The metadata taken from the three identifying attributes. */
  function ExtractedMetadata(r: RawResult): (m: map<string, Value>)
    ensures m.Keys <= {DocumentIdKey, ChunkIdKey, SourceKey}
    ensures Records(m, DocumentIdKey, r.documentId)
    ensures Records(m, ChunkIdKey, r.chunkId)
    ensures Records(m, SourceKey, r.source)
  {
    Put(Put(Put(map[], DocumentIdKey, r.documentId), ChunkIdKey, r.chunkId), SourceKey, r.source)
  }

  /** The extra metadata that gets merged: `result.metadata` when it exists and is a
      non-empty dictionary, else nothing. */
  function ExtraMetadata(r: RawResult): (extra: map<string, Value>)
    ensures r.metadata.Present? && r.metadata.value.Some? ==> extra == r.metadata.value.value
    ensures !(r.metadata.Present? && r.metadata.value.Some?) ==> extra == map[]
  {
    match r.metadata
    case Present(Some(m)) => if |m| > 0 then m else map[]
    case _ => map[]
  }

  /** The node's metadata: the extracted attributes, then the extra metadata written
      over them (`metadata.update(result.metadata)`). */
  function MergedMetadata(r: RawResult): (m: map<string, Value>)
    ensures m.Keys == ExtractedMetadata(r).Keys + ExtraMetadata(r).Keys
  {
    ExtractedMetadata(r) + ExtraMetadata(r)
  }

  /** What the merged metadata holds: every extra key with the extra value, which wins
      on a shared key; each identifying attribute the extra metadata does not override,
      exactly when the result has it and with its value (`None` included); nothing else. */
  lemma MergedMetadataContents(r: RawResult)
    ensures var m := MergedMetadata(r); var extra := ExtraMetadata(r);
      && (forall k :: k in extra ==> k in m && m[k] == extra[k])
      && (forall k :: k !in extra && k !in {DocumentIdKey, ChunkIdKey, SourceKey} ==> k !in m)
      && (DocumentIdKey !in extra ==> Records(m, DocumentIdKey, r.documentId))
      && (ChunkIdKey !in extra ==> Records(m, ChunkIdKey, r.chunkId))
      && (SourceKey !in extra ==> Records(m, SourceKey, r.source))
  {
  }

  /** The node's score: the first of `score`, `relevance_score` that exists decides,
      and a `None` there means the default 1.0. */
  function ScoreOf(r: RawResult): (s: real)
    ensures r.score.Present? && r.score.value.Some? ==> s == r.score.value.value
    ensures r.score == Present(None) ==> s == DefaultScore
    ensures r.score.Absent? && r.relevanceScore.Present? && r.relevanceScore.value.Some? ==> s == r.relevanceScore.value.value
    ensures r.score.Absent? && r.relevanceScore == Present(None) ==> s == DefaultScore
    ensures r.score.Absent? && r.relevanceScore.Absent? ==> s == DefaultScore
  {
    var chosen := match r.score
      case Present(v) => v
      case Absent => (match r.relevanceScore case Present(v) => v case Absent => None);
    chosen.GetOr(DefaultScore)
  }

  /** The synthetic id `f"gradient_kb_{idx}"`. */
  function FallbackId(idx: nat): (id: string)
    ensures |id| > |FallbackPrefix| && id[..|FallbackPrefix|] == FallbackPrefix
  {
    FallbackPrefix + NatToString(idx)
  }

  /** The position can be read back from a synthetic id, so distinct positions give
      distinct ids. */
  lemma FallbackIdDecodes(idx: nat)
    ensures IsDigits(FallbackId(idx)[|FallbackPrefix|..])
    ensures DigitsValue(FallbackId(idx)[|FallbackPrefix|..]) == idx
  {
    assert FallbackId(idx)[|FallbackPrefix|..] == NatToString(idx);
    DigitsValueOfNatToString(idx);
  }

  /** Distinct positions never share a synthetic id. */
  lemma FallbackIdInjective(i: nat, j: nat)
    ensures FallbackId(i) == FallbackId(j) ==> i == j
  {
    FallbackIdDecodes(i);
    FallbackIdDecodes(j);
  }

  /** The merged metadata's `chunk_id` is there and truthy. */
  predicate HasChunkId(m: map<string, Value>) {
    ChunkIdKey in m && Truthy(m[ChunkIdKey])
  }

  /** `str(metadata.get("chunk_id") or f"gradient_kb_{idx}")`. */
  function NodeId(idx: nat, m: map<string, Value>): (id: string)
    ensures HasChunkId(m) ==> id == StrOf(m[ChunkIdKey])
    ensures !HasChunkId(m) ==> id == FallbackId(idx)
  {
    var chosen := if ChunkIdKey in m then m[ChunkIdKey] else PyNone;
    if Truthy(chosen) then StrOf(chosen) else FallbackId(idx)
  }

  /** The node made from the raw result at position `idx`, or None when the result is skipped. */
  function ConvertResult(idx: nat, r: RawResult): (n: Option<Node>)
    ensures n.Some? <==> TextOf(r) != ""
  {
    var text := TextOf(r);
    if text == "" then None
    else
      var metadata := MergedMetadata(r);
      Some(Node(text, metadata, ScoreOf(r), NodeId(idx, metadata)))
  }

  /** The nodes made from the first `n` raw results. */
  function ConvertPrefix(rs: seq<RawResult>, n: nat): (nodes: seq<Node>)
    requires n <= |rs|
  {
    FilterMapPrefix(ConvertResult, rs, n)
  }

  /** `_convert_to_nodes(response)`. */
  function Normalize(response: Response): (nodes: seq<Node>)
    ensures response.results.Absent? || response.results.value.None? ==> nodes == []
    ensures response.results == Present(Some([])) ==> nodes == []
    ensures |nodes| <= |ResultsOf(response)|
  {
    var rs := ResultsOf(response);
    ConvertPrefix(rs, |rs|)
  }

  /** The positions of the raw results that carry text. */
  function KeptIndices(rs: seq<RawResult>): seq<nat> {
    KeptPositions(ConvertResult, rs, |rs|)
  }

  /** The whole response: the output lists, in server order, one node per raw result
      with text (KeptIndices: every such position, increasing); each node keeps that
      result's text and takes its metadata, score and id from that result and its
      position among ALL raw results. */
  lemma NormalizeIsFilterMap(response: Response)
    ensures var rs := ResultsOf(response); var ks := KeptIndices(rs);
      && |Normalize(response)| == |ks|
      && (forall i :: 0 <= i < |rs| ==> (TextOf(rs[i]) != "" <==> i in ks))
      && (forall k1, k2 :: 0 <= k1 < k2 < |ks| ==> ks[k1] < ks[k2])
      && (forall k :: 0 <= k < |ks| ==>
            var node := Normalize(response)[k];
            && ks[k] < |rs|
            && node.text == TextOf(rs[ks[k]])
            && node.metadata == MergedMetadata(rs[ks[k]])
            && node.score == ScoreOf(rs[ks[k]])
            && node.id == NodeId(ks[k], node.metadata))
  {
    var rs := ResultsOf(response);
    FilterMapShape(ConvertResult, rs, |rs|);
  }

  /** Nodes whose merged metadata has no usable `chunk_id` get pairwise distinct ids,
      because each one's id names its own raw position. */
  lemma FallbackIdsDistinct(response: Response)
    ensures var nodes := Normalize(response);
      forall k1, k2 :: 0 <= k1 < k2 < |nodes| && !HasChunkId(nodes[k1].metadata) && !HasChunkId(nodes[k2].metadata) ==>
        nodes[k1].id != nodes[k2].id
  {
    var rs := ResultsOf(response);
    var ks := KeptIndices(rs);
    var nodes := Normalize(response);
    NormalizeIsFilterMap(response);
    forall k1, k2 | 0 <= k1 < k2 < |nodes| && !HasChunkId(nodes[k1].metadata) && !HasChunkId(nodes[k2].metadata)
      ensures nodes[k1].id != nodes[k2].id
    {
      assert nodes[k1].id == FallbackId(ks[k1]);
      assert nodes[k2].id == FallbackId(ks[k2]);
      FallbackIdInjective(ks[k1], ks[k2]);
    }
  }

  /** Where a node's id comes from: a truthy `chunk_id` in the extra metadata wins over
      the result's own `chunk_id` attribute; the attribute is used when the extra
      metadata has no `chunk_id`; a falsy one (`None`, `""`, ...) gives the synthetic id,
      and a falsy one in the extra metadata hides even a truthy attribute. */
  lemma NodeIdSources(idx: nat, r: RawResult)
    requires TextOf(r) != ""
    ensures var id := ConvertResult(idx, r).value.id;
      && (ChunkIdKey in ExtraMetadata(r) && Truthy(ExtraMetadata(r)[ChunkIdKey]) ==>
            id == StrOf(ExtraMetadata(r)[ChunkIdKey]))
      && (ChunkIdKey !in ExtraMetadata(r) && r.chunkId.Present? && Truthy(r.chunkId.value) ==>
            id == StrOf(r.chunkId.value))
      && (ChunkIdKey !in ExtraMetadata(r) && (r.chunkId.Absent? || !Truthy(r.chunkId.value)) ==>
            id == FallbackId(idx))
      && (ChunkIdKey in ExtraMetadata(r) && !Truthy(ExtraMetadata(r)[ChunkIdKey]) ==>
            id == FallbackId(idx))
  {
  }
}
