/** The normaliser on the situations its unit tests describe, and the general
    statement behind the multiple-results test. */
module KBScenarios {
  import opened Wrappers
  import opened PyValues
  import opened KBResults
  import opened FilterMap

  /** A result carrying only text and a score. */
  function TextOnly(text: string, score: real): RawResult {
    RawResult(Present(Some(text)), Present(Some(score)), Absent, Absent, Absent, Absent, Absent)
  }

  /** When every raw result carries text, nothing is dropped: node k comes from
      raw result k, so order and scores are preserved exactly. */
  lemma EveryTextKeptInOrder(response: Response)
    requires forall i :: 0 <= i < |ResultsOf(response)| ==> TextOf(ResultsOf(response)[i]) != ""
    ensures |Normalize(response)| == |ResultsOf(response)|
    ensures forall k :: 0 <= k < |ResultsOf(response)| ==>
      ConvertResult(k, ResultsOf(response)[k]) == Some(Normalize(response)[k])
  {
    var rs := ResultsOf(response);
    FilterMapKeepsAll(ConvertResult, rs, |rs|);
  }

  /** One fully populated result: its text, score and attributes reach the node, the
      extra metadata is added, and `chunk_id` names the node. */
  lemma BasicRetrieval()
    ensures var r := RawResult(
        Present(Some("Machine learning is a subset of AI.")), Present(Some(0.95)), Absent,
        Present(PyStr("doc-123")), Present(PyStr("chunk-456")), Present(PyStr("ml_textbook.pdf")),
        Present(Some(map["page" := PyInt(42)])));
      Normalize(Response(Present(Some([r])))) ==
        [Node("Machine learning is a subset of AI.",
              map[DocumentIdKey := PyStr("doc-123"), ChunkIdKey := PyStr("chunk-456"),
                  SourceKey := PyStr("ml_textbook.pdf"), "page" := PyInt(42)],
              0.95, "chunk-456")]
  {
    var r := RawResult(
      Present(Some("Machine learning is a subset of AI.")), Present(Some(0.95)), Absent,
      Present(PyStr("doc-123")), Present(PyStr("chunk-456")), Present(PyStr("ml_textbook.pdf")),
      Present(Some(map["page" := PyInt(42)])));
    var m := map[DocumentIdKey := PyStr("doc-123"), ChunkIdKey := PyStr("chunk-456"),
                 SourceKey := PyStr("ml_textbook.pdf"), "page" := PyInt(42)];
    assert MergedMetadata(r) == m;
    assert ConvertPrefix([r], 1) == [ConvertResult(0, r).value];
  }

  /** A result with text, a score, a document id and a chunk id, as the
      multiple-results test builds them. */
  function Numbered(text: string, score: real, documentId: string, chunkId: string): RawResult {
    RawResult(Present(Some(text)), Present(Some(score)), Absent,
              Present(PyStr(documentId)), Present(PyStr(chunkId)), Absent, Absent)
  }

  /** Three results with text: three nodes, same order, same scores, each named by its
      chunk id. */
  lemma MultipleResults()
    ensures var nodes := Normalize(Response(Present(Some([
        Numbered("Content 0", 0.9, "doc-0", "chunk-0"),
        Numbered("Content 1", 0.8, "doc-1", "chunk-1"),
        Numbered("Content 2", 0.7, "doc-2", "chunk-2")]))));
      |nodes| == 3 && nodes[0].text == "Content 0" && nodes[1].text == "Content 1" && nodes[2].text == "Content 2"
      && nodes[0].score == 0.9 && nodes[1].score == 0.8 && nodes[2].score == 0.7
      && nodes[0].id == "chunk-0" && nodes[1].id == "chunk-1" && nodes[2].id == "chunk-2"
  {
  }

  /** Attributes holding `None` are still stored; `metadata=None` adds nothing and the
      `None` chunk id falls back to the positional id. */
  lemma NoneMetadataValues()
    ensures var r := RawResult(
        Present(Some("Content with None metadata")), Present(Some(0.8)), Absent,
        Present(PyNone), Present(PyNone), Present(PyNone), Present(None));
      Normalize(Response(Present(Some([r])))) ==
        [Node("Content with None metadata",
              map[DocumentIdKey := PyNone, ChunkIdKey := PyNone, SourceKey := PyNone],
              0.8, "gradient_kb_0")]
  {
    var r := RawResult(
      Present(Some("Content with None metadata")), Present(Some(0.8)), Absent,
      Present(PyNone), Present(PyNone), Present(PyNone), Present(None));
    assert MergedMetadata(r) == map[DocumentIdKey := PyNone, ChunkIdKey := PyNone, SourceKey := PyNone];
    assert FallbackId(0) == "gradient_kb_0";
    assert ConvertPrefix([r], 1) == [ConvertResult(0, r).value];
  }

  /** Without any score attribute the node scores 1.0. Here both score attributes are missing. The unit test's mock object still answers
      `relevance_score` (with an object whose `float()` is 1.0), so there the 1.0 comes
      from the `relevance_score` branch instead of the default; the result is the same. */
  lemma MissingScore()
    ensures var r := RawResult(
        Present(Some("Some content")), Absent, Absent,
        Present(PyStr("doc-no-score")), Present(PyStr("chunk-no-score")), Present(PyStr("test.pdf")), Present(None));
      var nodes := Normalize(Response(Present(Some([r]))));
      |nodes| == 1 && nodes[0].score == 1.0 && nodes[0].id == "chunk-no-score"
  {
  }

  /** A skipped result still uses up its position: the two results after an empty one
      are named after positions 1 and 2. */
  lemma SkippedResultKeepsPositions()
    ensures var empty := RawResult(Present(Some("")), Absent, Absent, Absent, Absent, Absent, Absent);
      var nodes := Normalize(Response(Present(Some([empty, TextOnly("A", 0.5), TextOnly("B", 0.4)]))));
      |nodes| == 2 && nodes[0].id == "gradient_kb_1" && nodes[1].id == "gradient_kb_2"
  {
    var empty := RawResult(Present(Some("")), Absent, Absent, Absent, Absent, Absent, Absent);
    var rs := [empty, TextOnly("A", 0.5), TextOnly("B", 0.4)];
    assert ConvertResult(0, empty) == None;
    assert ConvertPrefix(rs, 1) == [];
    assert ConvertPrefix(rs, 2) == [ConvertResult(1, rs[1]).value];
    assert ConvertPrefix(rs, 3) == [ConvertResult(1, rs[1]).value, ConvertResult(2, rs[2]).value];
    assert FallbackId(1) == "gradient_kb_1";
    assert FallbackId(2) == "gradient_kb_2";
  }
}
