/**
 * The batch indexing flow of backend/src/flows/rag/index-documents.ts: every input
 * document is indexed in turn, a failure (of the embedder or of Firestore's `add`)
 * is counted and skipped, and the report lists the new ids in input order.
 */
module IndexDocuments {
  import opened Wrappers
  import opened Time
  import opened VectorSimilarity
  import opened BackendTypes
  import opened KnowledgeBase

  datatype DocInput = DocInput(title: string, content: string, category: string, metadata: Option<Metadata>)

  datatype IndexReport = IndexReport(totalDocuments: nat, indexed: nat, failed: nat, documentIds: seq<string>)

  /** The document the store holds after indexing input `d` under `id` at `now`. */
  function Indexed(d: DocInput, embedding: Vector, id: string, now: Instant): RagDocument {
    RagDocument(id, d.title, d.content, d.category, Some(embedding), d.metadata, now, now)
  }

  /**
   * Input `d` is stored when its embedding succeeds and the store's `add` answers
   * an id (`None` when the write throws).
   */
  predicate Stored(d: DocInput, embed: string -> Option<Vector>, id: Option<string>) {
    embed(d.content).Some? && id.Some?
  }

  /**
   * The report after the loop has visited `inputs`, the i-th input being stored
   * under `newIds[i]` when it is stored at all.
   */
  function Report(inputs: seq<DocInput>, embed: string -> Option<Vector>, newIds: seq<Option<string>>): IndexReport
    requires |newIds| == |inputs|
    decreases |inputs|
  {
    if inputs == [] then IndexReport(0, 0, 0, [])
    else
      var n := |inputs| - 1;
      var p := Report(inputs[..n], embed, newIds[..n]);
      if Stored(inputs[n], embed, newIds[n]) then
        IndexReport(p.totalDocuments + 1, p.indexed + 1, p.failed, p.documentIds + [newIds[n].value])
      else
        IndexReport(p.totalDocuments + 1, p.indexed, p.failed + 1, p.documentIds)
  }

  /** The documents the loop adds to the store, in input order. */
  function Added(inputs: seq<DocInput>, embed: string -> Option<Vector>, newIds: seq<Option<string>>, now: Instant): seq<RagDocument>
    requires |newIds| == |inputs|
    decreases |inputs|
  {
    if inputs == [] then []
    else
      var n := |inputs| - 1;
      Added(inputs[..n], embed, newIds[..n], now)
        + (if Stored(inputs[n], embed, newIds[n]) then [Indexed(inputs[n], embed(inputs[n].content).value, newIds[n].value, now)]
           else [])
  }

  /**
   * The counters add up: every input is counted once, as indexed or as failed, and
   * the id list has one entry per indexed document.
   */
  lemma {:induction false} ReportCounts(inputs: seq<DocInput>, embed: string -> Option<Vector>, newIds: seq<Option<string>>)
    requires |newIds| == |inputs|
    ensures var r := Report(inputs, embed, newIds);
      && r.totalDocuments == |inputs|
      && r.indexed + r.failed == r.totalDocuments
      && |r.documentIds| == r.indexed
  {
    if inputs != [] {
      var n := |inputs| - 1;
      ReportCounts(inputs[..n], embed, newIds[..n]);
    }
  }

  /**
   * The reported ids are the ids of the added documents, in input order, and a
   * document is added for input i exactly when it is stored.
   */
  lemma {:induction false} ReportListsAdded(inputs: seq<DocInput>, embed: string -> Option<Vector>, newIds: seq<Option<string>>,
                                            now: Instant)
    requires |newIds| == |inputs|
    ensures var added := Added(inputs, embed, newIds, now);
      && |added| == |Report(inputs, embed, newIds).documentIds|
      && forall k :: 0 <= k < |added| ==> added[k].id == Report(inputs, embed, newIds).documentIds[k]
  {
    if inputs != [] {
      var n := |inputs| - 1;
      ReportListsAdded(inputs[..n], embed, newIds[..n], now);
    }
  }

  /**
   * No input fails when the embedder and every write answer, and then every
   * issued id is listed in order; nothing is indexed when each input's embedding
   * or write fails.
   */
  lemma {:induction false} ReportExtremes(inputs: seq<DocInput>, embed: string -> Option<Vector>, newIds: seq<Option<string>>)
    requires |newIds| == |inputs|
    ensures (forall i :: 0 <= i < |inputs| ==> Stored(inputs[i], embed, newIds[i])) ==>
      var r := Report(inputs, embed, newIds);
      && r.failed == 0 && |r.documentIds| == |newIds|
      && forall k :: 0 <= k < |newIds| ==> newIds[k] == Some(r.documentIds[k])
    ensures (forall i :: 0 <= i < |inputs| ==> !Stored(inputs[i], embed, newIds[i])) ==>
      Report(inputs, embed, newIds).indexed == 0
  {
    if inputs != [] {
      var n := |inputs| - 1;
      ReportExtremes(inputs[..n], embed, newIds[..n]);
      ReportCounts(inputs[..n], embed, newIds[..n]);
    }
  }

  /** The ids the store issues are pairwise distinct. */
  predicate Distinct(ids: seq<Option<string>>) {
    forall i, j :: 0 <= i < j < |ids| && ids[i].Some? ==> ids[i] != ids[j]
  }

  /**
   * `flow_index_documents`. The store's `add` answers `newIds[i]` for the i-th input
   * (`None` when it throws); the ids it issues are distinct and not yet used, as the
   * store guarantees.
   */
  method IndexDocumentsFlow(store: KnowledgeStore, inputs: seq<DocInput>, embed: string -> Option<Vector>,
                            newIds: seq<Option<string>>, now: Instant)
    returns (report: IndexReport)
    requires store.Valid()
    requires |newIds| == |inputs| && Distinct(newIds)
    requires forall k :: 0 <= k < |newIds| && newIds[k].Some? ==> store.Fresh(newIds[k].value)
    modifies store
    ensures store.Valid()
    ensures report == Report(inputs, embed, newIds)
    ensures store.docs == old(store.docs) + Added(inputs, embed, newIds, now)
  {
    report := IndexReport(|inputs|, 0, 0, []);
    var i := 0;
    while i < |inputs|
      invariant 0 <= i <= |inputs|
      invariant store.Valid()
      invariant report == Report(inputs[..i], embed, newIds[..i]).(totalDocuments := |inputs|)
      invariant store.docs == old(store.docs) + Added(inputs[..i], embed, newIds[..i], now)
      invariant forall k :: i <= k < |newIds| && newIds[k].Some? ==> store.Fresh(newIds[k].value)
    {
      var d := inputs[i];
      assert inputs[..i + 1][..i] == inputs[..i];
      assert newIds[..i + 1][..i] == newIds[..i];
      var result := store.IndexDocument(d.title, d.content, d.category, d.metadata, now, embed, newIds[i], now);
      if result.Ok? {
        report := report.(indexed := report.indexed + 1, documentIds := report.documentIds + [result.value]);
      } else {
        report := report.(failed := report.failed + 1);
      }
      i := i + 1;
    }
    assert inputs[..|inputs|] == inputs;
    assert newIds[..|newIds|] == newIds;
    ReportCounts(inputs, embed, newIds);
  }
}
