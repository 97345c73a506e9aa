/**
 * The `knowledge_base` collection and the retrieval service of
 * backend/src/services/rag.service.ts: indexing with an embedding, similarity
 * search with a strict relevance floor, a descending sort and a top-K cut, and
 * document updates that re-embed only new content.
 *
 * The embedder is a parameter `embed`: `None` stands for a call that throws.
 */
module KnowledgeBase {
  import opened Wrappers
  import opened Seqs
  import opened Time
  import opened VectorSimilarity
  import opened BackendTypes

  datatype RagDocument = RagDocument(
    id: string,
    title: string,
    content: string,
    category: string,
    embedding: Option<Vector>,
    metadata: Option<Metadata>,
    createdAt: Instant,
    updatedAt: Instant)

  datatype RagQuery = RagQuery(query: string, topK: Option<int>, category: Option<string>)

  datatype RagResult = RagResult(content: string, relevanceScore: Score, source: string, metadata: Option<Metadata>)

  /** A result as pushed by the search loop, with the `score` field it is sorted by. */
  datatype Scored = Scored(result: RagResult, score: Score)

  /**
   * The fields a `Partial<RAGDocument>` update may carry. Its `updatedAt` is always
   * overwritten by the update's own stamp, so it is not a field here.
   */
  datatype DocPatch = DocPatch(
    title: Option<string>,
    content: Option<string>,
    category: Option<string>,
    embedding: Option<Vector>,
    metadata: Option<Metadata>,
    createdAt: Option<Instant>)

  /** `where('category', '==', c)` is applied only when the category is given and non-empty. */
  predicate InCategory(d: RagDocument, category: Option<string>) {
    category.None? || category.value == "" || d.category == category.value
  }

  function CategorySnapshot(docs: seq<RagDocument>, category: Option<string>): seq<RagDocument> {
    Filter(docs, d => InCategory(d, category))
  }

  /** Documents without an embedding, or with an empty one, are skipped. */
  predicate HasEmbedding(d: RagDocument) {
    d.embedding.Some? && |d.embedding.value| > 0
  }

  function ScoredOf(d: RagDocument, q: Vector): Scored
    requires HasEmbedding(d)
  {
    var s := Similarity(q, d.embedding.value);
    Scored(RagResult(d.content, s, d.title, d.metadata), s)
  }

  predicate Kept(d: RagDocument, q: Vector) {
    HasEmbedding(d) && Relevant(Similarity(q, d.embedding.value))
  }

  /** The results the search loop pushes, in snapshot order. */
  function Candidates(snapshot: seq<RagDocument>, q: Vector): (r: seq<Scored>)
    ensures |r| <= |snapshot|
    ensures forall i :: 0 <= i < |r| ==> Relevant(r[i].score) && r[i].result.relevanceScore == r[i].score
    decreases |snapshot|
  {
    if snapshot == [] then []
    else
      var d := snapshot[|snapshot| - 1];
      Candidates(snapshot[..|snapshot| - 1], q) + (if Kept(d, q) then [ScoredOf(d, q)] else [])
  }

  /** Every candidate is the scored form of a kept document of the snapshot. */
  lemma {:induction false} CandidatesFromSnapshot(snapshot: seq<RagDocument>, q: Vector)
    ensures forall i :: 0 <= i < |Candidates(snapshot, q)| ==>
      exists j :: 0 <= j < |snapshot| && Kept(snapshot[j], q) && Candidates(snapshot, q)[i] == ScoredOf(snapshot[j], q)
  {
    if snapshot != [] {
      var n := |snapshot| - 1;
      var front := snapshot[..n];
      CandidatesFromSnapshot(front, q);
      var c := Candidates(snapshot, q);
      var cf := Candidates(front, q);
      assert c == cf + (if Kept(snapshot[n], q) then [ScoredOf(snapshot[n], q)] else []);
      forall i | 0 <= i < |c|
        ensures exists j :: 0 <= j < |snapshot| && Kept(snapshot[j], q) && c[i] == ScoredOf(snapshot[j], q)
      {
        if i < |cf| {
          assert c[i] == cf[i];
          var j :| 0 <= j < |front| && Kept(front[j], q) && cf[i] == ScoredOf(front[j], q);
          assert snapshot[j] == front[j];
        } else {
          assert Kept(snapshot[n], q) && c[i] == ScoredOf(snapshot[n], q);
        }
      }
    } else {
      assert Candidates(snapshot, q) == [];
    }
  }

  /** Every kept document of the snapshot becomes one candidate. */
  lemma {:induction false} CandidatesCount(snapshot: seq<RagDocument>, q: Vector)
    ensures |Candidates(snapshot, q)| == Count(snapshot, d => Kept(d, q))
  {
    if snapshot != [] {
      var n := |snapshot| - 1;
      CandidatesCount(snapshot[..n], q);
      assert snapshot == snapshot[..n] + [snapshot[n]];
      FilterSnoc(snapshot[..n], snapshot[n], d => Kept(d, q));
    }
  }

  /** One more document of the snapshot adds at most one candidate at the end. */
  lemma CandidatesStep(snapshot: seq<RagDocument>, i: nat, q: Vector)
    requires i < |snapshot|
    ensures Candidates(snapshot[..i + 1], q)
         == Candidates(snapshot[..i], q) + (if Kept(snapshot[i], q) then [ScoredOf(snapshot[i], q)] else [])
  {
    assert snapshot[..i + 1][..i] == snapshot[..i];
  }

  // ---- the in-place `results.sort((a, b) => b.score - a.score)`, a stable descending sort ----

  predicate SortedDesc(s: seq<Scored>) {
    forall i, j :: 0 <= i < j < |s| ==> Key(s[i].score) >= Key(s[j].score)
  }

  predicate AllAtLeast(s: seq<Scored>, k: real) {
    forall i :: 0 <= i < |s| ==> Key(s[i].score) >= k
  }

  /** Inserts a later element after every element whose score is at least its own (stability). */
  function Insert(s: seq<Scored>, x: Scored): (r: seq<Scored>)
    ensures multiset(r) == multiset(s) + multiset{x}
    ensures |r| == |s| + 1
    decreases |s|
  {
    if s == [] then [x]
    else if Key(s[|s| - 1].score) >= Key(x.score) then s + [x]
    else
      var r' := Insert(s[..|s| - 1], x);
      assert s == s[..|s| - 1] + [s[|s| - 1]];
      r' + [s[|s| - 1]]
  }

  function SortDesc(s: seq<Scored>): (r: seq<Scored>)
    ensures multiset(r) == multiset(s)
    ensures |r| == |s|
    decreases |s|
  {
    if s == [] then []
    else
      assert s == s[..|s| - 1] + [s[|s| - 1]];
      Insert(SortDesc(s[..|s| - 1]), s[|s| - 1])
  }

  lemma {:induction false} InsertAllAtLeast(s: seq<Scored>, x: Scored, k: real)
    requires AllAtLeast(s, k) && Key(x.score) >= k
    ensures AllAtLeast(Insert(s, x), k)
  {
    if s != [] && Key(s[|s| - 1].score) < Key(x.score) {
      InsertAllAtLeast(s[..|s| - 1], x, k);
    }
  }

  lemma {:induction false} InsertSorted(s: seq<Scored>, x: Scored)
    requires SortedDesc(s)
    ensures SortedDesc(Insert(s, x))
  {
    if s != [] {
      var n := |s| - 1;
      if Key(s[n].score) < Key(x.score) {
        InsertSorted(s[..n], x);
        InsertAllAtLeast(s[..n], x, Key(s[n].score));
      }
    }
  }

  /** The sort yields a descending permutation of its input. */
  lemma {:induction false} SortDescSorted(s: seq<Scored>)
    ensures SortedDesc(SortDesc(s))
    ensures multiset(SortDesc(s)) == multiset(s)
  {
    if s != [] {
      SortDescSorted(s[..|s| - 1]);
      InsertSorted(SortDesc(s[..|s| - 1]), s[|s| - 1]);
    }
  }

  /** The results whose sort key is `c`: one class of ties. */
  function TiedAt(c: real): Scored -> bool {
    (e: Scored) => Key(e.score) == c
  }

  /** `Insert` puts `x` after everything scoring at least as high and before everything scoring lower. */
  lemma {:induction false} InsertSplits(s: seq<Scored>, x: Scored) returns (m: nat)
    ensures m <= |s| && Insert(s, x) == s[..m] + [x] + s[m..]
    ensures forall i :: m <= i < |s| ==> Key(s[i].score) < Key(x.score)
  {
    if s == [] || Key(s[|s| - 1].score) >= Key(x.score) {
      m := |s|;
    } else {
      var n := |s| - 1;
      m := InsertSplits(s[..n], x);
      assert s[..n][..m] == s[..m];
      assert s[..n][m..] + [s[n]] == s[m..];
    }
  }

  /** Inserting keeps the order among the ties of every key and puts `x` after its own ties. */
  lemma InsertKeepsTies(s: seq<Scored>, x: Scored, c: real)
    ensures Filter(Insert(s, x), TiedAt(c)) == Filter(s, TiedAt(c)) + (if Key(x.score) == c then [x] else [])
  {
    var m := InsertSplits(s, x);
    assert s == s[..m] + s[m..];
    FilterAround(s[..m], x, s[m..], TiedAt(c));
  }

  /**
   * The sort is stable, as JavaScript's `sort` is: results with the same score
   * keep the order in which the search loop pushed them.
   */
  lemma {:induction false} SortDescStable(s: seq<Scored>, c: real)
    ensures Filter(SortDesc(s), TiedAt(c)) == Filter(s, TiedAt(c))
  {
    if s != [] {
      var n := |s| - 1;
      SortDescStable(s[..n], c);
      InsertKeepsTies(SortDesc(s[..n]), s[n], c);
      assert s == s[..n] + [s[n]];
      FilterSnoc(s[..n], s[n], TiedAt(c));
    }
  }

  // ---- queryKnowledgeBase ----

  /** `query.topK || 3`: an absent or zero topK means 3. */
  function TopK(topK: Option<int>): int {
    if topK.None? || topK.value == 0 then 3 else topK.value
  }

  /** Drops the internal `score` field. */
  function Strip(s: seq<Scored>): (r: seq<RagResult>)
    ensures |r| == |s| && forall i :: 0 <= i < |s| ==> r[i] == s[i].result
  {
    if s == [] then [] else [s[0].result] + Strip(s[1..])
  }

  /** The specification of `queryKnowledgeBase` for a query embedding `q`. */
  function Query(docs: seq<RagDocument>, q: Vector, query: RagQuery): seq<RagResult> {
    Strip(SliceTo(SortDesc(Candidates(CategorySnapshot(docs, query.category), q)), TopK(query.topK)))
  }

  /** Every result is relevant, and the results come in non-increasing score order. */
  lemma QueryRelevantAndSorted(docs: seq<RagDocument>, q: Vector, query: RagQuery)
    ensures forall i :: 0 <= i < |Query(docs, q, query)| ==> Relevant(Query(docs, q, query)[i].relevanceScore)
    ensures forall i, j :: 0 <= i < j < |Query(docs, q, query)| ==>
      Key(Query(docs, q, query)[i].relevanceScore) >= Key(Query(docs, q, query)[j].relevanceScore)
  {
    var c := Candidates(CategorySnapshot(docs, query.category), q);
    CutFacts(c, TopK(query.topK));
    assert Query(docs, q, query) == Strip(SliceTo(SortDesc(c), TopK(query.topK)));
  }

  /**
   * At most topK results (3 when absent or 0), and exactly min(topK, number of kept
   * documents) of them when topK is not negative. A negative topK drops that many
   * from the tail, as `slice(0, topK)` does.
   */
  lemma QueryCount(docs: seq<RagDocument>, q: Vector, query: RagQuery)
    ensures var kept := Count(CategorySnapshot(docs, query.category), d => Kept(d, q));
      && |Query(docs, q, query)| <= kept
      && (TopK(query.topK) >= 0 ==> |Query(docs, q, query)| == Min(TopK(query.topK), kept))
    ensures query.topK.None? ==> |Query(docs, q, query)| <= 3
  {
    CandidatesCount(CategorySnapshot(docs, query.category), q);
  }

  /**
   * Every result is built from a stored document of the requested category that has
   * a non-empty embedding and a relevant similarity: content, title as source,
   * metadata, and the similarity as relevanceScore.
   */
  lemma QueryFromEmbeddedDocuments(docs: seq<RagDocument>, q: Vector, query: RagQuery)
    ensures forall i :: 0 <= i < |Query(docs, q, query)| ==>
      exists d :: d in docs && InCategory(d, query.category) && Kept(d, q) && Query(docs, q, query)[i] == ScoredOf(d, q).result
  {
    var snapshot := CategorySnapshot(docs, query.category);
    var c := Candidates(snapshot, q);
    CandidatesFromSnapshot(snapshot, q);
    var sorted := SortDesc(c);
    SortDescSorted(c);
    var cut := SliceTo(sorted, TopK(query.topK));
    forall i | 0 <= i < |cut|
      ensures exists d :: d in docs && InCategory(d, query.category) && Kept(d, q) && cut[i].result == ScoredOf(d, q).result
    {
      assert cut[i] == sorted[i];
      assert sorted[i] in multiset(c);
      var k :| 0 <= k < |c| && c[k] == sorted[i];
      var j :| 0 <= j < |snapshot| && Kept(snapshot[j], q) && c[k] == ScoredOf(snapshot[j], q);
      assert snapshot[j] in docs && InCategory(snapshot[j], query.category);
      assert cut[i].result == ScoredOf(snapshot[j], q).result;
    }
    assert Query(docs, q, query) == Strip(cut);
  }

  /**
   * The results are the best candidates: each returned score is at least the score
   * of every candidate left out.
   */
  lemma QueryIsTopK(docs: seq<RagDocument>, q: Vector, query: RagQuery)
    ensures var sorted := SortDesc(Candidates(CategorySnapshot(docs, query.category), q));
      && multiset(sorted) == multiset(Candidates(CategorySnapshot(docs, query.category), q))
      && |Query(docs, q, query)| <= |sorted|
      && (forall i :: 0 <= i < |Query(docs, q, query)| ==> Query(docs, q, query)[i] == sorted[i].result)
      && (forall i, j :: 0 <= i < |Query(docs, q, query)| <= j < |sorted| ==>
            Key(Query(docs, q, query)[i].relevanceScore) >= Key(sorted[j].score))
  {
    var c := Candidates(CategorySnapshot(docs, query.category), q);
    CutFacts(c, TopK(query.topK));
    assert Query(docs, q, query) == Strip(SliceTo(SortDesc(c), TopK(query.topK)));
  }

  /** The first `n` of the sorted candidates are sorted candidates whose result carries their score. */
  lemma CutFacts(c: seq<Scored>, n: int)
    requires forall i :: 0 <= i < |c| ==> Relevant(c[i].score) && c[i].result.relevanceScore == c[i].score
    ensures var sorted := SortDesc(c);
      var cut := SliceTo(sorted, n);
      && SortedDesc(sorted) && |cut| <= |sorted|
      && forall i :: 0 <= i < |cut| ==>
           cut[i] == sorted[i] && Relevant(cut[i].score) && cut[i].result.relevanceScore == cut[i].score
  {
    var sorted := SortDesc(c);
    SortDescSorted(c);
    var cut := SliceTo(sorted, n);
    forall i | 0 <= i < |cut|
      ensures cut[i] == sorted[i] && Relevant(cut[i].score) && cut[i].result.relevanceScore == cut[i].score
    {
      assert sorted[i] in multiset(c);
    }
  }

  /**
   * The effect of `update({...updates, updatedAt, embedding?})` on one document: a
   * fresh `embedding` overrides the one the patch spreads.
   */
  function ApplyPatch(d: RagDocument, patch: DocPatch, embedding: Option<Vector>, now: Instant): RagDocument {
    d.(title := patch.title.GetOr(d.title),
       content := patch.content.GetOr(d.content),
       category := patch.category.GetOr(d.category),
       metadata := if patch.metadata.Some? then patch.metadata else d.metadata,
       embedding := if embedding.Some? then embedding else if patch.embedding.Some? then patch.embedding else d.embedding,
       createdAt := patch.createdAt.GetOr(d.createdAt),
       updatedAt := now)
  }

  /** `if (updates.content)`: only a non-empty new content is embedded again. */
  predicate ReEmbeds(patch: DocPatch) {
    patch.content.Some? && patch.content.value != ""
  }

  function IndexOfId(docs: seq<RagDocument>, id: string): (r: int)
    ensures -1 <= r < |docs|
    ensures r == -1 <==> forall i :: 0 <= i < |docs| ==> docs[i].id != id
    ensures r >= 0 ==> docs[r].id == id
  {
    FirstWhere(docs, (d: RagDocument) => d.id == id)
  }

  /**
   * The search loop of `queryKnowledgeBase`: skips documents without an embedding
   * and pushes each document whose similarity to `q` is above the floor.
   */
  method ScoreSnapshot(snapshot: seq<RagDocument>, q: Vector) returns (results: seq<Scored>)
    ensures results == Candidates(snapshot, q)
  {
    results := [];
    var i := 0;
    while i < |snapshot|
      invariant 0 <= i <= |snapshot|
      invariant results == Candidates(snapshot[..i], q)
    {
      var d := snapshot[i];
      CandidatesStep(snapshot, i, q);
      if HasEmbedding(d) {
        var similarity := CosineSimilarity(q, d.embedding.value);
        if Relevant(similarity) {
          results := results + [Scored(RagResult(d.content, similarity, d.title, d.metadata), similarity)];
        }
      }
      i := i + 1;
    }
    assert snapshot[..|snapshot|] == snapshot;
  }

  class KnowledgeStore {
    var docs: seq<RagDocument>

    /** Document ids are unique, as the store assigns them. */
    predicate Valid()
      reads this
    {
      forall i, j :: 0 <= i < j < |docs| ==> docs[i].id != docs[j].id
    }

    predicate Fresh(id: string)
      reads this
    {
      forall i :: 0 <= i < |docs| ==> docs[i].id != id
    }

    constructor ()
      ensures docs == [] && Valid()
    {
      docs := [];
    }

    /**
     * `indexDocument`: embeds the content and adds the document with that embedding
     * and `updatedAt = now`; the store assigns `newId`, `None` when Firestore's `add`
     * throws. A failing embedder or a failing write adds nothing.
     */
    method IndexDocument(title: string, content: string, category: string, metadata: Option<Metadata>,
                         createdAt: Instant, embed: string -> Option<Vector>, newId: Option<string>, now: Instant)
      returns (r: Result<string>)
      requires Valid() && (newId.Some? ==> Fresh(newId.value))
      modifies this
      ensures Valid()
      ensures embed(content).None? || newId.None? ==> r.Err? && docs == old(docs)
      ensures embed(content).Some? && newId.Some? ==>
        && r == Ok(newId.value)
        && docs == old(docs) + [RagDocument(newId.value, title, content, category, embed(content), metadata, createdAt, now)]
    {
      var embedding := embed(content);
      if embedding.None? {
        return Err("embedding failed");
      }
      if newId.None? {
        return Err("write failed");
      }
      docs := docs + [RagDocument(newId.value, title, content, category, embedding, metadata, createdAt, now)];
      r := Ok(newId.value);
    }

    /**
     * `queryKnowledgeBase`: one similarity per document of the category snapshot,
     * skipping documents without an embedding, keeping the relevant ones, then the
     * sort and the top-K cut. The store is not changed.
     */
    method QueryKnowledgeBase(query: RagQuery, embed: string -> Option<Vector>) returns (r: Result<seq<RagResult>>)
      ensures embed(query.query).None? ==> r.Err?
      ensures embed(query.query).Some? ==> r == Ok(Query(docs, embed(query.query).value, query))
    {
      var queryEmbedding := embed(query.query);
      if queryEmbedding.None? {
        return Err("embedding failed");
      }
      var q := queryEmbedding.value;
      var results := ScoreSnapshot(CategorySnapshot(docs, query.category), q);
      results := SortDesc(results);
      r := Ok(Strip(SliceTo(results, TopK(query.topK))));
    }

    /**
     * `updateDocument`: re-embeds only a non-empty new content (a failing embedder
     * changes nothing), fails on an unknown id or when Firestore's `update` throws
     * (`written` is false), and otherwise merges the patch into that one document
     * with `updatedAt = now`.
     */
    method UpdateDocument(id: string, patch: DocPatch, embed: string -> Option<Vector>, written: bool, now: Instant)
      returns (r: Result<()>)
      requires Valid()
      modifies this
      ensures Valid()
      ensures ReEmbeds(patch) && embed(patch.content.value).None? ==> r.Err? && docs == old(docs)
      ensures IndexOfId(old(docs), id) == -1 || !written ==> r.Err? && docs == old(docs)
      ensures r.Ok? ==>
        && IndexOfId(old(docs), id) >= 0
        && var k := IndexOfId(old(docs), id);
           docs == old(docs)[k := ApplyPatch(old(docs)[k], patch,
                                             if ReEmbeds(patch) then embed(patch.content.value) else None, now)]
      ensures r.Err? ==> docs == old(docs)
      ensures (!ReEmbeds(patch) || embed(patch.content.value).Some?) && IndexOfId(old(docs), id) >= 0 && written ==> r.Ok?
    {
      var embedding: Option<Vector> := None;
      if ReEmbeds(patch) {
        embedding := embed(patch.content.value);
        if embedding.None? {
          return Err("embedding failed");
        }
      }
      var k := IndexOfId(docs, id);
      if k == -1 {
        return Err("NOT_FOUND");
      }
      if !written {
        return Err("write failed");
      }
      docs := docs[k := ApplyPatch(docs[k], patch, embedding, now)];
      r := Ok(());
    }
  }

  /**
   * An update keeps the id, keeps the creation time unless the patch carries one,
   * and stamps `updatedAt`. Non-empty new content is embedded afresh, whatever
   * embedding the patch carries; otherwise the embedding is the patch's, or the
   * document's when the patch has none.
   */
  lemma PatchEmbedding(d: RagDocument, patch: DocPatch, newEmbedding: Vector, now: Instant)
    ensures var e := ApplyPatch(d, patch, if ReEmbeds(patch) then Some(newEmbedding) else None, now);
      && e.id == d.id && e.updatedAt == now
      && e.createdAt == (if patch.createdAt.Some? then patch.createdAt.value else d.createdAt)
      && (ReEmbeds(patch) ==> e.embedding == Some(newEmbedding) && e.content == patch.content.value)
      && (!ReEmbeds(patch) ==> e.embedding == (if patch.embedding.Some? then patch.embedding else d.embedding))
  {
  }
}
