/**
 * The `rag_query_knowledge_base` tool of backend/src/tools/knowledge/rag-query.ts:
 * it forwards the question to the retrieval service and shapes the answer, with a
 * fixed hand-off text when nothing relevant was found.
 */
module RagQueryTool {
  import opened Wrappers
  import opened Seqs
  import opened VectorSimilarity
  import opened KnowledgeBase

  datatype ToolResult = ToolResult(content: string, source: string, relevanceScore: Score)

  datatype RagQueryOutput = RagQueryOutput(found: bool, results: seq<ToolResult>, answer: string)

  const NotFoundAnswer: string :=
    "I could not find specific information about that in our knowledge base. Please let me transfer you to a team member who can help."

  const AnswerPrefix: string := "Based on our academy information: "

  /** The tool's input schema defaults `topK` to 3; question and category pass through. */
  function ServiceQuery(question: string, category: Option<string>, topK: Option<int>): RagQuery {
    RagQuery(question, Some(topK.GetOr(3)), category)
  }

  function Project(r: RagResult): ToolResult {
    ToolResult(r.content, r.source, r.relevanceScore)
  }

  function ProjectAll(results: seq<RagResult>): (out: seq<ToolResult>)
    ensures |out| == |results|
    ensures forall i :: 0 <= i < |results| ==> out[i] == Project(results[i])
  {
    if results == [] then [] else [Project(results[0])] + ProjectAll(results[1..])
  }

  /**
   * The tool's answer for the service's results: not found with no results and the
   * hand-off text when the list is empty; otherwise found, every result projected
   * to content, source and score in the service's order, and an answer quoting the
   * first result's content.
   */
  function Shape(results: seq<RagResult>): (o: RagQueryOutput)
    ensures o.found <==> |results| > 0
    ensures !o.found ==> o.results == [] && o.answer == NotFoundAnswer
    ensures o.found ==> o.answer == AnswerPrefix + results[0].content
    ensures |o.results| == |results|
    ensures forall i :: 0 <= i < |o.results| ==>
      o.results[i].content == results[i].content && o.results[i].source == results[i].source
      && o.results[i].relevanceScore == results[i].relevanceScore
  {
    if |results| == 0 then RagQueryOutput(false, [], NotFoundAnswer)
    else RagQueryOutput(true, ProjectAll(results), AnswerPrefix + results[0].content)
  }

  /**
   * The whole tool over the documents `docs`; `queryEmbedding` is the embedder's
   * answer for the question (`None` when it throws, which the tool does not catch).
   */
  function Run(docs: seq<RagDocument>, queryEmbedding: Option<Vector>,
               question: string, category: Option<string>, topK: Option<int>): Result<RagQueryOutput>
  {
    if queryEmbedding.None? then Err("embedding failed")
    else Ok(Shape(Query(docs, queryEmbedding.value, ServiceQuery(question, category, topK))))
  }

  /**
   * With a topK that is absent or not negative, the tool reports found exactly when some
   * document of the category has a non-empty embedding with similarity above the
   * floor, and then the answer quotes the best-scoring one.
   */
  lemma FoundIffRelevantDocument(docs: seq<RagDocument>, q: Vector, question: string,
                                 category: Option<string>, topK: Option<int>)
    requires topK.None? || topK.value >= 0
    ensures var o := Run(docs, Some(q), question, category, topK).value;
      && (o.found <==> Count(CategorySnapshot(docs, category), d => Kept(d, q)) > 0)
      && (o.found ==> forall i :: 0 <= i < |o.results| ==> Key(o.results[0].relevanceScore) >= Key(o.results[i].relevanceScore))
  {
    var query := ServiceQuery(question, category, topK);
    QueryCount(docs, q, query);
    QueryRelevantAndSorted(docs, q, query);
  }
}
