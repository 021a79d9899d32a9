/** The answer pipeline of the HuggingFace deployment: retrieval with a
    guard for FAISS's "no match" position, citations, a prompt capped at
    three passages, and a completion call whose failures become answer text. */
module HuggingFaceRag {
  import opened Corpus
  import opened Text
  import opened Prompts
  import opened Interfaces
  import Citations

  /** Returned when nothing survives retrieval. */
  const NoDataAnswer := "Not enough relevant data found to answer this query."

  /** At most this many passages go into the prompt. */
  const ContextCap := 3

  /** Put in front of the text of a client failure. */
  const ErrorPrefix := "Groq error: "

  /** FAISS's position for "no neighbour found". */
  const NoMatch := -1

  const PromptTemplate := Template(
    "\nYou are a financial customer support analyst.\n\n"
    + "Use ONLY the context below to answer the question.\n"
    + "If insufficient info is available, say so clearly.\n\n"
    + "Context:\n",
    "\n\nAnswer in clear, concise bullet points (4\U{2013}8 max).\n")

  /** What `generate_answer` returns, together with the prompts it handed
      to the client (none, or exactly one). */
  datatype Generation = Generation(answer: string, sent: seq<string>)

  /** What the search must deliver for `retrieve` to run: at least one hit
      (it reads `indices[0][0]`), and, unless the first hit is "no match",
      only positions of existing rows. */
  predicate SearchOutput(hits: seq<Hit>, corpus: seq<Chunk>)
  {
    |hits| > 0 && (hits[0].position == NoMatch || PositionsIn(hits, |corpus|))
  }

  /** `retrieve` after the search: `hits` are the `k` (position, distance)
      pairs the index returned for the query. */
  function Retrieve(hits: seq<Hit>, corpus: seq<Chunk>): (results: seq<Row>)
    requires SearchOutput(hits, corpus)
    ensures hits[0].position == NoMatch ==> results == []
    ensures |results| <= |hits|
    ensures forall j :: 0 <= j < |results| ==> results[j].distance < 1.2
    ensures hits[0].position != NoMatch ==>
              forall i :: 0 <= i < |hits| && hits[i].distance < 1.2 ==>
                Row(corpus[hits[i].position], hits[i].distance) in results
  {
    if hits[0].position == NoMatch then []
    else
      var rows := JoinRows(hits, corpus);
      assert forall i :: 0 <= i < |hits| ==> rows[i] in rows;
      KeepRelevant(rows)
  }

  /** Past the guard, the result is exactly the rows of the hits below the
      threshold, in search order, each paired with its own distance; an
      ascending search gives ascending results. Only the first position is
      checked against "no match". */
  lemma RetrieveKeepsRelevantHitsInOrder(hits: seq<Hit>, corpus: seq<Chunk>)
    requires SearchOutput(hits, corpus)
    requires hits[0].position != NoMatch
    ensures PositionsIn(RelevantHits(hits), |corpus|)
    ensures Retrieve(hits, corpus) == JoinRows(RelevantHits(hits), corpus)
    ensures SubseqOf(Retrieve(hits, corpus), JoinRows(hits, corpus))
    ensures HitsAscending(hits) ==> Ascending(Retrieve(hits, corpus))
  {
    FilteredJoin(hits, corpus);
  }

  /** `format_sources`: nothing for an empty result, else one citation per
      row. The FastAPI deployment has its own copy of this function, and so
      does the model (`FastApiRag.FormatSources`). */
  function FormatSources(results: seq<Row>): (sources: seq<string>)
    ensures sources == [] <==> results == []
    ensures |sources| == |results|
    ensures forall i :: 0 <= i < |results| ==>
              sources[i] == "Complaint " + results[i].chunk.complaintId
                            + " (chunk " + results[i].chunk.chunkId + ")"
  {
    if results == [] then [] else Citations.CiteRows(results)
  }

  /** `results["text"].tolist()[:3]`: the texts of the first three rows, or
      of all rows when there are fewer. */
  function ContextChunks(results: seq<Row>): (chunks: seq<string>)
    ensures |chunks| == if |results| < ContextCap then |results| else ContextCap
    ensures forall i :: 0 <= i < |chunks| ==> chunks[i] == results[i].chunk.text
  {
    var texts := Texts(results);
    if |texts| <= ContextCap then texts else texts[..ContextCap]
  }

  /** `build_prompt`: the passages joined by blank lines stand right after
      the fixed instructions, and the question follows them. */
  function BuildPrompt(query: string, contextChunks: seq<string>): (prompt: string)
    ensures var context := Join(contextChunks, "\n\n");
            var c0 := |PromptTemplate.preamble|;
            var q0 := c0 + |context| + |"\n\nQuestion:\n"|;
            && |prompt| == q0 + |query| + |PromptTemplate.closing|
            && prompt[..c0] == PromptTemplate.preamble
            && prompt[c0..c0 + |context|] == context
            && prompt[c0 + |context|..q0] == "\n\nQuestion:\n"
            && prompt[q0..q0 + |query|] == query
            && prompt[q0 + |query|..] == PromptTemplate.closing
  {
    Render(PromptTemplate, JoinPassages(contextChunks), query)
  }

  /** `generate_answer`, with the chat-completion client as `llm`. */
  function GenerateAnswer(query: string, results: seq<Row>, llm: Client): (g: Generation)
    ensures results == [] <==> g.sent == []
    ensures results == [] ==> g.answer == NoDataAnswer
    ensures results != [] ==> g.sent == [BuildPrompt(query, ContextChunks(results))]
    ensures results != [] && llm(g.sent[0]).Ok? ==> g.answer == llm(g.sent[0]).content
    ensures results != [] && llm(g.sent[0]).Err? ==> g.answer == ErrorPrefix + llm(g.sent[0]).message
  {
    if results == [] then Generation(NoDataAnswer, [])
    else
      var prompt := BuildPrompt(query, ContextChunks(results));
      match llm(prompt)
      case Ok(content) => Generation(content, [prompt])
      case Err(message) => Generation(ErrorPrefix + message, [prompt])
  }

  /** `answer_with_sources`: retrieve once, generate from the result, cite
      the whole (uncapped) result. */
  function AnswerWithSources(query: string, hits: seq<Hit>, corpus: seq<Chunk>, llm: Client): (r: AnswerResult)
    requires SearchOutput(hits, corpus)
    ensures r.question == query
    ensures r.sources == FormatSources(Retrieve(hits, corpus))
    ensures r.answer == GenerateAnswer(query, Retrieve(hits, corpus), llm).answer
    ensures r.sources == [] ==> r.answer == NoDataAnswer
  {
    var results := Retrieve(hits, corpus);
    var answer := GenerateAnswer(query, results, llm);
    var sources := FormatSources(results);
    AnswerResult(query, answer.answer, sources)
  }

  /** The prompt only ever sees the first three rows: rows after them can be
      anything and the prompt does not change. */
  lemma PromptIgnoresRowsBeyondCap(query: string, results: seq<Row>, more: seq<Row>)
    requires |results| >= ContextCap
    ensures ContextChunks(results + more) == ContextChunks(results)
    ensures BuildPrompt(query, ContextChunks(results + more)) == BuildPrompt(query, ContextChunks(results))
  {
  }

  /** The context passed to the client is the first min(3, n) passages joined
      by blank lines, and it precedes the question in the prompt. */
  lemma SentPromptLayout(query: string, results: seq<Row>, llm: Client)
    requires results != []
    ensures var g := GenerateAnswer(query, results, llm);
            var context := Join(ContextChunks(results), "\n\n");
            var c0 := |PromptTemplate.preamble|;
            var q0 := c0 + |context| + |"\n\nQuestion:\n"|;
            && |g.sent| == 1
            && g.sent[0][c0..c0 + |context|] == context
            && g.sent[0][q0..q0 + |query|] == query
            && context[..|results[0].chunk.text|] == results[0].chunk.text
  {
    JoinEnds(ContextChunks(results), PassageSeparator);
  }

  /** A client failure never escapes: the answer is the error text behind a
      fixed prefix, and the sources are still those of the retrieval. */
  lemma ClientFailureBecomesAnswer(query: string, hits: seq<Hit>, corpus: seq<Chunk>, llm: Client)
    requires SearchOutput(hits, corpus)
    requires Retrieve(hits, corpus) != []
    requires llm(BuildPrompt(query, ContextChunks(Retrieve(hits, corpus)))).Err?
    ensures var r := AnswerWithSources(query, hits, corpus, llm);
            var e := llm(BuildPrompt(query, ContextChunks(Retrieve(hits, corpus)))).message;
            && r.answer[..|"Groq error: "|] == "Groq error: "
            && r.answer[|"Groq error: "|..] == e
            && |r.sources| == |Retrieve(hits, corpus)| > 0
  {
  }

  /** No client call happens exactly when the sources are empty, and then the
      answer is the fixed sentinel. The number of sources is the number of
      retrieved rows, which may exceed the three passages the prompt uses. */
  lemma SourcesEmptyIffClientNotCalled(query: string, hits: seq<Hit>, corpus: seq<Chunk>, llm: Client)
    requires SearchOutput(hits, corpus)
    ensures var results := Retrieve(hits, corpus);
            var r := AnswerWithSources(query, hits, corpus, llm);
            var g := GenerateAnswer(query, results, llm);
            && (r.sources == [] <==> g.sent == [])
            && (r.sources == [] ==> r.answer == "Not enough relevant data found to answer this query.")
            && |r.sources| == |results|
            && (g.sent != [] ==> g.sent[0] == BuildPrompt(query, ContextChunks(results)))
            && |ContextChunks(results)| <= 3
  {
  }

  /** A search whose hits are all below the threshold cites every hit, in
      search order. */
  lemma AllRelevantHitsAreCited(query: string, hits: seq<Hit>, corpus: seq<Chunk>, llm: Client)
    requires SearchOutput(hits, corpus) && hits[0].position != NoMatch
    requires forall i :: 0 <= i < |hits| ==> hits[i].distance < 1.2
    ensures var r := AnswerWithSources(query, hits, corpus, llm);
            && |r.sources| == |hits|
            && forall i :: 0 <= i < |hits| ==>
                 r.sources[i] == Citations.Citation(corpus[hits[i].position])
  {
    RetrieveKeepsRelevantHitsInOrder(hits, corpus);
    RelevantHitsOfAllRelevant(hits);
  }
}
