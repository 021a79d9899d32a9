/** The answer pipeline of the FastAPI deployment: retrieval without a
    "no match" guard, citations, a prompt holding every retrieved passage,
    and a completion call whose failures propagate to the caller. */
module FastApiRag {
  import opened Corpus
  import opened Text
  import opened Prompts
  import opened Interfaces
  import Citations

  /** Returned when nothing survives retrieval. */
  const NoDataAnswer := "No relevant complaints found for this query."

  const PromptTemplate := Template(
    "\nYou are a customer support analyst.\n\nContext:\n",
    "\n\nAnswer in 3\U{2013}5 bullet points.\n")

  /** What `generate_answer` does, together with the prompts it handed to
      the client (none, or exactly one). */
  datatype Generation = Generation(outcome: Outcome<string>, sent: seq<string>)

  /** `retrieve` after the search: `hits` are the `k` (position, distance)
      pairs the index returned for the query; every position is used as a
      row position as it stands. */
  function Retrieve(hits: seq<Hit>, corpus: seq<Chunk>): (results: seq<Row>)
    requires PositionsIn(hits, |corpus|)
    ensures |results| <= |hits|
    ensures forall j :: 0 <= j < |results| ==> results[j].distance < 1.2
    ensures forall i :: 0 <= i < |hits| && hits[i].distance < 1.2 ==>
              Row(corpus[hits[i].position], hits[i].distance) in results
    ensures forall x :: x in results ==>
              exists i :: 0 <= i < |hits| && hits[i].distance < 1.2
                          && x == Row(corpus[hits[i].position], hits[i].distance)
  {
    var rows := JoinRows(hits, corpus);
    assert forall i :: 0 <= i < |hits| ==> rows[i] in rows;
    KeepRelevant(rows)
  }

  /** The result is exactly the rows of the hits below the threshold, in
      search order, each paired with its own distance; an ascending search
      gives ascending results. */
  lemma RetrieveKeepsRelevantHitsInOrder(hits: seq<Hit>, corpus: seq<Chunk>)
    requires PositionsIn(hits, |corpus|)
    ensures PositionsIn(RelevantHits(hits), |corpus|)
    ensures Retrieve(hits, corpus) == JoinRows(RelevantHits(hits), corpus)
    ensures SubseqOf(Retrieve(hits, corpus), JoinRows(hits, corpus))
    ensures HitsAscending(hits) ==> Ascending(Retrieve(hits, corpus))
  {
    FilteredJoin(hits, corpus);
  }

  /** `format_sources`: nothing for an empty result, else one citation per
      row. The HuggingFace deployment has its own copy of this function, and
      so does the model (`HuggingFaceRag.FormatSources`). */
  function FormatSources(results: seq<Row>): (sources: seq<string>)
    ensures sources == [] <==> results == []
    ensures |sources| == |results|
    ensures forall i :: 0 <= i < |results| ==>
              sources[i] == "Complaint " + results[i].chunk.complaintId
                            + " (chunk " + results[i].chunk.chunkId + ")"
  {
    if results == [] then [] else Citations.CiteRows(results)
  }

  /** The prompt `generate_answer` builds inline: every result text, joined
      by blank lines, stands right after the fixed instructions, and the
      question follows them. */
  function BuildPrompt(query: string, results: seq<Row>): (prompt: string)
    ensures var context := Join(Texts(results), "\n\n");
            var c0 := |PromptTemplate.preamble|;
            var q0 := c0 + |context| + |"\n\nQuestion:\n"|;
            && |prompt| == q0 + |query| + |PromptTemplate.closing|
            && prompt[..c0] == PromptTemplate.preamble
            && prompt[c0..c0 + |context|] == context
            && prompt[c0 + |context|..q0] == "\n\nQuestion:\n"
            && prompt[q0..q0 + |query|] == query
            && prompt[q0 + |query|..] == PromptTemplate.closing
  {
    Render(PromptTemplate, JoinPassages(Texts(results)), query)
  }

  /** `generate_answer`, with the completion client as `llm`: an error of
      the client is raised out of the call. */
  function GenerateAnswer(query: string, results: seq<Row>, llm: Client): (g: Generation)
    ensures results == [] <==> g.sent == []
    ensures results == [] ==> g.outcome == Returned(NoDataAnswer)
    ensures results != [] ==> g.sent == [BuildPrompt(query, results)]
    ensures results != [] && llm(g.sent[0]).Ok? ==> g.outcome == Returned(llm(g.sent[0]).content)
    ensures results != [] && llm(g.sent[0]).Err? ==> g.outcome == Raised(llm(g.sent[0]).message)
  {
    if results == [] then Generation(Returned(NoDataAnswer), [])
    else
      var prompt := BuildPrompt(query, results);
      match llm(prompt)
      case Ok(content) => Generation(Returned(content), [prompt])
      case Err(message) => Generation(Raised(message), [prompt])
  }

  /** `answer_with_sources`: retrieve once, generate from the result (an
      exception there leaves the call before the sources are formatted),
      cite the same result. */
  function AnswerWithSources(query: string, hits: seq<Hit>, corpus: seq<Chunk>, llm: Client)
    : (r: Outcome<AnswerResult>)
    requires PositionsIn(hits, |corpus|)
    ensures GenerateAnswer(query, Retrieve(hits, corpus), llm).outcome.Raised? <==> r.Raised?
    ensures r.Raised? ==> r.error == GenerateAnswer(query, Retrieve(hits, corpus), llm).outcome.error
    ensures r.Returned? ==> && r.value.question == query
                            && r.value.answer == GenerateAnswer(query, Retrieve(hits, corpus), llm).outcome.value
                            && r.value.sources == FormatSources(Retrieve(hits, corpus))
  {
    var results := Retrieve(hits, corpus);
    var generated := GenerateAnswer(query, results, llm);
    match generated.outcome
    case Raised(e) => Raised(e)
    case Returned(answer) => Returned(AnswerResult(query, answer, FormatSources(results)))
  }

  /** Every retrieved passage reaches the prompt: one more row adds one
      blank line and its text to the end of the context. */
  lemma ContextGrowsWithEveryRow(results: seq<Row>, row: Row)
    requires results != []
    ensures JoinPassages(Texts(results + [row]))
            == JoinPassages(Texts(results)) + "\n\n" + row.chunk.text
  {
    assert Texts(results + [row]) == Texts(results) + [row.chunk.text];
    JoinAppend(Texts(results), row.chunk.text, PassageSeparator);
  }

  /** The context in the prompt holds every passage plus a blank line
      between neighbours, and it precedes the question. */
  lemma SentPromptLayout(query: string, results: seq<Row>, llm: Client)
    requires results != []
    ensures var g := GenerateAnswer(query, results, llm);
            var context := Join(Texts(results), "\n\n");
            var c0 := |PromptTemplate.preamble|;
            var q0 := c0 + |context| + |"\n\nQuestion:\n"|;
            && |g.sent| == 1
            && |context| == TotalLength(Texts(results)) + 2 * (|results| - 1)
            && g.sent[0][c0..c0 + |context|] == context
            && g.sent[0][q0..q0 + |query|] == query
  {
  }

  /** A client failure is not turned into an answer: the whole call fails
      with the client's error text and produces no sources. */
  lemma ClientFailurePropagates(query: string, hits: seq<Hit>, corpus: seq<Chunk>, llm: Client)
    requires PositionsIn(hits, |corpus|)
    requires Retrieve(hits, corpus) != []
    requires llm(BuildPrompt(query, Retrieve(hits, corpus))).Err?
    ensures AnswerWithSources(query, hits, corpus, llm)
            == Raised(llm(BuildPrompt(query, Retrieve(hits, corpus))).message)
  {
  }

  /** Without a client failure the call returns, echoes the question, and
      cites one source per retained row; an empty retrieval gives no
      sources, the sentinel answer and no client call. */
  lemma ReturnedResultShape(query: string, hits: seq<Hit>, corpus: seq<Chunk>, llm: Client)
    requires PositionsIn(hits, |corpus|)
    requires Retrieve(hits, corpus) == [] || llm(BuildPrompt(query, Retrieve(hits, corpus))).Ok?
    ensures var r := AnswerWithSources(query, hits, corpus, llm);
            && r.Returned?
            && r.value.question == query
            && |r.value.sources| == |Retrieve(hits, corpus)|
            && (r.value.sources == [] <==> GenerateAnswer(query, Retrieve(hits, corpus), llm).sent == [])
            && (r.value.sources == [] ==> r.value.answer == "No relevant complaints found for this query.")
  {
  }
}
