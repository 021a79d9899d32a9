/** How the two deployments of the answer pipeline relate, and the worked
    end-to-end scenarios (a refund question, an unrelated question, one
    citation), stated over both. */
module Variants {
  import opened Corpus
  import opened Text
  import opened Prompts
  import opened Interfaces
  import Citations
  import Hf = HuggingFaceRag
  import Api = FastApiRag

  /** Once the first hit is a real position the two retrievals coincide:
      the guard is the only difference between them. */
  lemma RetrievalsAgreePastGuard(hits: seq<Hit>, corpus: seq<Chunk>)
    requires |hits| > 0 && hits[0].position != Hf.NoMatch
    requires PositionsIn(hits, |corpus|)
    ensures Hf.Retrieve(hits, corpus) == Api.Retrieve(hits, corpus)
  {
  }

  /** The capped context of the HuggingFace prompt is the whole FastAPI
      context when at most three rows were retrieved, and otherwise its
      proper prefix, the remaining passages following after a blank line. */
  lemma {:induction false} CappedContextIsPrefixOfFullContext(results: seq<Row>)
    ensures |results| <= Hf.ContextCap ==>
              JoinPassages(Hf.ContextChunks(results)) == JoinPassages(Texts(results))
    ensures |results| > Hf.ContextCap ==>
              JoinPassages(Texts(results))
              == JoinPassages(Hf.ContextChunks(results)) + "\n\n" + JoinPassages(Texts(results[Hf.ContextCap..]))
  {
    var texts := Texts(results);
    if |results| > Hf.ContextCap {
      var head, tail := Hf.ContextChunks(results), Texts(results[Hf.ContextCap..]);
      assert texts == head + tail;
      JoinConcat(head, tail, PassageSeparator);
    } else {
      assert Hf.ContextChunks(results) == texts;
    }
  }

  /** Fed the same failing client, the HuggingFace pipeline still returns a
      result whose answer reports the error and whose sources are intact,
      while the FastAPI pipeline raises that error. */
  lemma FailureIsolatedVersusPropagated(query: string, hits: seq<Hit>, corpus: seq<Chunk>, e: string)
    requires |hits| > 0 && hits[0].position != Hf.NoMatch
    requires PositionsIn(hits, |corpus|)
    requires Api.Retrieve(hits, corpus) != []
    ensures var failing: Client := _ => Err(e);
            && Hf.AnswerWithSources(query, hits, corpus, failing)
               == AnswerResult(query, Hf.ErrorPrefix + e, Hf.FormatSources(Api.Retrieve(hits, corpus)))
            && Api.AnswerWithSources(query, hits, corpus, failing) == Raised(e)
  {
  }

  /** The answer alone does not tell whether anything was retrieved: a model
      that replies with the sentinel text yields that answer next to a
      non-empty list of sources. */
  lemma SentinelAnswerWithSources(echo: Client)
    requires forall prompt :: echo(prompt) == Ok(Hf.NoDataAnswer)
    ensures var corpus := [Chunk("C7", "1", "card blocked")];
            var r := Hf.AnswerWithSources("why?", [Hit(0, 0.5)], corpus, echo);
            r.answer == Hf.NoDataAnswer && r.sources == ["Complaint C7 (chunk 1)"]
  {
    var hits := [Hit(0, 0.5)];
    var corpus := [Chunk("C7", "1", "card blocked")];
    var rows := JoinRows(hits, corpus);
    assert rows == [Row(corpus[0], 0.5)];
    assert KeepRelevant(rows[1..]) == [];
    assert Hf.Retrieve(hits, corpus) == rows;
    assert rows[0].chunk.complaintId == "C7" && rows[0].chunk.chunkId == "1";
    assert Hf.FormatSources(rows)[0] == "Complaint " + "C7" + " (chunk " + "1" + ")";
    assert Hf.FormatSources(rows)[0] == "Complaint C7 (chunk 1)";
    assert Hf.GenerateAnswer("why?", rows, echo).answer == Hf.NoDataAnswer;
  }

  /** Two refund complaints, both near the query: both are cited in search
      order and the answer is the model's text. */
  lemma RefundScenario(llm: Client)
    ensures var corpus := [Chunk("C1", "1", "refund delayed 3 weeks"),
                           Chunk("C1", "2", "refund denied without explanation")];
            var hits := [Hit(0, 0.4), Hit(1, 0.7)];
            var hf := Hf.AnswerWithSources("refund complaints", hits, corpus, llm);
            && hf.sources == ["Complaint C1 (chunk 1)", "Complaint C1 (chunk 2)"]
            && hf.question == "refund complaints"
            && Hf.Retrieve(hits, corpus) == Api.Retrieve(hits, corpus)
            && |Hf.Retrieve(hits, corpus)| == 2
  {
    var corpus := [Chunk("C1", "1", "refund delayed 3 weeks"),
                   Chunk("C1", "2", "refund denied without explanation")];
    var hits := [Hit(0, 0.4), Hit(1, 0.7)];
    RefundRetrieval(hits, corpus);
    RefundSources(Hf.Retrieve(hits, corpus), corpus);
  }

  /** The two retained refund rows are cited as C1's chunks 1 and 2. */
  lemma RefundSources(rows: seq<Row>, corpus: seq<Chunk>)
    requires corpus == [Chunk("C1", "1", "refund delayed 3 weeks"),
                        Chunk("C1", "2", "refund denied without explanation")]
    requires rows == [Row(corpus[0], 0.4), Row(corpus[1], 0.7)]
    ensures Hf.FormatSources(rows) == ["Complaint C1 (chunk 1)", "Complaint C1 (chunk 2)"]
  {
    var sources := Hf.FormatSources(rows);
    assert sources[0] == "Complaint " + "C1" + " (chunk " + "1" + ")" == "Complaint C1 (chunk 1)";
    assert sources[1] == "Complaint " + "C1" + " (chunk " + "2" + ")" == "Complaint C1 (chunk 2)";
  }

  /** Both hits of the refund scenario are below the threshold, so both
      retrievals keep both rows. */
  lemma RefundRetrieval(hits: seq<Hit>, corpus: seq<Chunk>)
    requires corpus == [Chunk("C1", "1", "refund delayed 3 weeks"),
                        Chunk("C1", "2", "refund denied without explanation")]
    requires hits == [Hit(0, 0.4), Hit(1, 0.7)]
    ensures Hf.Retrieve(hits, corpus) == [Row(corpus[0], 0.4), Row(corpus[1], 0.7)]
    ensures Api.Retrieve(hits, corpus) == Hf.Retrieve(hits, corpus)
  {
    var rows := JoinRows(hits, corpus);
    assert rows == [Row(corpus[0], 0.4), Row(corpus[1], 0.7)];
    assert KeepRelevant(rows[1..][1..]) == [];
    assert KeepRelevant(rows[1..]) == rows[1..];
    assert Api.Retrieve(hits, corpus) == rows;
    assert Hf.Retrieve(hits, corpus) == rows;
  }

  /** A query far from every chunk: nothing is cited, both pipelines answer
      with their sentinel, and neither calls the client. */
  lemma UnrelatedQueryScenario(llm: Client)
    ensures var corpus := [Chunk("C1", "1", "refund delayed 3 weeks"),
                           Chunk("C1", "2", "refund denied without explanation")];
            var hits := [Hit(1, 1.3), Hit(0, 1.5)];
            var hf := Hf.AnswerWithSources("what is the weather today", hits, corpus, llm);
            var api := Api.AnswerWithSources("what is the weather today", hits, corpus, llm);
            && hf == AnswerResult("what is the weather today", Hf.NoDataAnswer, [])
            && api == Returned(AnswerResult("what is the weather today", Api.NoDataAnswer, []))
            && Hf.GenerateAnswer("what is the weather today", Hf.Retrieve(hits, corpus), llm).sent == []
            && Api.GenerateAnswer("what is the weather today", Api.Retrieve(hits, corpus), llm).sent == []
  {
    var corpus := [Chunk("C1", "1", "refund delayed 3 weeks"),
                   Chunk("C1", "2", "refund denied without explanation")];
    var hits := [Hit(1, 1.3), Hit(0, 1.5)];
    assert Api.Retrieve(hits, corpus) == [];
  }

  /** The citation of complaint C1, chunk 42. */
  lemma CitationExample()
    ensures Citations.Citation(Chunk("C1", "42", "any text")) == "Complaint C1 (chunk 42)"
  {
  }
}
