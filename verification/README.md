# Complaint question answering: the retrieval-augmented answer pipeline

This project models, in Dafny, the part of the customer-intelligence
platform that sits between the vector index and the language model. A
question is embedded and searched in a FAISS index. The nearest-neighbour
hits are joined to the chunk table of customer complaints. Hits that are not
closer than the relevance threshold 1.2 are dropped. The surviving passages
go into a prompt for a chat-completion model, and the answer comes back with
one citation per retrieved chunk (`Complaint <id> (chunk <id>)`).

The repository ships this pipeline twice, and both are modelled:

- `HuggingFace/rag_engine.py` (module `HuggingFaceRag`). It returns an empty
  result when the first hit is FAISS's "no match" position `-1`. It puts at
  most three passages into the prompt. It turns any client failure into the
  answer `"Groq error: " + message`.
- `FastAPI/rag_engine.py` (module `FastApiRag`). It has no guard and no cap,
  and a client failure escapes as an exception, modelled as `Raised(message)`.

What the code depends on but cannot see is passed in:

- the embedder and the FAISS search become the sequence of `k`
  (position, distance) pairs they return (`seq<Hit>`);
- the pickled chunk table becomes `seq<Chunk>`;
- the chat-completion client becomes a total function `Client = string -> Reply`
  from the user prompt to `Ok(content)` or `Err(message)`.

Each `generate_answer` returns the prompts it handed to the client
(`Generation.sent`), so "the client is never called" is a statement about
the model.

Files:

- `corpus.dfy`: rows, hits, the join and the threshold filter shared by both
  variants, with the filter's characterisation (subsequence, counts, order).
- `text.dfy`: Python's `str.join`.
- `citations.dfy`: the citation string, one citation per row, and a parser
  that reads the ids back.
- `prompts.dfy`: the f-string prompt template and where its holes sit.
- `interfaces.dfy`: client replies, the answer dictionary, raised exceptions.
- `huggingface_rag.dfy` and `fastapi_rag.dfy`: the two pipelines.
- `variants.dfy`: how the two pipelines relate, and worked scenarios.

Behaviour of the code that a reader might expect otherwise:

- An empty source list always comes with the "no data" sentinel answer, but
  not the other way round. `Variants.SentinelAnswerWithSources` shows a
  model reply equal to the sentinel text next to a non-empty source list.
- Only the HuggingFace variant isolates client failures; in the FastAPI
  variant the client's error propagates to the caller.
- The two variants use different sentinel texts and only one uses an error
  prefix: `"Not enough relevant data found to answer this query."`,
  `"No relevant complaints found for this query."` and `"Groq error: "`.
- Neither variant sorts its results. They keep the index's order, and the
  model proves that an ascending search stays ascending.

## Model

| member | source | states |
|---|---|---|
| Corpus.JoinRows | HuggingFace/rag_engine.py:71-72 | one row per hit; row `i` is the chunk at hit `i`'s position paired with hit `i`'s own distance |
| Corpus.KeepRelevant | HuggingFace/rag_engine.py:75 | every kept row has distance below 1.2, a row is kept iff it occurs in the input with distance below 1.2, never more rows than given |
| Corpus.RelevantHits | FastAPI/rag_engine.py:31 | the hits that pass the threshold: exactly the input hits with distance below 1.2, no more of them than given |
| Corpus.Texts | HuggingFace/rag_engine.py:111 | the `text` column: one string per row, in row order |
| Corpus.FilterCommutesWithJoin | HuggingFace/rag_engine.py:71-75 | filtering the joined rows equals joining only the hits below the threshold, so each kept row keeps its own hit's distance |
| Corpus.KeepRelevantIsSubsequence | HuggingFace/rag_engine.py:75 | the filter only deletes rows, never reorders them |
| Corpus.KeepRelevantCounts | FastAPI/rag_engine.py:31 | a relevant row is kept as often as it occurs, an irrelevant one never |
| Corpus.KeepRelevantAscending | HuggingFace/rag_engine.py:75 | rows in ascending distance stay in ascending distance after filtering |
| Corpus.FilteredJoin | FastAPI/rag_engine.py:27-31 | the kept rows are the joined relevant hits, a subsequence of all joined rows, ascending when the search was |
| Corpus.RelevantHitsOfAllRelevant | HuggingFace/rag_engine.py:75 | when every hit is below the threshold, the filter keeps all of them |
| Text.JoinConcat | HuggingFace/rag_engine.py:89 | joining two non-empty lists puts exactly one separator between the two joined halves |
| Text.JoinAppend | FastAPI/rag_engine.py:47 | appending one part appends the separator and the part |
| Text.Join | HuggingFace/rag_engine.py:89 | joining no parts gives the empty string; otherwise the joined length is the parts' total length plus one separator per gap |
| Text.JoinEnds | HuggingFace/rag_engine.py:89 | the joined string starts with the first part and ends with the last |
| Citations.Citation | HuggingFace/rag_engine.py:84 | the citation is "Complaint ", the complaint id, " (chunk ", the chunk id and ")", each at its computed offset |
| Citations.CiteRows | HuggingFace/rag_engine.py:83-86 | one citation per row, in row order |
| Citations.CitationRoundTrip | HuggingFace/rag_engine.py:84 | parsing a citation gives back both ids whenever the complaint id has no space |
| Citations.CitationsDistinguishIds | FastAPI/rag_engine.py:39 | two chunks with space-free complaint ids share a citation only if they share both ids |
| Prompts.Render | HuggingFace/rag_engine.py:90-103 | the prompt is the preamble, then the context, then the question header, then the question, then the closing text, at computed offsets |
| HuggingFaceRag.Retrieve | HuggingFace/rag_engine.py:60-78 | empty when the first position is -1; at most `k` rows; every row below 1.2; past the guard, every hit below 1.2 appears with its own distance |
| HuggingFaceRag.RetrieveKeepsRelevantHitsInOrder | HuggingFace/rag_engine.py:66-75 | past the guard, the result is exactly the joined hits below 1.2, in search order, ascending when the search was |
| HuggingFaceRag.FormatSources | HuggingFace/rag_engine.py:80-86 | `[]` iff the result is empty, else one `Complaint <complaint_id> (chunk <chunk_id>)` per row, in row order |
| HuggingFaceRag.ContextChunks | HuggingFace/rag_engine.py:111-112 | the texts of the first min(3, n) rows, in result order |
| HuggingFaceRag.BuildPrompt | HuggingFace/rag_engine.py:88-103 | the prompt is the fixed instructions, then the passages joined by blank lines, then the question header and the question, then the bullet-point instruction |
| HuggingFaceRag.GenerateAnswer | HuggingFace/rag_engine.py:107-130 | empty result: the sentinel and no client call; else exactly one call with the capped prompt, answering with its content or `"Groq error: "` plus the error text |
| HuggingFaceRag.AnswerWithSources | HuggingFace/rag_engine.py:132-140 | echoes the query; sources are the citations of the whole uncapped retrieval; empty sources give the sentinel answer |
| HuggingFaceRag.PromptIgnoresRowsBeyondCap | HuggingFace/rag_engine.py:111-113 | rows after the third never change the context or the prompt |
| HuggingFaceRag.SentPromptLayout | HuggingFace/rag_engine.py:88-113 | the one prompt sent holds the capped context joined by blank lines, starting with the first passage, before the question |
| HuggingFaceRag.ClientFailureBecomesAnswer | HuggingFace/rag_engine.py:115-130 | a client error yields the answer `"Groq error: "` plus the error text, with the sources of the retrieval intact |
| HuggingFaceRag.AllRelevantHitsAreCited | HuggingFace/rag_engine.py:132-140 | when the first position is real and every hit is below 1.2, source `i` is the citation of the chunk at hit `i`'s position, one per hit |
| HuggingFaceRag.SourcesEmptyIffClientNotCalled | HuggingFace/rag_engine.py:132-140 | sources are empty iff the client is not called, then the answer is the sentinel; one source per retrieved row while the prompt holds at most 3 passages |
| FastApiRag.Retrieve | FastAPI/rag_engine.py:23-33 | at most `k` rows; every row below 1.2; every hit below 1.2 appears with its own distance; every row comes from such a hit |
| FastApiRag.RetrieveKeepsRelevantHitsInOrder | FastAPI/rag_engine.py:23-33 | the result is exactly the joined hits below 1.2, in search order, ascending when the search was |
| FastApiRag.FormatSources | FastAPI/rag_engine.py:35-41 | `[]` iff the result is empty, else one `Complaint <complaint_id> (chunk <chunk_id>)` per row, in row order |
| FastApiRag.BuildPrompt | FastAPI/rag_engine.py:47-59 | the prompt is the fixed instructions, then every result text joined by blank lines, then the question header and the question, then the bullet-point instruction |
| FastApiRag.GenerateAnswer | FastAPI/rag_engine.py:43-67 | empty result: the sentinel and no client call; else exactly one call with every passage in the prompt, returning the content or raising the error |
| FastApiRag.AnswerWithSources | FastAPI/rag_engine.py:69-77 | raises exactly when generation raises, with its error; otherwise echoes the query and cites the same results generation used |
| FastApiRag.ContextGrowsWithEveryRow | FastAPI/rag_engine.py:47 | one more retrieved row adds a blank line and its text to the context: no cap |
| FastApiRag.SentPromptLayout | FastAPI/rag_engine.py:47-59 | the prompt sent holds all passages plus one blank line per gap, before the question |
| FastApiRag.ClientFailurePropagates | FastAPI/rag_engine.py:61-77 | a client error makes the whole call raise that error |
| FastApiRag.ReturnedResultShape | FastAPI/rag_engine.py:69-77 | without a client error the call returns, echoes the query, cites one source per row; no sources iff no client call, then the sentinel |
| Variants.RetrievalsAgreePastGuard | HuggingFace/rag_engine.py:68-69 | apart from the first-position guard the two retrievals are identical |
| Variants.CappedContextIsPrefixOfFullContext | HuggingFace/rag_engine.py:111-112 | the capped context equals the full one for at most 3 rows, else is its prefix followed by a blank line and the rest |
| Variants.FailureIsolatedVersusPropagated | HuggingFace/rag_engine.py:115-130 | one failing client: the HuggingFace variant returns the error as answer with its sources, the FastAPI variant raises |
| Variants.SentinelAnswerWithSources | HuggingFace/rag_engine.py:107-109 | the sentinel answer can come with non-empty sources when the model replies with the sentinel text |
| Variants.RefundScenario | HuggingFace/rag_engine.py:132-140 | two refund chunks within the threshold are both cited, in search order |
| Variants.UnrelatedQueryScenario | FastAPI/rag_engine.py:69-77 | all hits beyond the threshold: no sources, the sentinel, no client call, in both variants |
| Variants.CitationExample | HuggingFace/rag_engine.py:84 | complaint C1, chunk 42 is cited as `Complaint C1 (chunk 42)` |

## Left out

- Loading the chunk table, the FAISS index, the embedding model and the Groq client, and the `lru_cache` memoisation. This is file I/O and library start-up; the table and client are inputs.
- The import-time loads of the FastAPI variant. These are file I/O.
- The `GROQ_API_KEY` and `HF_TOKEN` environment reads. These are start-up conditions on the process environment.
- Embedding the query and the FAISS search itself. These are numerical foreign libraries; their output is the given hit sequence, with distances as `real`s and no float32 arithmetic.
- Pandas negative indexing. Every position used for a lookup must name an existing row, except that the HuggingFace variant may receive `-1` in first place. FAISS pads a search for more neighbours than the index holds with `-1` at later positions. Pandas would read those as the last row, and their padding distance would then be filtered out. That case lies outside the model's preconditions, so "k beyond the corpus size" is not covered.
- The model name, temperature, token limit and message roles of the completion request. They have no effect the model can observe.
- A client reply whose message content is missing (`None`). The client is modelled as always returning text or an error.
- The rendering of complaint and chunk ids by the citation f-strings. The ids are already text in the model.
- The `astype(str)` conversion of the `text` column. `Corpus.Texts` takes the column as given, so a missing cell that pandas would render as "nan" is not modelled.
- Logging calls.
- The Streamlit and Gradio user interfaces, the FastAPI endpoint module and the asset download script. These are UI and transport glue around `answer_with_sources`.
