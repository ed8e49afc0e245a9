# infra-ai-assistant backend core in Dafny

This project models the Python backend of the infra-ai-assistant RAG
chatbot and proves properties of that model. The backend is a question-answering
service over vendor documentation for Cisco, Juniper, Fortinet and other vendors. The model
covers four parts of it:

- **Sessions** (`session_manager.dfy`): the in-memory `SessionManager`.
  It has a session table whose histories are capped at 20 messages, the
  creation times, the query counter, the recent-query log capped at 100, and
  the per-word topic counts. `get_analytics` derives the top 20 topics and
  the last 10 queries from them. It is a class whose methods change its fields
  in place. Every method keeps a validity invariant and states its whole new
  state.
- **Retriever** (`retriever.dfy`): the tokenizer, the rank/positive/top-k
  filter of `retrieve_bm25`, and reciprocal rank fusion (RRF) as its two scoring loops over
  the `scores` and `doc_map` dictionaries. It also covers the projection of
  `hybrid_retrieve`. The vector and BM25 scores are inputs.
- **Generator** (`generator.dfy`): prompt and message assembly for answers,
  vendor comparisons, configuration snippets and troubleshooting. The system
  prompts are included. The Anthropic call is an uninterpreted function
  `llm: LlmRequest -> string`.
- **Endpoints** (`endpoints.dfy`, `documents.dfy`): the decision logic of the
  FastAPI handlers. The Chroma collection is a sequence of `(id, metadata)`
  records. Searches are function parameters:
  - `HybridSearch` is the hybrid retrieval;
  - `VendorSearch` is the search by vendor.

  The handlers modelled are:
  - source parsing;
  - the upload extension check and chunk ingestion;
  - document listing and deletion;
  - session and history selection in `query_rag` and `troubleshoot_issue`;
  - the per-vendor collection and "General" fallback of `compare_vendors`;
  - the branch of `generate_configuration`.

`types.dfy`, `text.dfy` and `seqs.dfy` hold shared data types and helpers:
- string helpers: ASCII lowercasing, word splitting, joining, substring;
- number rendering and string ordering;
- sequence helpers: take, last n, distinct, counting, and a sort by key with its proofs.

## Model

| member | source | states |
|---|---|---|
| Sessions.SessionManager.constructor | src/rag_bot/session_manager.py:14-23 | a valid store with no sessions, no creation times, no queries, no response times and no topics |
| Sessions.SessionManager.CreateSession | src/rag_bot/session_manager.py:25-30 | for an id not yet in the table, the new session maps to an empty history and its creation time is recorded; no other session or analytics field changes |
| Sessions.SessionManager.GetHistory | src/rag_bot/session_manager.py:32-37 | returns the stored history (empty for an unknown id) and creates the missing entry and its timestamp; nothing else changes |
| Sessions.SessionManager.AddMessage | src/rag_bot/session_manager.py:39-47 | the session's new history is the last 20 of old history plus the new message, so it has at most 20 entries ending in `{role, content}`; an unknown id is created first; other sessions and analytics are unchanged |
| Sessions.SessionManager.DeleteSession | src/rag_bot/session_manager.py:49-52 | removes the id from both tables and is a no-op for an unknown id |
| Sessions.SessionManager.TrackQuery | src/rag_bot/session_manager.py:54-69 | query count + 1, response time appended, recent log is the last 100 entries ending with the new question, topics counted over the lowercased split words; sessions untouched |
| Sessions.CountTopics | src/rag_bot/session_manager.py:67-69 | the topic loop computes `AddTopics` and keeps the table well formed with lowercase topic-word keys |
| Sessions.AddTopicsCount | src/rag_bot/session_manager.py:67-69 | a word's count rises by its number of occurrences exactly when it is longer than 3 characters and alphabetic; any other count stays |
| Sessions.AddTopicsKeys | src/rag_bot/session_manager.py:67-69 | the keys after counting are the old keys plus the topic words of the question |
| Sessions.SessionManager.GetAnalytics | src/rag_bot/session_manager.py:71-90 | reads only: total queries, number of active sessions, mean response time, top 20 topics, last 10 queries (at most 20 and 10 entries) |
| Sessions.PopularTopicsOrder | src/rag_bot/session_manager.py:78-81 | popular topics have min(20, #topics) entries in non-increasing count order |
| Sessions.PopularTopicsEntries | src/rag_bot/session_manager.py:78-81 | popular topics are distinct and each carries its stored count |
| Sessions.PopularTopicsTop | src/rag_bot/session_manager.py:78-81 | a topic left out of the top list has a count no higher than any listed one |
| Retriever.Tokenize | src/rag_bot/retrieval/retriever.py:23-25 | tokens are non-empty, lowercase and made of word characters, and together they are exactly the word characters of the lowered text |
| Retriever.TokenizeWord | src/rag_bot/retrieval/retriever.py:23-25 | a non-empty run of word characters is a single token, lowercased |
| Retriever.TokenizeSplit | src/rag_bot/retrieval/retriever.py:23-25 | a non-word character splits the tokens: those of the text before it followed by those of the text after it, none spanning it |
| Retriever.RetrieveBm25 | src/rag_bot/retrieval/retriever.py:61-82 | the filter loop returns `Bm25Hits` of the scored corpus |
| Retriever.Bm25HitsSpec | src/rag_bot/retrieval/retriever.py:70-81 | at most `top_k` hits, only positive scores, non-increasing scores, distinct corpus positions, each hit built from its corpus record |
| Retriever.Bm25IndicesBest | src/rag_bot/retrieval/retriever.py:70-81 | a positive-scoring index that is not kept scores no higher than every kept index, and it is missing only when exactly `top_k` indices were kept |
| Retriever.Bm25HitsBest | src/rag_bot/retrieval/retriever.py:61-82 | a positive-scoring chunk that is not returned scores no higher than every returned hit, and exactly `top_k` hits were returned |
| Retriever.ScoreHits | src/rag_bot/retrieval/retriever.py:96-106 | one scoring loop over the dictionaries equals the pure `Pass` over its hit list |
| Retriever.ReciprocalRankFusion | src/rag_bot/retrieval/retriever.py:85-111 | the method returns `Rrf` of the two lists |
| Retriever.FusedRanking | src/rag_bot/retrieval/retriever.py:96-111 | sorting the filled dictionary's keys by stored score and cutting at `top_k` gives the ranking by fused score, and `doc_map` holds the chosen record of every ranked id |
| Retriever.PassScores | src/rag_bot/retrieval/retriever.py:96-106 | a loop adds exactly its list's ids, each with the sum of 1/(k+rank+1) over its occurrences |
| Retriever.PassOverwrite | src/rag_bot/retrieval/retriever.py:99 | the vector loop leaves the last vector hit of each id in `doc_map` |
| Retriever.PassKeepFirst | src/rag_bot/retrieval/retriever.py:105-106 | the BM25 loop keeps existing records and stores the first BM25 hit of a new id |
| Retriever.RrfShape | src/rag_bot/retrieval/retriever.py:96-111 | at most `top_k` results with pairwise distinct ids, each taken from one of the inputs |
| Retriever.RrfOrdered | src/rag_bot/retrieval/retriever.py:96-109 | results are in non-increasing fused score, every score positive |
| Retriever.RrfPrefersVector | src/rag_bot/retrieval/retriever.py:99-106 | an id present in the vector list is returned with its vector record, otherwise with its first BM25 record |
| Retriever.RrfTopK | src/rag_bot/retrieval/retriever.py:109 | an input id left out scores no higher than every returned id; it can only be left out when `top_k` is below the number of distinct ids, and then exactly `top_k` results are returned |
| Retriever.HybridRetrieve | src/rag_bot/retrieval/retriever.py:114-133 | chunks and metadata have equal length, at most `top_k`, the i-th pair coming from the i-th fused hit |
| Generator.BuildAnswerContext | src/rag_bot/generation/generator.py:44-52 | the loop yields the numbered source blocks of the zipped pairs joined by a blank line |
| Generator.GenerateAnswer | src/rag_bot/generation/generator.py:31-73 | the answer is the model's reply to `AnswerRequest` |
| Generator.AnswerRequestShape | src/rag_bot/generation/generator.py:55-72 | 4096 tokens, caller or default system prompt, history unchanged followed by exactly one user turn that quotes the question |
| Generator.AnswerQuotesSources | src/rag_bot/generation/generator.py:44-65 | every paired chunk and its source block occur in the final user turn |
| Generator.AnswerZipOnly | src/rag_bot/generation/generator.py:44 | chunks or metadata past the shorter list do not affect the request |
| Generator.SourceHeaderDefaults | src/rag_bot/generation/generator.py:46-50 | for any metadata, field by field: a missing vendor or document reads "Unknown", a missing page "n/a", and a present value is quoted as it is |
| Generator.SourceNumbers | src/rag_bot/generation/generator.py:50 | blocks are numbered from 1 and distinct blocks carry distinct numbers |
| Generator.VendorSectionsSpec | src/rag_bot/generation/generator.py:85-93 | there is one section per requested vendor with non-empty chunks, in request order |
| Generator.UnrequestedContextIgnored | src/rag_bot/generation/generator.py:85-87 | context stored under a key that is not a requested vendor does not change the sections |
| Generator.BuildComparisonContext | src/rag_bot/generation/generator.py:85-93 | the loop yields the vendor sections joined by a blank line |
| Generator.GenerateComparison | src/rag_bot/generation/generator.py:76-117 | the comparison is the model's reply to `ComparisonRequest` |
| Generator.ComparisonNamesVendors | src/rag_bot/generation/generator.py:95-104 | the request names all requested vendors joined by ", ", each one individually and the topic, with or without context |
| Generator.ComparisonQuotesChunks | src/rag_bot/generation/generator.py:88-93 | each of a vendor's first five chunks appears in the request |
| Generator.FiveChunkContextSpec | src/rag_bot/generation/generator.py:128 | chunks beyond the fifth do not change the context, and each of the first five, however many chunks there are, appears in it |
| Generator.ConfigRequest | src/rag_bot/generation/generator.py:120-153 | one user message, 4096 tokens, the configuration system prompt; the message quotes the configuration request and each of the first five chunks (lines 128, 137-144) |
| Generator.PromptQuotes | src/rag_bot/generation/generator.py:137-144 | a prompt made of a lead, an input, "Relevant documentation", the five-chunk context and a tail quotes the input and each of the first five chunks; the config (137-144) and troubleshoot (180-184) prompts have this form |
| Generator.TroubleshootRequest | src/rag_bot/generation/generator.py:165-194 | for any number of chunks: 4096 tokens, the troubleshooting system prompt, the history unchanged and then exactly one user turn, which quotes the problem description and each of the first five chunks (lines 165, 180-184) |
| Generator.GenerateTroubleshoot | src/rag_bot/generation/generator.py:156-195 | the diagnosis is the model's reply to `TroubleshootRequest` |
| Generator.FiveChunkRequests | src/rag_bot/generation/generator.py:120-195 | config and troubleshoot requests ignore chunks past the fifth |
| Documents.ParseSources | src/rag_bot/main.py:136-146 | one source per metadata in order, "Unknown" for a missing vendor or document, "n/a" for a missing page, the chunk index kept |
| Documents.ParseSourcesAppend | src/rag_bot/main.py:136-146 | parsing distributes over concatenation |
| Documents.CheckUpload | src/rag_bot/main.py:215-218 | accepted exactly when the lowercased suffix of the file name is .pdf, .html or .htm, otherwise the 400 error |
| Documents.SuffixSpec | src/rag_bot/main.py:215 | the suffix is empty or a final dot part that is not the whole name; otherwise it starts at the last dot |
| Documents.UploadRejectsDotFile | src/rag_bot/main.py:215-218 | a name such as ".pdf" has no suffix and is refused |
| Documents.IngestPdf | src/rag_bot/main.py:234-254 | the page loop adds the chunks of `PdfChunks` and counts them |
| Documents.IngestHtml | src/rag_bot/main.py:256-273 | the chunk loop adds the chunks of `HtmlChunks` and counts them |
| Documents.UploadDocument | src/rag_bot/main.py:208-288 | a refused name gives the error before anything is added; otherwise it ingests by extension and `chunks_added` is the number added |
| Documents.PdfChunksSpec | src/rag_bot/main.py:234-254 | every added chunk carries the upload's vendor, file name, a page and an index; their count is the page total |
| Documents.GroupAllEntry | src/rag_bot/main.py:300-314 | one group per `vendor/document` key, with its record count, its set of non-None pages, and the names of its first record |
| Documents.GroupAllKeys | src/rag_bot/main.py:300-314 | the group keys appear in first-seen order without repeats |
| Documents.ListEntries | src/rag_bot/main.py:317-324 | the output loop emits one entry per sorted key from its group |
| Documents.ListDocuments | src/rag_bot/main.py:291-329 | the method returns `Listing` of the records |
| Documents.ListingSpec | src/rag_bot/main.py:298-328 | one entry per distinct key in strictly ascending key order, with a chunk count equal to the key's record count and a page count equal to the number of distinct pages; total chunks equals the number of records |
| Documents.GroupKeyCollision | src/rag_bot/main.py:304 | two different vendor/document pairs can share one listing key |
| Documents.SelectedIdsSpec | src/rag_bot/main.py:337-343 | an id is selected exactly when its record matches both the vendor and the document |
| Documents.DeleteDocument | src/rag_bot/main.py:332-355 | 404 when nothing matches; otherwise the count removed and the records left |
| Documents.SelectedIdsCount | src/rag_bot/main.py:337-343 | one id is selected per matching record, so the count removed is the number of matching records |
| Documents.DeleteSpec | src/rag_bot/main.py:337-353 | nothing is selected exactly when no record matches; no matching record remains; the count removed is the number of matching records |
| Documents.DeleteKeepsOthers | src/rag_bot/main.py:337-353 | with unique ids, a record that does not match survives |
| Documents.DeleteMissesUnknownVendor | src/rag_bot/main.py:300-343 | a record without a vendor is listed under "Unknown/doc" but cannot be deleted as vendor "Unknown" |
| Endpoints.OpenSession | src/rag_bot/main.py:170-177 | the given id or a fresh one; history from a non-empty conversation first, then the stored history if an id was given, otherwise empty; the session table changes only as `create_session` or `get_history` would change it |
| Endpoints.RecordExchange | src/rag_bot/main.py:195-196 | the session's history becomes `Exchanged`: the old history, the user turn, the assistant turn, capped at 20 |
| Endpoints.ExchangedSpec | src/rag_bot/main.py:195-196 | between 2 and 20 messages, the last two are the question and the reply, and before them is a suffix of the old history |
| Endpoints.CloseTurn | src/rag_bot/main.py:195-200 | records the exchange and then the query analytics |
| Endpoints.AnswerFound | src/rag_bot/main.py:182-192 | no chunks gives the fixed "No relevant information" answer and no sources; otherwise the model's answer and the parsed sources |
| Endpoints.QueryRag | src/rag_bot/main.py:164-205 | session id, answer and sources as above; the session's history gains exactly the user and assistant turns; analytics count the query |
| Endpoints.TroubleshootIssue | src/rag_bot/main.py:438-476 | same session handling; the model is asked even when nothing was found; sources only when metadata was found |
| Endpoints.CollectFound | src/rag_bot/main.py:367-375 | found vendors are the requested ones whose search returned chunks |
| Endpoints.CollectContexts | src/rag_bot/main.py:367-375 | the contexts have a key exactly for the found vendors, holding that vendor's chunks |
| Endpoints.CollectSpec | src/rag_bot/main.py:367-375 | the combination of the two above, seen through the context lookup |
| Endpoints.CollectSources | src/rag_bot/main.py:367-375 | the sources extended batch by batch are the parsed sources of the metadata of every search that found chunks, in request order |
| Endpoints.CollectFoundSections | src/rag_bot/main.py:367-375 | found vendors, in request order, are the vendors that get a comparison section |
| Endpoints.CompareVendors | src/rag_bot/main.py:358-403 | `vendors_found` is the found vendors, or all the requested vendors when none was found but the general search found chunks; sources and request follow the same branch |
| Endpoints.FallbackNotQuoted | src/rag_bot/main.py:377-394 | the fallback chunks stored under "General" never reach the prompt unless a vendor is named "General" |
| Endpoints.NoContextNoSections | src/rag_bot/generation/generator.py:85-93 | with no contexts there are no sections |
| Endpoints.GenerateConfiguration | src/rag_bot/main.py:406-435 | the vendor search when a vendor is given, otherwise the hybrid search; fixed "No relevant documentation" text with no sources when nothing was found, otherwise the model's config over the first five chunks and the parsed sources of the metadata found |

## Left out

- `src/rag_bot/config.py` holds environment loading, directory creation and constant tables only; no logic of the core depends on it.
- FastAPI plumbing is not modelled: the app, CORS, static files, request validation, the 500 wrapping of exceptions, and `health_check`, `get_analytics` (the endpoint), `update_config` and `get_config`. Form defaults are supplied by the caller: `Documents.UploadDocument` takes the `vendor` field, whose default is "Uploaded".
- Concurrency is not modelled: requests are handled one after another. FastAPI runs the plain `def` endpoints on a thread pool and `SessionManager` has no lock, so two requests on one session can interleave their `get_history`, `add_message` and `track_query` steps. The promise of `Endpoints.QueryRag` and `Endpoints.TroubleshootIssue` that exactly two turns are appended holds only for serial requests.
- Chroma, SentenceTransformer embeddings, `BM25Okapi` scoring and the Anthropic client are foreign. Scores, search results and model replies are inputs or function parameters. `retrieve_vector` and `retrieve_by_vendor` are only seen through their results. The model name passed to the client is not part of `LlmRequest`.
- The endpoints call hybrid retrieval through the `HybridSearch` parameter; the retrieval itself is modelled separately as `Retriever.HybridRetrieve`. The timing print inside `hybrid_retrieve` is left out.
- Upload file I/O, PDF/HTML text extraction and chunking are inputs (`PdfPage` lists and HTML chunk lists). The 'source_path' metadata field and the files written to disk are not modelled.
- Time is one `now` value per call, and the response time is a parameter. Python floats are exact reals. Ties in the RRF sort therefore follow the exact sums rather than float rounding.
- Sessions.SessionManager.GetAnalytics: the average is the exact mean; `round(avg, 3)` is not modelled.
- `uuid4` is a fresh id supplied by the caller that is not already a session.
- Sessions.SessionManager.GetHistory: Python returns the stored list itself. The model returns its value, so a later change made through that alias is not modelled; the core never makes one.
- Lowercasing, `isalpha`, `str.split` and the regex `\w` are modelled on ASCII characters only.
- A `top_k` of None is not modelled; `top_k` is an integer.
- File-name handling keeps only the part after the last '/' once trailing slashes are removed; the remaining `pathlib` normalisation is not modelled.
- Documents.DeleteDocument: the `total_remaining` count comes from the collection (`col.count()`), so the model returns the remaining records instead. The `total_in_collection` field of the upload reply is also not modelled.
- Generator.GenerateComparison: `vendor_metadatas` is accepted by the source but never used, so it is not a parameter.
- The system prompt is a tag (`System`). A caller-given prompt text equal to one of the fixed prompts is therefore a request distinct from the default one.
- Generator.GenerateConfig has no contract of its own; its request is described by `Generator.ConfigRequest` and `Generator.FiveChunkRequests`.
- The browser TypeScript client is not part of this model.

Behaviours of the source that the model keeps as written and states as lemmas:
- The compare fallback stores its chunks under "General", which the prompt never reads (`Endpoints.FallbackNotQuoted`).
- Listing keys `vendor/document` can collide (`Documents.GroupKeyCollision`).
- A record without a vendor is listed but cannot be deleted by the name it is listed under (`Documents.DeleteMissesUnknownVendor`).
- A file name that is only an extension, such as ".pdf", is refused (`Documents.UploadRejectsDotFile`).
- Troubleshooting asks the model even when retrieval found nothing (`Endpoints.TroubleshootIssue`).
