# PDF-Rag backend, modelled in Dafny

PDF-Rag is a small retrieval-augmented question-answering backend. Users upload PDFs. For
each file the backend extracts the text, splits it into chunks, and stores the chunks with
their embeddings in a vector collection. It also asks a hosted LLM for a summary of the
file's most important sentences, which it picks by TF-IDF. A query is first classified by
the LLM. A greeting gets a direct reply. Any other query retrieves the nearest chunks and
has the LLM answer from them, each chunk tagged with source metadata. The routes also keep
an in-memory summary store and the shared conversation history.

The model follows the two core files of the backend.

- `builtins.dfy` (module `Builtins`) covers the Python built-ins the services depend on:
  - exceptions as `Call` results
  - list indexing with negative indices and its IndexError
  - `str.strip` with CPython's whitespace set, `str.lower` and `str.join`
  - the clamping `xs[start:]` slice
  - `str(int)`
- `sentences.dfy` (module `Sentences`) models `split_sentences`. The regex
  `(?<=[.!?])\s+` is written out as a scan that cuts the stripped text into pieces
  (what `re.split` returns) and gaps (the whitespace runs it drops).
- `ranking.dfy` (module `Ranking`) models the selection in `rank_sentences_by_tfidf`.
  - `argsort()[-max_sentences:]` keeps the top indices.
  - The list comprehension fetches the sentences at those indices.
  - The result is joined by spaces.
- `retrieval.dfy` (module `Retrieval`) covers three pieces of `query_rag_model`:
  - the nested flattening loop of `retrieve_relevant_chunks`
  - the source-tagged context loop
  - the `conversation_history[-2:]` window
- `clients.dfy` (module `Clients`) holds the `Backend` class. It gathers the library
  calls and remote services, and records in `log` every request sent to the LLM or to the
  vector collection.
  - PDF extraction, the text splitter, TF-IDF scoring and argsort are deterministic
    function fields.
  - The LLM chat, `collection.add` and `collection.query` are function fields that also
    receive the log of earlier requests, since their answers may depend on everything
    sent before.
- `services.dfy` (module `Services`) holds `upload_file` and `query_rag_model`. Each is
  written twice:
  - as an imperative method over the `Backend`, and for the query path a `History` object
  - as a specification function (`UploadSpec`, `QuerySpec`) that the method is proved
    equal to, with lemmas about those functions
- `routers.dfy` (module `Routers`) holds the `Router` class: the module-level
  `summaries_db` and `conversation_history`, and the five routes.
  - `summaries_db` is a Python dict, so it keeps insertion order. It is modelled as a map
    plus the sequence of its keys in first-insertion order.

Where the code and the documented design differ, the model follows the code:

- `query_rag_model` builds `history_context` from the last two turns but never puts it
  into a prompt. Lemma `ResponseIgnoresHistory` proves that the history has no effect on
  the response or on any request sent.
- `rank_sentences_by_tfidf` defaults to 30 sentences, but `upload_file` passes 80, which is
  the cap the model uses (`MaxSummarySentences`).

## Model

| member | source | states |
|---|---|---|
| Builtins.Subscript | app/services.py:151 | `xs[i]` succeeds exactly when -len(xs) <= i < len(xs); a non-negative index gives the item at that position and a negative one the item at len(xs) + i; otherwise it raises IndexError "list index out of range" |
| Builtins.Strip | app/services.py:158 | `strip()` gives the empty string exactly when the text is all whitespace; otherwise the result starts and ends with a non-whitespace character |
| Builtins.StripKeepsMiddle | app/services.py:158 | `strip()` removes only whitespace: the result is a slice of the text with nothing but whitespace before and after it |
| Builtins.SliceFrom | app/services.py:151 | `xs[start:]` is a suffix of xs; a negative start keeps min(-start, len) items, and a start at or past the end keeps none |
| Builtins.Decimal | app/services.py:32 | `str(i)` for a chunk index is a non-empty string of decimal digits that spell i, one digit exactly for i < 10, with no leading zero |
| Builtins.LowerChar | app/services.py:62 | an upper-case ASCII letter becomes its lower-case letter, anything else is kept, and the result is never upper-case |
| Builtins.Lower | app/services.py:62 | `lower()` keeps the length, lowers each character in place and leaves no upper-case ASCII letter |
| Builtins.Join | app/services.py:153 | `sep.join(parts)` is "" for no parts; otherwise it starts with the first part, ends with the last, and is as long as the parts plus one separator between each pair of neighbours |
| Builtins.JoinIsInterleave | app/services.py:153 | `sep.join(parts)` is every part in order with `sep` between neighbours: the concatenation of part 0, sep, part 1, …, sep, the last part |
| Sentences.SplitFrom | app/services.py:158 | `re.split` returns one piece more than the separators it removes |
| Sentences.SplitFromRejoins | app/services.py:158 | putting the removed separators back between the pieces gives the scanned text |
| Sentences.SplitFromEnds | app/services.py:158 | the first piece is a prefix of the scanned text, and the last piece ends where the text ends (it is empty only when the text ends in whitespace) |
| Sentences.SplitFromGapsSpace | app/services.py:158 | every separator removed is a non-empty whitespace run |
| Sentences.SplitFromPiecesEnd | app/services.py:158 | every piece followed by a separator is non-empty and ends in '.', '!' or '?' (the lookbehind) |
| Sentences.SplitFromPiecesStart | app/services.py:158 | a non-empty piece after a separator starts with a non-whitespace character (the greedy `\s+`) |
| Sentences.SplitFromNoCut | app/services.py:158 | no piece contains a terminator followed by whitespace, i.e. a place where the pattern would have matched |
| Sentences.SplitSentencesShape | app/services.py:156-158 | `split_sentences` returns at least one sentence; an all-whitespace text gives `[""]`; every sentence but the last is non-empty and ends in a terminator; no sentence contains a split point |
| Sentences.SplitSentencesTrimmed | app/services.py:156-158 | for a text that is not all whitespace, every sentence is non-empty and has no whitespace at either end |
| Sentences.SplitRejoins | app/services.py:156-158 | rejoining the sentences with the removed whitespace runs gives the stripped text exactly; each run is non-empty whitespace followed by a sentence that starts with a non-space |
| Ranking.TopKeepsHighest | app/services.py:151 | `argsort()[-k:]` keeps min(k, n) indices for k > 0 and all n for k = 0. They are in range, distinct, and in ascending score order, and no index left out scores higher than a kept one |
| Ranking.Picked | app/services.py:151 | the comprehension over in-range indices yields one sentence per index |
| Ranking.PickInRange | app/services.py:151 | when every index is in range, the comprehension raises nothing and yields the sentences at those indices, in that order |
| Ranking.RankSentencesPicksTop | app/services.py:143-153 | with one score per sentence and a true argsort, ranking succeeds and returns the kept sentences joined by single spaces |
| Retrieval.Tags | app/services.py:137-140 | the source list has exactly one entry per flattened chunk |
| Retrieval.FlattenResults | app/services.py:134-141 | the nested loop returns all chunks of all groups in order, with a source list tagging each chunk with its group's metadata; it raises IndexError when a group that has chunks has no metadata entry |
| Retrieval.AppendGroup | app/services.py:138-140 | one group's inner loop appends all its chunks and its metadata once per chunk; it leaves the lists as they were for an empty group, and raises IndexError when the group has chunks but no metadata |
| Retrieval.FlattenPairs | app/services.py:137-140 | chunk j of group i lands at position (chunks of earlier groups) + j of the flattened list, and the source beside it is metadata i |
| Retrieval.AssembleContext | app/services.py:73-76 | the context is the concatenation of one `[Source: …]` block per chunk, using the source at the same position or "Unknown Source" past the end of the source list |
| Retrieval.RetrievedContextHasSources | app/services.py:74-75 | retrieval always gives as many sources as chunks, so every block carries the source entry at its own position (its group's metadata entry) and "Unknown Source" never appears |
| Retrieval.RecentTurns | app/services.py:78 | `conversation_history[-2:]` is the last min(2, len) turns |
| Retrieval.HistoryContextWindow | app/services.py:78 | the history text is "" for no turns, "User: …\nModel: …" for one turn, and depends only on the last two turns of a longer history |
| Clients.Backend.constructor | app/services.py:15-19 | the backend starts with the given libraries and services and an empty request log |
| Clients.Backend.QueryLlm | app/services.py:114-128 | one chat request is appended to the log, and the reply depends on the prompt and the earlier requests |
| Clients.Backend.CollectionAdd | app/services.py:29-36 | embedding the chunks and `collection.add` append one add request to the log |
| Clients.Backend.CollectionQuery | app/services.py:131-132 | embedding the query and `collection.query` append one search request to the log |
| Services.ChunkIdReadsBack | app/services.py:32 | the id `{filename}_{i}` reads back as the file name, an underscore, and decimal digits whose value is i |
| Services.ChunkBatch | app/services.py:31-36 | `collection.add` gets one id and one metadata record per chunk, and the chunks themselves as documents |
| Services.ChunkBatchIdentifiesChunks | app/services.py:31-36 | the id of chunk i is `ChunkId(filename, i)`, the ids of one file's chunks are pairwise distinct, and chunk i's metadata is the file's name with index i |
| Services.RankByTfidfPicksTop | app/services.py:143-153 | given one TF-IDF score per sentence and a true argsort, `rank_sentences_by_tfidf(text, 80)` keeps min(80, n) distinct in-range indices in ascending score order, no index left out scores higher than a kept one, and the result is their sentences of `split_sentences(text)` joined by spaces |
| Services.IngestOne | app/services.py:25-45 | one pass of the upload loop does what `IngestFile` specifies: extract (a failure surfaces as "500: Error extracting text: …"), split, add, rank, then ask for the summary |
| Services.UploadFiles | app/services.py:24-49 | `upload_file` returns and logs exactly what `UploadSpec` specifies: files are processed in order, the first failure propagates, and an empty list raises UnboundLocalError |
| Services.UploadRequestsAt | app/services.py:25-45 | in the requests an upload sends, request 2i adds file i's chunks and request 2i+1 asks for its summary |
| Services.IngestFileRequests | app/services.py:26-45 | a file that is indexed and summarised sends exactly its add and summary requests, and its summary is the LLM's reply to the second |
| Services.UploadSendsEveryFile | app/services.py:25-45 | a successful upload sends the add and summary requests of every file in turn and nothing else |
| Services.UploadFromFails | app/services.py:25-45 | a file that fails to be indexed or summarised ends the upload with its error, and later files are not touched |
| Services.UploadOneFile | app/services.py:24-49 | uploading one file returns the LLM's reply to that file's summary request, which is the last request sent |
| Services.UploadReturnsLastSummary | app/services.py:24-49 | the summary a successful upload returns is the reply to its last request, the summary request of the last file |
| Services.UploadSummarisesLastFile | app/services.py:24-49 | an upload of no files fails with UnboundLocalError; a successful one logged every file's two requests and returns the LLM's reply to the last file's summary request |
| Services.UploadLogPerFile | app/services.py:29-45 | after a successful upload the log grew by 2 per file, with file i's add at offset 2i and its summary request at 2i+1 |
| Services.History.constructor | app/routers.py:10 | the conversation history starts empty |
| Services.RetrieveRelevantChunks | app/services.py:130-141 | one search request is logged; the result is the search's error or the flattened results |
| Services.QueryRagModel | app/services.py:51-99 | `query_rag_model` returns, logs and records in the history exactly what `QuerySpec` specifies (classify, then greet or retrieve, then answer) |
| Services.GreetingIgnoresCaseAndSpace | app/services.py:62-65 | a classifier reply counts as a greeting exactly when, stripped of surrounding whitespace, it is the eight letters of "greeting" in any case |
| Services.GreetingSkipsRetrieval | app/services.py:62-66 | a query classified as "greeting" (after strip and lower) sends only the two chat requests, no search, and leaves the history unchanged |
| Services.NothingFoundKeepsHistory | app/services.py:68-71 | when retrieval finds no chunk, the fixed not-found message is returned, no answer is requested and the history is unchanged |
| Services.HistoryOnlyGrowsByAnswer | app/services.py:94-97 | a query either leaves the history unchanged or appends exactly one turn (the query, the returned response), and only on the full answer path: classify, search, answer |
| Services.AnswerAppendsTurn | app/services.py:94-99 | when the query is not a greeting, retrieval finds chunks and the answer request succeeds, the stripped answer is returned and exactly one turn (query, stripped answer) is appended, after the classify, search and answer requests |
| Services.ResponseIgnoresHistory | app/services.py:78-92 | the history does not affect the response or any request sent: `history_context` is never put into the prompt |
| Services.AnswerPromptTagsEveryChunk | app/services.py:73-89 | when an answer is recorded, the answer prompt holds one block per retrieved chunk, each tagged with the source entry at its position, which is its group's metadata entry |
| Routers.Listing | app/routers.py:56 | the listing has one entry per stored name |
| Routers.ListingCoversStore | app/routers.py:50-56 | the listing has as many entries as the store has keys, every stored summary appears under its name, and no name appears twice |
| Routers.Router.constructor | app/routers.py:10-11 | the summary store starts empty |
| Routers.Router.StoreSummary | app/routers.py:35-39 | the summary replaces any earlier one for that name; a new name joins the end of the key order and an existing one keeps its place; returns "success"; the store stays well-formed |
| Routers.Router.GetSummary | app/routers.py:41-47 | returns the stored summary exactly when one is stored under the name and it is non-empty; otherwise 404 "Summary not found" |
| Routers.Router.GetAllSummaries | app/routers.py:50-56 | 404 "No summaries found" exactly when the store is empty; otherwise the listing of all stored summaries in insertion order |
| Routers.Router.QueryRag | app/routers.py:28-33 | runs `query_rag_model` on the shared history; an exception becomes 500 with its message |
| Routers.FindNonPdf | app/routers.py:15-17 | finds the first file not declared "application/pdf", or reports that there is none |
| Routers.Router.UploadPdfs | app/routers.py:13-25 | a non-PDF file gives 400 "Invalid file type: {name} is not a PDF." for the first such file, with nothing sent or stored. Otherwise `upload_file` runs: its exception becomes 500 with nothing stored, and on success the summary is stored under the last file's name |

## Left out

- The PDF parser, the text splitter, TF-IDF vectorisation, numpy's argsort, the embedding
  model, the vector collection and the Groq LLM are external libraries and services. They
  are function fields of `Backend` with no behaviour of their own.
  - `Backend.Valid` states what the model relies on: one TF-IDF score per sentence, and an
    argsort that returns a permutation in ascending score order.
  - Which permutation argsort picks among equal scores is left open.
- TF-IDF scores are floating-point numbers. They are only compared, so they are modelled as
  `real`.
- The prompt texts are abbreviated. Only where the query, content and context are spliced
  in matters to the properties.
- Retrieval.FlattenResults: `results["metadatas"][i]` is the metadata entry of query group
  i (app/services.py:140). For the single query sent, that entry is the list of the metadata
  records of all hits. The model keeps it as one `metadatas` string per group, the text it
  renders to in the prompt. So every chunk of a group is tagged with the same entry, and the
  model does not say which of its records belongs to which chunk.
- `print` calls, `load_dotenv` and the clients' construction at import time are I/O and are
  left out.
- The routes are `async`, and concurrent requests can race on the shared summary store and
  history. Requests are modelled one at a time.
- Builtins.Lower: lower-cases ASCII letters only, not the full Unicode case mapping of
  `str.lower`.
- Services.QueryRagModel: the LLM message's `content` is taken to be a string. The case
  where the SDK returns `None`, and calling `.strip()` on it raises AttributeError, is not
  modelled. The same holds for `upload_file`'s `queryLlm(prompt).content`
  (app/services.py:45): `Services.UploadFiles` takes the summary to be a string.
- The text of the UnboundLocalError for an empty upload (`ResponseUnbound`) follows recent CPython
  versions; older versions word it differently.
- Routers.Router.UploadPdfs: pydantic's validation of `SummaryRequest` (app/routers.py:21)
  could only fail on a `None` summary. The `Services.QueryRagModel` line above excludes that,
  so the validation is not modelled.
- FastAPI's request parsing, the HTTP layer's JSON encoding and the frontend
  (`frontend/script.js`) are not part of this model.
- `max_sentences=0` keeps every sentence, because the slice `[-0:]` is the whole list. The
  model keeps this behaviour (`Ranking.TopKeepsHighest`), although `upload_file` always
  passes 80.
