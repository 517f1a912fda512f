/** The two service operations: upload_file (index every uploaded PDF and summarise it)
    and query_rag_model (classify a query, then answer it from the retrieved chunks). */
module Services {
  import opened Builtins
  import opened Sentences
  import opened Ranking
  import opened Retrieval
  import opened Clients

  const MaxSummarySentences := 80
  const AddedMessage := "Documents added to vector store"
  const NotFoundMessage := "I couldn't find information related to this in the uploaded documents."
  /** str(HTTPException(500, "Error extracting text: …")) is "500: " followed by the detail. */
  const ExtractionFailed := "500: Error extracting text: "
  /** str() of the UnboundLocalError upload_file raises when it is given no files. */
  const ResponseUnbound := "cannot access local variable 'response' where it is not associated with a value"

  /** The prompt texts, abbreviated: only what is spliced into them matters here. */
  const SummaryInstruction := "Give me a detailed summary of this content extracted from the pdf.\nContent "
  const ClassifyInstruction := "Return \"greeting\" for a greeting and \"document\" for a question.\nQuery: "
  const GreetingInstruction := "Respond naturally: "
  const AnswerInstruction := "Answer only from the context below.\nContext: "

  function SummaryPrompt(content: string): string { SummaryInstruction + content }
  function ClassifyPrompt(query: string): string { ClassifyInstruction + query }
  function GreetingPrompt(query: string): string { GreetingInstruction + query }
  function AnswerPrompt(context: string, query: string): string {
    AnswerInstruction + context + "\nQuestion: " + query
  }

  /** What upload_file returns. */
  datatype UploadReply = UploadReply(message: string, summary: string)

  /** An outcome together with the backend's request log after it. */
  datatype Run<T> = Run(outcome: Call<T>, log: seq<Request>)

  /** The id of chunk i of a file: f"{filename}_{i}". */
  function ChunkId(filename: string, i: nat): string {
    filename + "_" + Decimal(i)
  }

  /** A chunk id reads back as the file name, an underscore and the decimal digits of
      the chunk's index. */
  lemma ChunkIdReadsBack(filename: string, i: nat)
    ensures var id := ChunkId(filename, i);
            && |id| > |filename| + 1
            && id[..|filename|] == filename && id[|filename|] == '_'
            && (forall k :: |filename| < k < |id| ==> IsDigit(id[k]))
            && DigitsValue(id[|filename| + 1..]) == i
  {
    var id := ChunkId(filename, i);
    assert id[|filename| + 1..] == Decimal(i);
  }

  /** The collection.add arguments for one file: an id and a metadata record per chunk. */
  function ChunkBatch(filename: string, chunks: seq<string>): (batch: Batch)
    ensures |batch.ids| == |chunks| && |batch.metadatas| == |chunks|
    ensures batch.documents == chunks
  {
    Batch(seq(|chunks|, i requires 0 <= i => ChunkId(filename, i)), chunks,
          seq(|chunks|, i requires 0 <= i => ChunkMeta(filename, i)))
  }

  /** The ids of one file's chunks are pairwise distinct, and chunk i is recorded with
      the file's name and its position i. */
  lemma ChunkBatchIdentifiesChunks(filename: string, chunks: seq<string>)
    ensures var batch := ChunkBatch(filename, chunks);
            forall i, j :: 0 <= i < j < |chunks| ==> batch.ids[i] != batch.ids[j]
    ensures forall i :: 0 <= i < |chunks| ==>
              && ChunkBatch(filename, chunks).ids[i] == ChunkId(filename, i)
              && ChunkBatch(filename, chunks).metadatas[i] == ChunkMeta(filename, i)
  {
    var batch := ChunkBatch(filename, chunks);
    forall i, j | 0 <= i < j < |chunks| ensures batch.ids[i] != batch.ids[j] {
      ChunkIdReadsBack(filename, i);
      ChunkIdReadsBack(filename, j);
      assert batch.ids[i] == ChunkId(filename, i) && batch.ids[j] == ChunkId(filename, j);
    }
  }

  /** rank_sentences_by_tfidf(text, max_sentences=80). */
  function RankByTfidf(b: Backend, text: string): Call<string> {
    var sentences := SplitSentences(text);
    match b.tfidfScores(sentences)
    case Raised(m) => Raised(m)
    case Done(scores) => RankSentences(sentences, b.argsort(scores), MaxSummarySentences)
  }

  /** With the libraries behaving as documented, ranking fails only when scoring does,
      and otherwise returns the highest-scoring sentences of the split text, at most 80,
      in ascending score order, joined by single spaces. */
  lemma RankByTfidfPicksTop(b: Backend, text: string)
    requires b.Valid()
    requires b.tfidfScores(SplitSentences(text)).Done?
    ensures var scores := b.tfidfScores(SplitSentences(text)).value;
            var top := Top(b.argsort(scores), MaxSummarySentences);
            && |top| == Min(MaxSummarySentences, |SplitSentences(text)|)
            && (forall a :: 0 <= a < |top| ==> 0 <= top[a] < |SplitSentences(text)|)
            && (forall a, c :: 0 <= a < c < |top| ==> top[a] != top[c] && scores[top[a]] <= scores[top[c]])
            && (forall a, j :: 0 <= a < |top| && 0 <= j < |scores| && j !in top ==>
                  scores[j] <= scores[top[a]])
            && RankByTfidf(b, text) == Done(Join(" ", Picked(SplitSentences(text), top)))
  {
    var sentences := SplitSentences(text);
    var scores := b.tfidfScores(sentences).value;
    RankSentencesPicksTop(sentences, scores, b.argsort(scores), MaxSummarySentences);
    TopKeepsHighest(scores, b.argsort(scores), MaxSummarySentences);
  }

  /** One pass of upload_file's loop: extract, split, add to the collection, pick the
      important sentences and ask for a summary. */
  function IngestFile(b: Backend, log: seq<Request>, f: UploadFile): Run<string>
  {
    match b.extractText(f)
    case Raised(m) => Run(Raised(ExtractionFailed + m), log)
    case Done(text) =>
      match b.splitText(text)
      case Raised(m) => Run(Raised(m), log)
      case Done(chunks) =>
        var batch := ChunkBatch(f.filename, chunks);
        var log1 := log + [Add(batch)];
        match b.add(log, batch)
        case Raised(m) => Run(Raised(m), log1)
        case Done(_) =>
          match RankByTfidf(b, text)
          case Raised(m) => Run(Raised(m), log1)
          case Done(important) =>
            var prompt := SummaryPrompt(important);
            Run(b.chat(log1, prompt), log1 + [Chat(prompt)])
  }

  /** upload_file from some file on, with `response` as the loop left it. */
  function UploadFrom(b: Backend, log: seq<Request>, files: seq<UploadFile>,
                      response: Option<string>): Run<UploadReply>
    decreases |files|
  {
    if files == [] then
      match response
      case None => Run(Raised(ResponseUnbound), log)
      case Some(summary) => Run(Done(UploadReply(AddedMessage, summary)), log)
    else
      var one := IngestFile(b, log, files[0]);
      match one.outcome
      case Raised(m) => Run(Raised(m), one.log)
      case Done(summary) => UploadFrom(b, one.log, files[1..], Some(summary))
  }

  /** upload_file(files) on a backend whose request log is `log`. */
  function UploadSpec(b: Backend, log: seq<Request>, files: seq<UploadFile>): Run<UploadReply>
  {
    UploadFrom(b, log, files, None)
  }

  /** The chunks the splitter made of a file's text (nothing when either call failed). */
  function ChunksOf(b: Backend, f: UploadFile): seq<string> {
    match b.extractText(f)
    case Raised(_) => []
    case Done(text) => match b.splitText(text) case Raised(_) => [] case Done(chunks) => chunks
  }

  /** The body of upload_file's loop for one file. */
  method IngestOne(b: Backend, file: UploadFile) returns (r: Call<string>)
    modifies b
    ensures Run(r, b.log) == IngestFile(b, old(b.log), file)
  {
    var text := b.extractText(file);
    if text.Raised? {
      return Raised(ExtractionFailed + text.message);
    }
    var chunks := b.splitText(text.value);
    if chunks.Raised? {
      return Raised(chunks.message);
    }
    var added := b.CollectionAdd(ChunkBatch(file.filename, chunks.value));
    if added.Raised? {
      return Raised(added.message);
    }
    var important := RankByTfidf(b, text.value);
    if important.Raised? {
      return Raised(important.message);
    }
    r := b.QueryLlm(SummaryPrompt(important.value));
  }

  /** upload_file. */
  method UploadFiles(b: Backend, files: seq<UploadFile>) returns (r: Call<UploadReply>)
    modifies b
    ensures Run(r, b.log) == UploadSpec(b, old(b.log), files)
  {
    var response: Option<string> := None;
    var i := 0;
    while i < |files|
      invariant 0 <= i <= |files|
      invariant UploadFrom(b, b.log, files[i..], response) == UploadSpec(b, old(b.log), files)
    {
      ghost var before := b.log;
      var summary := IngestOne(b, files[i]);
      if summary.Raised? {
        UploadFromFails(b, before, files[i..], response);
        return Raised(summary.message);
      }
      UploadFromStep(b, before, files[i..], response);
      assert files[i..][1..] == files[i + 1..];
      response := Some(summary.value);
      i := i + 1;
    }
    assert files[i..] == [];
    if response.None? {
      return Raised(ResponseUnbound);
    }
    r := Done(UploadReply(AddedMessage, response.value));
  }

  /** The important sentences of a file's text, as sent for its summary. */
  function ImportantOf(b: Backend, f: UploadFile): string
  {
    match b.extractText(f)
    case Raised(_) => ""
    case Done(text) => match RankByTfidf(b, text) case Raised(_) => "" case Done(s) => s
  }

  /** The two requests indexing and summarising one file sends when all goes well: the
      add of its chunks, then the request for its summary. */
  function FileRequests(b: Backend, f: UploadFile): (sent: seq<Request>)
    ensures |sent| == 2
  {
    [Add(ChunkBatch(f.filename, ChunksOf(b, f))), Chat(SummaryPrompt(ImportantOf(b, f)))]
  }

  /** The requests of these files, file by file. */
  function UploadRequests(b: Backend, files: seq<UploadFile>): (sent: seq<Request>)
    ensures |sent| == 2 * |files|
  {
    FlatMapPairsLength((f: UploadFile) => FileRequests(b, f), files);
    FlatMap((f: UploadFile) => FileRequests(b, f), files)
  }

  /** Request 2i is the add of file i's chunks, request 2i + 1 asks for its summary. */
  lemma UploadRequestsAt(b: Backend, files: seq<UploadFile>, i: nat)
    requires i < |files|
    ensures |UploadRequests(b, files)| == 2 * |files|
    ensures UploadRequests(b, files)[2 * i] == Add(ChunkBatch(files[i].filename, ChunksOf(b, files[i])))
    ensures UploadRequests(b, files)[2 * i + 1] == Chat(SummaryPrompt(ImportantOf(b, files[i])))
  {
    FlatMapPairs((f: UploadFile) => FileRequests(b, f), files, i);
  }

  /** A file that was indexed and summarised sent exactly its two requests, and its
      summary is the LLM's reply to the second. */
  lemma IngestFileRequests(b: Backend, log: seq<Request>, f: UploadFile)
    requires IngestFile(b, log, f).outcome.Done?
    ensures IngestFile(b, log, f).log == log + FileRequests(b, f)
    ensures IngestFile(b, log, f).outcome
              == b.chat(log + FileRequests(b, f)[..1], SummaryPrompt(ImportantOf(b, f)))
  {
    assert b.extractText(f).Done?;
    var text := b.extractText(f).value;
    assert b.splitText(text).Done?;
    var batch := ChunkBatch(f.filename, b.splitText(text).value);
    assert b.add(log, batch).Done? && RankByTfidf(b, text).Done?;
    var sent := FileRequests(b, f);
    assert sent == [Add(batch), Chat(SummaryPrompt(RankByTfidf(b, text).value))];
    assert sent[..1] == [Add(batch)];
  }

  /** A successful upload sent the add and summary requests of every file in turn and
      nothing else. */
  lemma {:induction false} UploadSendsEveryFile(b: Backend, log: seq<Request>,
                                                files: seq<UploadFile>, response: Option<string>)
    requires UploadFrom(b, log, files, response).outcome.Done?
    ensures files != [] || response.Some?
    ensures UploadFrom(b, log, files, response).log == log + UploadRequests(b, files)
    decreases |files|
  {
    if files != [] {
      var one := IngestFile(b, log, files[0]);
      var rest := files[1..];
      IngestFileRequests(b, log, files[0]);
      assert UploadFrom(b, log, files, response) == UploadFrom(b, one.log, rest, Some(one.outcome.value));
      UploadSendsEveryFile(b, one.log, rest, Some(one.outcome.value));
      assert UploadRequests(b, files) == FileRequests(b, files[0]) + UploadRequests(b, rest);
    }
  }

  /** A file that fails to be indexed or summarised ends the upload with its error. */
  lemma UploadFromFails(b: Backend, log: seq<Request>, files: seq<UploadFile>, response: Option<string>)
    requires files != [] && IngestFile(b, log, files[0]).outcome.Raised?
    ensures var one := IngestFile(b, log, files[0]);
            UploadFrom(b, log, files, response) == Run(Raised(one.outcome.message), one.log)
  {
  }

  /** After a file is indexed and summarised, the upload goes on with the next file. */
  lemma UploadFromStep(b: Backend, log: seq<Request>, files: seq<UploadFile>, response: Option<string>)
    requires files != [] && IngestFile(b, log, files[0]).outcome.Done?
    ensures var one := IngestFile(b, log, files[0]);
            UploadFrom(b, log, files, response) == UploadFrom(b, one.log, files[1..], Some(one.outcome.value))
  {
  }

  /** Uploading a single file that is indexed and summarised returns the LLM's reply to
      its summary request, the last request sent. */
  lemma UploadOneFile(b: Backend, log: seq<Request>, f: UploadFile, response: Option<string>)
    requires IngestFile(b, log, f).outcome.Done?
    ensures var run := UploadFrom(b, log, [f], response);
            && run.outcome.Done?
            && |run.log| > 0
            && run.log[|run.log| - 1] == Chat(SummaryPrompt(ImportantOf(b, f)))
            && Done(run.outcome.value.summary) == b.chat(run.log[..|run.log| - 1], run.log[|run.log| - 1].prompt)
  {
    var one := IngestFile(b, log, f);
    IngestFileRequests(b, log, f);
    assert [f][1..] == [];
    assert UploadFrom(b, log, [f], response) == Run(Done(UploadReply(AddedMessage, one.outcome.value)), one.log);
    assert one.log[..|one.log| - 1] == log + FileRequests(b, f)[..1];
  }

  /** The summary a successful upload returns is the LLM's reply to the last request it
      sent, the request for the last file's summary. */
  lemma {:induction false} UploadReturnsLastSummary(b: Backend, log: seq<Request>,
                                                    files: seq<UploadFile>, response: Option<string>)
    requires files != []
    requires UploadFrom(b, log, files, response).outcome.Done?
    ensures var run := UploadFrom(b, log, files, response);
            |run.log| > 0
            && run.log[|run.log| - 1] == Chat(SummaryPrompt(ImportantOf(b, files[|files| - 1])))
            && Done(run.outcome.value.summary) == b.chat(run.log[..|run.log| - 1], run.log[|run.log| - 1].prompt)
    decreases |files|
  {
    var one := IngestFile(b, log, files[0]);
    var rest := files[1..];
    assert one.outcome.Done?;
    if rest == [] {
      assert files == [files[0]];
      UploadOneFile(b, log, files[0], response);
    } else {
      UploadFromStep(b, log, files, response);
      UploadReturnsLastSummary(b, one.log, rest, Some(one.outcome.value));
      assert files[|files| - 1] == rest[|rest| - 1];
    }
  }

  /** upload_file fails when it is given no files. A successful upload sent the add and
      summary requests of every file in order, and returns the LLM's reply to the last
      file's summary request. */
  lemma UploadSummarisesLastFile(b: Backend, log: seq<Request>, files: seq<UploadFile>)
    ensures files == [] ==> UploadSpec(b, log, files).outcome == Raised(ResponseUnbound)
    ensures UploadSpec(b, log, files).outcome.Done? ==>
              && files != []
              && UploadSpec(b, log, files).log == log + UploadRequests(b, files)
              && Done(UploadSpec(b, log, files).outcome.value.summary)
                 == b.chat(log + UploadRequests(b, files)[..2 * |files| - 1],
                           SummaryPrompt(ImportantOf(b, files[|files| - 1])))
  {
    var run := UploadSpec(b, log, files);
    if run.outcome.Done? {
      UploadSendsEveryFile(b, log, files, None);
      UploadReturnsLastSummary(b, log, files, None);
      DropLast(log, UploadRequests(b, files));
    }
  }

  /** In a successful upload, file i's chunks were added by request |log| + 2i and its
      summary asked for by the request after. */
  lemma UploadLogPerFile(b: Backend, log: seq<Request>, files: seq<UploadFile>, i: nat)
    requires UploadSpec(b, log, files).outcome.Done?
    requires i < |files|
    ensures |UploadSpec(b, log, files).log| == |log| + 2 * |files|
    ensures UploadSpec(b, log, files).log[|log| + 2 * i]
              == Add(ChunkBatch(files[i].filename, ChunksOf(b, files[i])))
    ensures UploadSpec(b, log, files).log[|log| + 2 * i + 1]
              == Chat(SummaryPrompt(ImportantOf(b, files[i])))
  {
    UploadSendsEveryFile(b, log, files, None);
    UploadRequestsAt(b, files, i);
  }

  /** The conversation list query_rag_model appends to, shared by every query. */
  class History {
    var turns: seq<Turn>

    constructor ()
      ensures turns == []
    {
      turns := [];
    }
  }

  /** A query's response together with the request log and the history after it. */
  datatype QueryRun = QueryRun(response: Call<string>, log: seq<Request>, turns: seq<Turn>)

  /** The classifier's reply, stripped and lower-cased, is exactly "greeting". */
  predicate IsGreeting(category: string) {
    Lower(Strip(category)) == "greeting"
  }

  /** A reply is taken for a greeting exactly when, once surrounding whitespace is
      dropped, it is the word "greeting" in any mix of upper and lower case. */
  lemma GreetingIgnoresCaseAndSpace(category: string)
    ensures IsGreeting(category) <==>
              |Strip(category)| == 8
              && forall k :: 0 <= k < 8 ==> LowerChar(Strip(category)[k]) == "greeting"[k]
  {
    var w := Strip(category);
    if |w| == 8 && forall k :: 0 <= k < 8 ==> LowerChar(w[k]) == "greeting"[k] {
      assert Lower(w) == "greeting";
    }
  }

  function StripReply(reply: Call<string>): Call<string> {
    match reply case Raised(m) => Raised(m) case Done(s) => Done(Strip(s))
  }

  /** query_rag_model(query, history) on a backend whose request log is `log`. */
  function QuerySpec(b: Backend, log: seq<Request>, turns: seq<Turn>, query: string): QueryRun {
    var log1 := log + [Chat(ClassifyPrompt(query))];
    match b.chat(log, ClassifyPrompt(query))
    case Raised(m) => QueryRun(Raised(m), log1, turns)
    case Done(category) =>
      if IsGreeting(category) then
        QueryRun(StripReply(b.chat(log1, GreetingPrompt(query))),
                 log1 + [Chat(GreetingPrompt(query))], turns)
      else
        var log2 := log1 + [Search(query)];
        match b.search(log1, query)
        case Raised(m) => QueryRun(Raised(m), log2, turns)
        case Done(results) =>
          match Flattened(results)
          case Raised(m) => QueryRun(Raised(m), log2, turns)
          case Done(found) =>
            if found.documents == [] then QueryRun(Done(NotFoundMessage), log2, turns)
            else
              var prompt := AnswerPrompt(Concat(Blocks(found.documents, found.sources)), query);
              var log3 := log2 + [Chat(prompt)];
              match b.chat(log2, prompt)
              case Raised(m) => QueryRun(Raised(m), log3, turns)
              case Done(answer) =>
                QueryRun(Done(Strip(answer)), log3, turns + [Turn(query, Strip(answer))])
  }

  /** retrieve_relevant_chunks: query the collection, then flatten the results. */
  method RetrieveRelevantChunks(b: Backend, query: string) returns (r: Call<Retrieved>)
    modifies b
    ensures b.log == old(b.log) + [Search(query)]
    ensures r == match b.search(old(b.log), query)
                 case Raised(m) => Raised(m)
                 case Done(results) => Flattened(results)
  {
    var results := b.CollectionQuery(query);
    if results.Raised? {
      return Raised(results.message);
    }
    r := FlattenResults(results.value);
  }

  /** query_rag_model. */
  method QueryRagModel(b: Backend, query: string, history: History) returns (r: Call<string>)
    modifies b, history
    ensures QueryRun(r, b.log, history.turns) == QuerySpec(b, old(b.log), old(history.turns), query)
  {
    var category := b.QueryLlm(ClassifyPrompt(query));
    if category.Raised? {
      return Raised(category.message);
    }
    if IsGreeting(category.value) {
      var reply := b.QueryLlm(GreetingPrompt(query));
      return StripReply(reply);
    }
    var found := RetrieveRelevantChunks(b, query);
    if found.Raised? {
      return Raised(found.message);
    }
    if found.value.documents == [] {
      return Done(NotFoundMessage);
    }
    var context := AssembleContext(found.value.documents, found.value.sources);
    var historyContext := HistoryContext(history.turns);
    var answer := b.QueryLlm(AnswerPrompt(context, query));
    if answer.Raised? {
      return Raised(answer.message);
    }
    var finalResponse := Strip(answer.value);
    history.turns := history.turns + [Turn(query, finalResponse)];
    r := Done(finalResponse);
  }

  /** A greeting is answered by the LLM alone: no retrieval request is sent and the
      history is left as it was. */
  lemma GreetingSkipsRetrieval(b: Backend, log: seq<Request>, turns: seq<Turn>, query: string)
    requires b.chat(log, ClassifyPrompt(query)).Done?
    requires IsGreeting(b.chat(log, ClassifyPrompt(query)).value)
    ensures var run := QuerySpec(b, log, turns, query);
            run.log == log + [Chat(ClassifyPrompt(query)), Chat(GreetingPrompt(query))]
            && run.turns == turns
            && run.response == StripReply(b.chat(log + [Chat(ClassifyPrompt(query))], GreetingPrompt(query)))
  {
  }

  /** When retrieval finds no chunk, the fixed not-found message is returned, the LLM is
      not asked for an answer and the history is left as it was. */
  lemma NothingFoundKeepsHistory(b: Backend, log: seq<Request>, turns: seq<Turn>, query: string)
    requires b.chat(log, ClassifyPrompt(query)).Done?
    requires !IsGreeting(b.chat(log, ClassifyPrompt(query)).value)
    requires var hits := b.search(log + [Chat(ClassifyPrompt(query))], query);
             hits.Done? && forall i :: 0 <= i < |hits.value.documents| ==> hits.value.documents[i] == []
    ensures var run := QuerySpec(b, log, turns, query);
            run.response == Done(NotFoundMessage)
            && run.log == log + [Chat(ClassifyPrompt(query)), Search(query)]
            && run.turns == turns
  {
    var results := b.search(log + [Chat(ClassifyPrompt(query))], query).value;
    NoChunksFlattenEmpty(results.documents);
  }

  lemma {:induction false} NoChunksFlattenEmpty(groups: seq<seq<string>>)
    requires forall i :: 0 <= i < |groups| ==> groups[i] == []
    ensures Concat(groups) == []
  {
    if groups != [] {
      NoChunksFlattenEmpty(groups[..|groups| - 1]);
    }
  }

  /** A query changes the history only by appending one turn, the query with the
      response returned, and only after retrieval found chunks and the LLM answered. */
  lemma HistoryOnlyGrowsByAnswer(b: Backend, log: seq<Request>, turns: seq<Turn>, query: string)
    ensures var run := QuerySpec(b, log, turns, query);
            run.turns == turns
            || (&& run.response.Done?
                && run.turns == turns + [Turn(query, run.response.value)]
                && |run.log| == |log| + 3
                && run.log[|log| + 1] == Search(query))
  {
  }

  /** The recorded history has no influence on the response or on what is sent to the
      LLM and the vector store: the history text is built but never put into a prompt. */
  lemma ResponseIgnoresHistory(b: Backend, log: seq<Request>, turns1: seq<Turn>,
                               turns2: seq<Turn>, query: string)
    ensures QuerySpec(b, log, turns1, query).response == QuerySpec(b, log, turns2, query).response
    ensures QuerySpec(b, log, turns1, query).log == QuerySpec(b, log, turns2, query).log
  {
  }

  /** On the answer path the prompt carries one source-tagged block per retrieved chunk,
      each tagged with the source entry at its position: its group's metadata entry. */
  lemma AnswerPromptTagsEveryChunk(b: Backend, log: seq<Request>, turns: seq<Turn>, query: string)
    requires var run := QuerySpec(b, log, turns, query); run.turns != turns
    ensures var log1 := log + [Chat(ClassifyPrompt(query))];
            && b.search(log1, query).Done?
            && Flattened(b.search(log1, query).value).Done?
            && var found := Flattened(b.search(log1, query).value).value;
            && |found.sources| == |found.documents| > 0
            && QuerySpec(b, log, turns, query).log[|log| + 2]
               == Chat(AnswerPrompt(Concat(seq(|found.documents|, i requires 0 <= i < |found.documents| =>
                                                 SourceBlock(found.sources[i], found.documents[i]))), query))
  {
    var log1 := log + [Chat(ClassifyPrompt(query))];
    RetrievedContextHasSources(b.search(log1, query).value);
  }

  /** A query that is not a greeting, whose retrieval finds chunks and whose answer
      request succeeds, returns the stripped answer and appends exactly one turn: the
      query with that answer. */
  lemma AnswerAppendsTurn(b: Backend, log: seq<Request>, turns: seq<Turn>, query: string)
    requires b.chat(log, ClassifyPrompt(query)).Done?
    requires !IsGreeting(b.chat(log, ClassifyPrompt(query)).value)
    requires var log1 := log + [Chat(ClassifyPrompt(query))];
             && b.search(log1, query).Done?
             && Flattened(b.search(log1, query).value).Done?
             && Flattened(b.search(log1, query).value).value.documents != []
    requires var log1 := log + [Chat(ClassifyPrompt(query))];
             var found := Flattened(b.search(log1, query).value).value;
             b.chat(log1 + [Search(query)],
                    AnswerPrompt(Concat(Blocks(found.documents, found.sources)), query)).Done?
    ensures var log1 := log + [Chat(ClassifyPrompt(query))];
            var found := Flattened(b.search(log1, query).value).value;
            var prompt := AnswerPrompt(Concat(Blocks(found.documents, found.sources)), query);
            var answer := Strip(b.chat(log1 + [Search(query)], prompt).value);
            var run := QuerySpec(b, log, turns, query);
            && run.response == Done(answer)
            && run.turns == turns + [Turn(query, answer)]
            && run.log == log1 + [Search(query), Chat(prompt)]
  {
  }
}
