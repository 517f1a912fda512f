/** The libraries and remote services the backend calls, as oracles.

    PDF text extraction, the text splitter, TF-IDF scoring and numpy's argsort are
    deterministic library calls: functions of their input. The hosted LLM and the
    vector store (with the embedding model in front of it) are remote and stateful:
    each answer may depend on everything sent to them before, so they receive the log
    of earlier requests, and every request is appended to that log. */
module Clients {
  import opened Builtins
  import opened Ranking
  import opened Retrieval

  /** An uploaded file as FastAPI hands it over. */
  datatype UploadFile = UploadFile(filename: string, contentType: string, content: seq<bv8>)

  /** The metadata stored with each chunk. */
  datatype ChunkMeta = ChunkMeta(source: string, chunkIndex: nat)

  /** One collection.add call: ids, chunk texts and metadata, position by position. */
  datatype Batch = Batch(ids: seq<string>, documents: seq<string>, metadatas: seq<ChunkMeta>)

  /** A request sent to a remote service: an LLM chat completion, a collection.add
      (after embedding the chunks) or a collection.query (after embedding the query). */
  datatype Request = Chat(prompt: string) | Add(batch: Batch) | Search(query: string)

  class Backend {
    const extractText: UploadFile -> Call<string>
    const splitText: string -> Call<seq<string>>
    const tfidfScores: seq<string> -> Call<seq<real>>
    const argsort: seq<real> -> seq<int>
    const chat: (seq<Request>, string) -> Call<string>
    const add: (seq<Request>, Batch) -> Call<()>
    const search: (seq<Request>, string) -> Call<QueryResults>

    /** Every request sent to the LLM and the vector store so far, in order. */
    var log: seq<Request>

    /** What the libraries guarantee: one TF-IDF score per sentence, and an argsort
        that is a permutation listing the scores in ascending order. */
    ghost predicate Valid() {
      && (forall ss :: tfidfScores(ss).Done? ==> |tfidfScores(ss).value| == |ss|)
      && (forall xs :: IsArgSort(xs, argsort(xs)))
    }

    constructor (extractText: UploadFile -> Call<string>, splitText: string -> Call<seq<string>>,
                 tfidfScores: seq<string> -> Call<seq<real>>, argsort: seq<real> -> seq<int>,
                 chat: (seq<Request>, string) -> Call<string>,
                 add: (seq<Request>, Batch) -> Call<()>,
                 search: (seq<Request>, string) -> Call<QueryResults>)
      ensures this.extractText == extractText && this.splitText == splitText
      ensures this.tfidfScores == tfidfScores && this.argsort == argsort
      ensures this.chat == chat && this.add == add && this.search == search
      ensures log == []
    {
      this.extractText, this.splitText := extractText, splitText;
      this.tfidfScores, this.argsort := tfidfScores, argsort;
      this.chat, this.add, this.search := chat, add, search;
      log := [];
    }

    /** queryLlm(prompt).content */
    method QueryLlm(prompt: string) returns (r: Call<string>)
      modifies this
      ensures log == old(log) + [Chat(prompt)]
      ensures r == chat(old(log), prompt)
    {
      r := chat(log, prompt);
      log := log + [Chat(prompt)];
    }

    /** embed_documents followed by collection.add */
    method CollectionAdd(batch: Batch) returns (r: Call<()>)
      modifies this
      ensures log == old(log) + [Add(batch)]
      ensures r == add(old(log), batch)
    {
      r := add(log, batch);
      log := log + [Add(batch)];
    }

    /** embed_query followed by collection.query(…, n_results=5) */
    method CollectionQuery(query: string) returns (r: Call<QueryResults>)
      modifies this
      ensures log == old(log) + [Search(query)]
      ensures r == search(old(log), query)
    {
      r := search(log, query);
      log := log + [Search(query)];
    }
  }
}
