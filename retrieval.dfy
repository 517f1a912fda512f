/** The bookkeeping around retrieval in the query path: flattening the vector store's
    nested query results into parallel chunk and source lists, tagging each chunk with
    its source in the prompt context, and the window of recent conversation turns. */
module Retrieval {
  import opened Builtins

  /** What the vector store's query hands back: one list of chunks per query group,
      and per group its metadata, kept here as the text it renders to in the prompt. */
  datatype QueryResults = QueryResults(documents: seq<seq<string>>, metadatas: seq<string>)

  /** The two parallel lists retrieve_relevant_chunks returns. */
  datatype Retrieved = Retrieved(documents: seq<string>, sources: seq<string>)

  /** Every group that has chunks has a metadata entry to pair them with. */
  predicate MetadataCovers(groups: seq<seq<string>>, metadatas: seq<string>) {
    forall i :: 0 <= i < |groups| && groups[i] != [] ==> i < |metadatas|
  }

  function Repeat(x: string, n: nat): (r: seq<string>)
    ensures |r| == n && forall k :: 0 <= k < n ==> r[k] == x
  {
    seq(n, _ => x)
  }

  /** The source list: group i's metadata once for each of its chunks. */
  function Tags(groups: seq<seq<string>>, metadatas: seq<string>): (tags: seq<string>)
    requires MetadataCovers(groups, metadatas)
    ensures |tags| == |Concat(groups)|
  {
    if groups == [] then []
    else
      var n := |groups| - 1;
      Tags(groups[..n], metadatas)
      + (if groups[n] == [] then [] else Repeat(metadatas[n], |groups[n]|))
  }

  /** What retrieve_relevant_chunks computes from the query results: the chunks of all
      groups in order, each paired with its group's metadata, or the IndexError raised
      on reaching a non-empty group that has no metadata. */
  function Flattened(results: QueryResults): Call<Retrieved> {
    if MetadataCovers(results.documents, results.metadatas) then
      Done(Retrieved(Concat(results.documents), Tags(results.documents, results.metadatas)))
    else
      Raised(IndexOutOfRange)
  }

  /** The nested loop of retrieve_relevant_chunks, appending chunk by chunk. */
  method FlattenResults(results: QueryResults) returns (r: Call<Retrieved>)
    ensures r == Flattened(results)
  {
    var groups, metadatas := results.documents, results.metadatas;
    var documents: seq<string> := [];
    var sources: seq<string> := [];
    var i := 0;
    while i < |groups|
      invariant 0 <= i <= |groups|
      invariant MetadataCovers(groups[..i], metadatas)
      invariant documents == Concat(groups[..i])
      invariant sources == Tags(groups[..i], metadatas)
    {
      var chunks := groups[i];
      var more := AppendGroup(documents, sources, chunks, metadatas, i);
      if more.Raised? {
        assert !MetadataCovers(groups, metadatas) by { assert groups[i] != []; }
        return Raised(more.message);
      }
      assert groups[..i + 1] == groups[..i] + [chunks];
      CoversSnoc(groups[..i], metadatas, chunks);
      ConcatSnoc(groups[..i], chunks);
      TagsSnoc(groups[..i], metadatas, chunks);
      documents, sources := more.value.documents, more.value.sources;
      i := i + 1;
    }
    assert groups[..i] == groups;
    r := Done(Retrieved(documents, sources));
  }

  /** The inner loop for group i: each of its chunks is appended to the documents and
      the group's metadata to the sources beside it; the metadata lookup raises when a
      group with chunks has no metadata entry. */
  method AppendGroup(documents: seq<string>, sources: seq<string>, chunks: seq<string>,
                     metadatas: seq<string>, i: nat) returns (r: Call<Retrieved>)
    ensures chunks == [] ==> r == Done(Retrieved(documents, sources))
    ensures chunks != [] && i >= |metadatas| ==> r == Raised(IndexOutOfRange)
    ensures chunks != [] && i < |metadatas| ==>
              r == Done(Retrieved(documents + chunks, sources + Repeat(metadatas[i], |chunks|)))
  {
    var docs, srcs := documents, sources;
    var j := 0;
    while j < |chunks|
      invariant 0 <= j <= |chunks|
      invariant j > 0 ==> i < |metadatas|
      invariant docs == documents + chunks[..j]
      invariant srcs == sources + (if j == 0 then [] else Repeat(metadatas[i], j))
    {
      if i >= |metadatas| {
        return Raised(IndexOutOfRange);
      }
      assert chunks[..j + 1] == chunks[..j] + [chunks[j]];
      assert Repeat(metadatas[i], j + 1) == (if j == 0 then [] else Repeat(metadatas[i], j)) + [metadatas[i]];
      docs := docs + [chunks[j]];
      srcs := srcs + [metadatas[i]];
      j := j + 1;
    }
    assert chunks[..j] == chunks;
    r := Done(Retrieved(docs, srcs));
  }

  /** One more group keeps every non-empty group paired with a metadata entry when
      that group is empty or has its own entry. */
  lemma CoversSnoc(groups: seq<seq<string>>, metadatas: seq<string>, chunks: seq<string>)
    requires MetadataCovers(groups, metadatas)
    requires chunks != [] ==> |groups| < |metadatas|
    ensures MetadataCovers(groups + [chunks], metadatas)
  {
    var g := groups + [chunks];
    forall k | 0 <= k < |g| && g[k] != [] ensures k < |metadatas| {
      if k < |groups| {
        assert g[k] == groups[k];
      }
    }
  }

  /** One more group adds its metadata to the sources once per chunk. */
  lemma TagsSnoc(groups: seq<seq<string>>, metadatas: seq<string>, chunks: seq<string>)
    requires MetadataCovers(groups + [chunks], metadatas)
    requires chunks != [] ==> |groups| < |metadatas|
    requires MetadataCovers(groups, metadatas)
    ensures Tags(groups + [chunks], metadatas)
              == Tags(groups, metadatas) + (if chunks == [] then [] else Repeat(metadatas[|groups|], |chunks|))
  {
    var g := groups + [chunks];
    assert g[..|groups|] == groups;
    assert g[|groups|] == chunks;
  }

  /** Where group i starts in the flattened list. */
  function Offset(groups: seq<seq<string>>, i: nat): nat
    requires i <= |groups|
  {
    |Concat(groups[..i])|
  }

  /** Chunk j of group i sits at Offset(groups, i) + j in the flattened list, and the
      source beside it is group i's metadata. */
  lemma {:induction false} FlattenPairs(groups: seq<seq<string>>, metadatas: seq<string>,
                                        i: nat, j: nat)
    requires MetadataCovers(groups, metadatas)
    requires i < |groups| && j < |groups[i]|
    ensures Offset(groups, i) + j < |Concat(groups)|
    ensures Concat(groups)[Offset(groups, i) + j] == groups[i][j]
    ensures Tags(groups, metadatas)[Offset(groups, i) + j] == metadatas[i]
  {
    var n := |groups| - 1;
    assert groups[..n + 1] == groups;
    if i < n {
      var front := groups[..n];
      assert front[..i] == groups[..i];
      FlattenPairs(front, metadatas, i, j);
    } else {
      assert groups[..i] == groups[..n];
    }
  }

  /** The prompt text for one retrieved chunk. */
  function SourceBlock(source: string, chunk: string): string {
    "\n[Source: " + source + "]\n" + chunk + "\n"
  }

  const UnknownSource := "Unknown Source"

  /** One block per chunk, tagged with the source at the same position, or with
      "Unknown Source" past the end of the source list. */
  function Blocks(chunks: seq<string>, sources: seq<string>): seq<string> {
    seq(|chunks|, i requires 0 <= i < |chunks| =>
      SourceBlock(if i < |sources| then sources[i] else UnknownSource, chunks[i]))
  }

  /** The context loop of query_rag_model: `context += block` once per chunk. */
  method AssembleContext(chunks: seq<string>, sources: seq<string>) returns (context: string)
    ensures context == Concat(Blocks(chunks, sources))
  {
    context := "";
    var i := 0;
    while i < |chunks|
      invariant 0 <= i <= |chunks|
      invariant context == Concat(Blocks(chunks[..i], sources))
    {
      var source := if i < |sources| then sources[i] else UnknownSource;
      assert Blocks(chunks[..i + 1], sources) == Blocks(chunks[..i], sources) + [SourceBlock(source, chunks[i])];
      ConcatSnoc(Blocks(chunks[..i], sources), SourceBlock(source, chunks[i]));
      context := context + SourceBlock(source, chunks[i]);
      i := i + 1;
    }
    assert chunks[..i] == chunks;
  }

  /** Retrieval always yields as many sources as chunks, so in the context built from
      it every block carries the source entry at its own position (its group's metadata
      entry) and "Unknown Source" never shows. */
  lemma RetrievedContextHasSources(results: QueryResults)
    requires Flattened(results).Done?
    ensures var r := Flattened(results).value;
            |r.sources| == |r.documents|
            && Blocks(r.documents, r.sources)
               == seq(|r.documents|, i requires 0 <= i < |r.documents| =>
                    SourceBlock(r.sources[i], r.documents[i]))
  {
  }

  /** One conversation turn as query_rag_model records it. */
  datatype Turn = Turn(user: string, model: string)

  /** conversation_history[-2:]: the last two turns, or all when there are fewer. */
  function RecentTurns(turns: seq<Turn>): (w: seq<Turn>)
    ensures |w| == Min(2, |turns|)
    ensures w == turns[|turns| - |w|..]
  {
    SliceFrom(turns, -2)
  }

  /** The history text query_rag_model builds from the recent turns. */
  function HistoryContext(turns: seq<Turn>): string {
    var w := RecentTurns(turns);
    Join("\n", seq(|w|, i requires 0 <= i < |w| => "User: " + w[i].user + "\nModel: " + w[i].model))
  }

  /** The history text is empty for an empty history, is the one turn's text for a
      single turn, and depends only on the last two turns however long the history. */
  lemma HistoryContextWindow(turns: seq<Turn>, older: seq<Turn>)
    ensures turns == [] ==> HistoryContext(turns) == ""
    ensures |turns| == 1 ==>
              HistoryContext(turns) == "User: " + turns[0].user + "\nModel: " + turns[0].model
    ensures |turns| >= 2 ==> HistoryContext(older + turns) == HistoryContext(turns)
  {
    if |turns| >= 2 {
      var all := older + turns;
      assert RecentTurns(all) == all[|all| - 2..] == turns[|turns| - 2..] == RecentTurns(turns);
    }
  }
}
