/** The HTTP routes: the PDF upload with its content-type gate, the query route, and the
    in-memory summary store (a dict from PDF name to summary that keeps insertion order)
    with its two lookups. Exceptions from the services become HTTP 500 replies. */
module Routers {
  import opened Builtins
  import opened Clients
  import opened Services

  /** What a route hands back: a body, or the HTTPException it raises. */
  datatype Reply<+T> = Ok(body: T) | HttpError(status: nat, detail: string)

  /** One item of the get-all-summaries listing. */
  datatype SummaryEntry = SummaryEntry(pdfName: string, summary: string)

  const PdfType := "application/pdf"
  const StoredStatus := "success"
  const SummaryNotFound := "Summary not found"
  const NoSummaries := "No summaries found"

  function InvalidFileType(filename: string): string {
    "Invalid file type: " + filename + " is not a PDF."
  }

  predicate IsPdf(f: UploadFile) { f.contentType == PdfType }

  /** File i is the first that is not declared a PDF. */
  predicate FirstNonPdfAt(files: seq<UploadFile>, i: int) {
    0 <= i < |files| && !IsPdf(files[i]) && forall j :: 0 <= j < i ==> IsPdf(files[j])
  }

  predicate Distinct(names: seq<string>) {
    forall i, j :: 0 <= i < j < |names| ==> names[i] != names[j]
  }

  /** The listing get_all_summaries returns: one entry per name, in the given order. */
  function Listing(names: seq<string>, summaries: map<string, string>): (entries: seq<SummaryEntry>)
    requires forall k :: 0 <= k < |names| ==> names[k] in summaries
    ensures |entries| == |names|
  {
    seq(|names|, i requires 0 <= i < |names| => SummaryEntry(names[i], summaries[names[i]]))
  }

  /** A list without repetitions has as many elements as its set of elements. */
  lemma {:induction false} DistinctCard(names: seq<string>)
    requires Distinct(names)
    ensures |set x | x in names| == |names|
  {
    if names != [] {
      var n := |names| - 1;
      var front := names[..n];
      assert Distinct(front);
      DistinctCard(front);
      assert (set x | x in names) == (set x | x in front) + {names[n]};
      assert names[n] !in (set x | x in front);
    }
  }

  /** When the names are the store's keys, each listed once, the listing holds exactly
      one entry per stored summary, with that summary. */
  lemma ListingCoversStore(names: seq<string>, summaries: map<string, string>)
    requires Distinct(names)
    requires forall k :: k in summaries <==> k in names
    ensures |Listing(names, summaries)| == |summaries|
    ensures forall k :: k in summaries ==>
              exists i :: 0 <= i < |names| && Listing(names, summaries)[i] == SummaryEntry(k, summaries[k])
    ensures forall i, j :: 0 <= i < j < |names| ==>
              Listing(names, summaries)[i].pdfName != Listing(names, summaries)[j].pdfName
  {
    DistinctCard(names);
    assert summaries.Keys == set x | x in names;
    forall k | k in summaries
      ensures exists i :: 0 <= i < |names| && Listing(names, summaries)[i] == SummaryEntry(k, summaries[k])
    {
      var i :| 0 <= i < |names| && names[i] == k;
      assert Listing(names, summaries)[i] == SummaryEntry(k, summaries[k]);
    }
  }

  /** The module-level state of the router: summaries_db, with the order its keys were
      first inserted in, and conversation_history; and the backend the services call. */
  class Router {
    var summaries: map<string, string>
    var names: seq<string>
    const history: History
    const backend: Backend

    /** The dict's keys, in insertion order, each once. */
    ghost predicate Valid()
      reads this
    {
      Distinct(names) && forall k :: k in summaries <==> k in names
    }

    constructor (backend: Backend, history: History)
      ensures Valid()
      ensures summaries == map[] && names == []
      ensures this.backend == backend && this.history == history
    {
      summaries, names := map[], [];
      this.backend, this.history := backend, history;
    }

    /** store_summary: records the summary under the PDF's name, replacing an earlier
        one; a new name goes to the end of the order, an existing one keeps its place. */
    method StoreSummary(pdfName: string, summary: string) returns (status: string)
      requires Valid()
      modifies this
      ensures Valid()
      ensures summaries == old(summaries)[pdfName := summary]
      ensures names == if pdfName in old(summaries) then old(names) else old(names) + [pdfName]
      ensures status == StoredStatus
    {
      if pdfName !in summaries {
        names := names + [pdfName];
      }
      summaries := summaries[pdfName := summary];
      status := StoredStatus;
    }

    /** get_summary: the stored summary, or 404 when there is none or it is empty. */
    method GetSummary(pdfName: string) returns (r: Reply<string>)
      ensures r.Ok? <==> pdfName in summaries && summaries[pdfName] != ""
      ensures r.Ok? ==> r.body == summaries[pdfName]
      ensures r.HttpError? ==> r == HttpError(404, SummaryNotFound)
    {
      var summary: Option<string> := if pdfName in summaries then Some(summaries[pdfName]) else None;
      if summary.Some? && summary.value != "" {
        r := Ok(summary.value);
      } else {
        r := HttpError(404, SummaryNotFound);
      }
    }

    /** get_all_summaries: 404 when the store is empty, otherwise every stored summary
        in insertion order. */
    method GetAllSummaries() returns (r: Reply<seq<SummaryEntry>>)
      requires Valid()
      ensures r.HttpError? <==> summaries == map[]
      ensures r.HttpError? ==> r == HttpError(404, NoSummaries)
      ensures r.Ok? ==> r.body == Listing(names, summaries) && |r.body| == |summaries|
    {
      if summaries == map[] {
        return HttpError(404, NoSummaries);
      }
      ListingCoversStore(names, summaries);
      r := Ok(Listing(names, summaries));
    }

    /** query_rag: query_rag_model on the shared history; any exception becomes a 500
        carrying its message. */
    method QueryRag(query: string) returns (r: Reply<string>)
      modifies backend, history
      ensures var run := QuerySpec(backend, old(backend.log), old(history.turns), query);
              && backend.log == run.log && history.turns == run.turns
              && r == match run.response case Raised(m) => HttpError(500, m) case Done(s) => Ok(s)
    {
      var response := QueryRagModel(backend, query, history);
      if response.Raised? {
        return HttpError(500, response.message);
      }
      r := Ok(response.value);
    }

    /** upload_pdfs: refuses the request with 400 at the first file not declared a PDF,
        before anything is sent; otherwise runs upload_file, turns its exceptions into
        500, and on success stores the returned summary under the last file's name. */
    method UploadPdfs(files: seq<UploadFile>) returns (r: Reply<UploadReply>)
      requires Valid()
      modifies this, backend
      ensures Valid()
      ensures forall i :: FirstNonPdfAt(files, i) ==>
                && r == HttpError(400, InvalidFileType(files[i].filename))
                && backend.log == old(backend.log)
                && summaries == old(summaries) && names == old(names)
      ensures (forall i :: 0 <= i < |files| ==> IsPdf(files[i])) ==>
                var run := UploadSpec(backend, old(backend.log), files);
                && backend.log == run.log
                && match run.outcome
                   case Raised(m) =>
                     r == HttpError(500, m) && summaries == old(summaries) && names == old(names)
                   case Done(reply) =>
                     var last := files[|files| - 1].filename;
                     && files != []
                     && r == Ok(reply)
                     && summaries == old(summaries)[last := reply.summary]
                     && names == if last in old(summaries) then old(names) else old(names) + [last]
    {
      var bad := FindNonPdf(files);
      if bad.Some? {
        assert forall i :: FirstNonPdfAt(files, i) ==> i == bad.value;
        return HttpError(400, InvalidFileType(files[bad.value].filename));
      }
      var response := UploadFiles(backend, files);
      if response.Raised? {
        return HttpError(500, response.message);
      }
      var _ := StoreSummary(files[|files| - 1].filename, response.value.summary);
      r := Ok(response.value);
    }
  }

  /** The content-type loop of upload_pdfs: the first file whose declared type is not
      "application/pdf", if any. */
  method FindNonPdf(files: seq<UploadFile>) returns (bad: Option<nat>)
    ensures bad.None? <==> forall i :: 0 <= i < |files| ==> IsPdf(files[i])
    ensures bad.Some? ==> FirstNonPdfAt(files, bad.value)
  {
    var i := 0;
    while i < |files|
      invariant 0 <= i <= |files|
      invariant forall j :: 0 <= j < i ==> IsPdf(files[j])
    {
      if !IsPdf(files[i]) {
        return Some(i);
      }
      i := i + 1;
    }
    bad := None;
  }
}
