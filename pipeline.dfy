/** `DataLoader.set_db`: the rebuild sequence up to the chunk list handed to
    the vector store. Removing the old index directory and persisting the
    chunks into Chroma are storage and foreign calls and are not modelled;
    the method returns the chunk list `save_to_db` receives. */
module Pipeline {
  import opened Docs
  import opened Download
  import opened PdfLoader
  import opened Chunking

  /** Every flattened section of a rebuild names, under `source`, the local
      path `/tmp/<name>` of a `.pdf` blob of the listing: the page metadata
      wins the merge, so no header label can hide a page's provenance. */
  lemma SectionsComeFromPdfBlobs(blobs: seq<string>, load: string -> seq<Doc>, headerSplit: string -> seq<Doc>)
    ensures forall d :: d in MergeFlatten(LoadAll(PdfPaths(blobs), load), headerSplit) ==>
              SourceKey in d.meta &&
              exists n :: n in blobs && IsPdf(n) && d.meta[SourceKey] == Str(LocalPath(n))
  {
    var pages := LoadAll(PdfPaths(blobs), load);
    LoadedPagesComeFromPdfBlobs(blobs, load);
    MergeFlattenCarriesPage(pages, headerSplit);
    forall d | d in MergeFlatten(pages, headerSplit)
      ensures SourceKey in d.meta
      ensures exists n :: n in blobs && IsPdf(n) && d.meta[SourceKey] == Str(LocalPath(n))
    {
      var p :| p in pages && CarriesAll(d, p.meta);
      var n :| n in blobs && IsPdf(n) && p.meta[SourceKey] == Str(LocalPath(n));
    }
  }

  /** `set_db` from the bucket listing `blobs` to the enriched chunks: load
      and tag the `.pdf` files, split the pages, link the chunks. */
  method SetDb(blobs: seq<string>, load: string -> seq<Doc>,
               headerSplit: string -> seq<Doc>, resplit: seq<Doc> -> seq<Doc>)
    returns (splittedDocs: seq<Doc>)
    ensures splittedDocs == Enrich(resplit(MergeFlatten(LoadAll(PdfPaths(blobs), load), headerSplit)))
    ensures Linked(splittedDocs)
  {
    var docs := LoadFromPdfLoader(blobs, load);
    splittedDocs := SplitDocs(docs, headerSplit, resplit);
  }
}
