/** `DataLoader.load_from_pdf_loader`: every downloaded file is handed to the
    PDF loader, each page it returns has its `source` metadata overwritten
    with the file's path, and the page lists are concatenated in file order.
    The PDF loader (`PyPDFLoader(path).load()`) is foreign code and appears
    as the parameter `load`. */
module PdfLoader {
  import opened Docs
  import opened Download

  const SourceKey: string := "source"

  /** The pages of one file after the tagging loop. */
  function Tag(pages: seq<Doc>, path: string): (r: seq<Doc>)
    ensures |r| == |pages|
    ensures forall i :: 0 <= i < |r| ==> r[i].text == pages[i].text
    ensures forall i :: 0 <= i < |r| ==> SourceKey in r[i].meta && r[i].meta[SourceKey] == Str(path)
    ensures forall i, k :: 0 <= i < |r| && k != SourceKey ==> SameEntry(r[i].meta, pages[i].meta, k)
  {
    seq(|pages|, i requires 0 <= i < |pages| => Doc(pages[i].text, pages[i].meta[SourceKey := Str(path)]))
  }

  /** The pages of all files, tagged, in file order; as many pages as the
      files have together. */
  function LoadAll(paths: seq<string>, load: string -> seq<Doc>): (r: seq<Doc>)
    ensures |r| == PageCount(paths, load)
  {
    if paths == [] then [] else Tag(load(paths[0]), paths[0]) + LoadAll(paths[1..], load)
  }

  /** File order is kept: loading a concatenated file list gives the pages of
      the first part followed by those of the second. */
  lemma {:induction false} LoadAllAppend(a: seq<string>, b: seq<string>, load: string -> seq<Doc>)
    ensures LoadAll(a + b, load) == LoadAll(a, load) + LoadAll(b, load)
  {
    if a == [] {
      assert a + b == b;
    } else {
      assert (a + b)[1..] == a[1..] + b;
      LoadAllAppend(a[1..], b, load);
    }
  }

  /** Every loaded page names one of the loaded files as its source. */
  lemma {:induction false} LoadAllSources(paths: seq<string>, load: string -> seq<Doc>)
    ensures forall d :: d in LoadAll(paths, load) ==>
              SourceKey in d.meta && exists p :: p in paths && d.meta[SourceKey] == Str(p)
  {
    if paths != [] {
      LoadAllSources(paths[1..], load);
      var head := Tag(load(paths[0]), paths[0]);
      forall d | d in LoadAll(paths, load)
        ensures SourceKey in d.meta && exists p :: p in paths && d.meta[SourceKey] == Str(p)
      {
        if d in head {
          var i :| 0 <= i < |head| && head[i] == d;
          assert d.meta[SourceKey] == Str(paths[0]);
        } else {
          assert d in LoadAll(paths[1..], load);
          var p :| p in paths[1..] && d.meta[SourceKey] == Str(p);
          assert p in paths;
        }
      }
    }
  }

  /** The sum of the files' page counts. */
  function PageCount(paths: seq<string>, load: string -> seq<Doc>): nat
  {
    if paths == [] then 0 else |load(paths[0])| + PageCount(paths[1..], load)
  }

  /** The inner loop `for doc in loaded_docs: doc.metadata['source'] = ...`,
      which overwrites each page's `source` in place. */
  method TagSource(pages: array<Doc>, path: string)
    modifies pages
    ensures pages[..] == Tag(old(pages[..]), path)
  {
    for i := 0 to pages.Length
      invariant forall j :: 0 <= j < i ==> pages[j] == Doc(old(pages[j]).text, old(pages[j]).meta[SourceKey := Str(path)])
      invariant forall j :: i <= j < pages.Length ==> pages[j] == old(pages[j])
    {
      pages[i] := pages[i].(meta := pages[i].meta[SourceKey := Str(path)]);
    }
  }

  /** `load_from_pdf_loader`: download the `.pdf` blobs of the listing
      `blobs`, load each file, tag its pages and concatenate them in file
      order. */
  method LoadFromPdfLoader(blobs: seq<string>, load: string -> seq<Doc>) returns (docs: seq<Doc>)
    ensures docs == LoadAll(PdfPaths(blobs), load)
  {
    docs := [];
    var pdfFiles := DownloadPdfsFromBucket(blobs);
    for f := 0 to |pdfFiles|
      invariant docs == LoadAll(pdfFiles[..f], load)
    {
      var pdfFile := pdfFiles[f];
      var loadedDocs := load(pdfFile);
      var pages := new Doc[|loadedDocs|](i requires 0 <= i < |loadedDocs| => loadedDocs[i]);
      TagSource(pages, pdfFile);
      docs := docs + pages[..];
      assert pdfFiles[..f + 1] == pdfFiles[..f] + [pdfFile];
      LoadAllAppend(pdfFiles[..f], [pdfFile], load);
      assert LoadAll([pdfFile], load) == Tag(loadedDocs, pdfFile) + LoadAll([], load);
    }
    assert pdfFiles[..|pdfFiles|] == pdfFiles;
  }

  /** Provenance through the download step: every loaded page's `source` is
      `/tmp/<name>` for a `.pdf` blob `name` of the listing. */
  lemma LoadedPagesComeFromPdfBlobs(blobs: seq<string>, load: string -> seq<Doc>)
    ensures forall d :: d in LoadAll(PdfPaths(blobs), load) ==>
              SourceKey in d.meta &&
              exists n :: n in blobs && IsPdf(n) && d.meta[SourceKey] == Str(LocalPath(n))
  {
    var paths := PdfPaths(blobs);
    LoadAllSources(paths, load);
    forall d | d in LoadAll(paths, load)
      ensures SourceKey in d.meta
      ensures exists n :: n in blobs && IsPdf(n) && d.meta[SourceKey] == Str(LocalPath(n))
    {
      var p :| p in paths && d.meta[SourceKey] == Str(p);
      PdfPathsMembership(blobs, p);
    }
  }
}
