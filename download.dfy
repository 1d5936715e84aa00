/** `DataLoader.download_pdfs_from_bucket`: which blobs of the bucket listing
    are fetched, and the local path each one is written to. Listing the
    bucket and the download itself are I/O: the listing is a parameter and
    the download is not modelled. */
module Download {

  const PdfSuffix: string := ".pdf"
  const TmpDir: string := "/tmp/"

  /** Python's `s.endswith(suffix)` (case-sensitive). */
  predicate EndsWith(s: string, suffix: string)
  {
    |suffix| <= |s| && s[|s| - |suffix|..] == suffix
  }

  /** The suffix test holds exactly when `s` is some prefix followed by `suffix`. */
  lemma EndsWithSplit(s: string, suffix: string)
    ensures EndsWith(s, suffix) <==> exists prefix :: s == prefix + suffix
  {
    if EndsWith(s, suffix) {
      assert s == s[..|s| - |suffix|] + suffix;
    }
    forall prefix | s == prefix + suffix
      ensures EndsWith(s, suffix)
    {
      assert s[|prefix|..] == suffix;
    }
  }

  /** The test `blob.name.endswith('.pdf')`. */
  predicate IsPdf(name: string)
  {
    EndsWith(name, PdfSuffix)
  }

  /** The suffix test is exact and case-sensitive: an upper-case extension,
      a bare extension-like name or a later extension do not pass. */
  lemma IsPdfCases()
    ensures IsPdf("report.pdf") && IsPdf(".pdf")
    ensures !IsPdf("report.PDF") && !IsPdf("pdf") && !IsPdf("report.pdf.txt")
  {
    assert "report.pdf" == "report" + PdfSuffix;
    assert ".pdf" == [] + PdfSuffix;
  }

  /** The f-string `f'/tmp/{name}'`. */
  function LocalPath(name: string): (p: string)
    ensures |p| == |TmpDir| + |name|
    ensures p[..|TmpDir|] == TmpDir && p[|TmpDir|..] == name
  {
    TmpDir + name
  }

  /** Two blob names share a local path only when they are the same name. */
  lemma LocalPathInjective(a: string, b: string)
    requires LocalPath(a) == LocalPath(b)
    ensures a == b
  {
  }

  /** The local paths of the `.pdf` blobs of a listing, in listing order:
      one path per occurrence of a `.pdf` name. */
  function PdfPaths(names: seq<string>): (r: seq<string>)
    ensures |r| == PdfCount(names)
  {
    if names == [] then []
    else (if IsPdf(names[0]) then [LocalPath(names[0])] else []) + PdfPaths(names[1..])
  }

  /** Listing order is kept: the paths of a concatenated listing are the
      paths of its first part followed by those of its second. */
  lemma {:induction false} PdfPathsAppend(a: seq<string>, b: seq<string>)
    ensures PdfPaths(a + b) == PdfPaths(a) + PdfPaths(b)
  {
    if a == [] {
      assert a + b == b;
    } else {
      assert (a + b)[1..] == a[1..] + b;
      PdfPathsAppend(a[1..], b);
    }
  }

  /** A one-blob listing yields its path exactly when the name ends in `.pdf`. */
  lemma PdfPathsSingle(name: string)
    ensures PdfPaths([name]) == if IsPdf(name) then [LocalPath(name)] else []
  {
  }

  /** A path is produced exactly when it is `/tmp/` followed by the name of a
      `.pdf` blob of the listing. */
  lemma {:induction false} PdfPathsMembership(names: seq<string>, p: string)
    ensures p in PdfPaths(names) <==> exists n :: n in names && IsPdf(n) && p == LocalPath(n)
  {
    if names != [] {
      PdfPathsMembership(names[1..], p);
      assert forall n :: n in names <==> n == names[0] || n in names[1..];
    }
  }

  /** The number of occurrences of `.pdf` names in a listing. */
  function PdfCount(names: seq<string>): nat
  {
    if names == [] then 0 else (if IsPdf(names[0]) then 1 else 0) + PdfCount(names[1..])
  }

  /** The loop of `download_pdfs_from_bucket` over the bucket listing
      `blobs`: it keeps the names ending in `.pdf` and collects
      `/tmp/<name>` for each, in listing order. */
  method DownloadPdfsFromBucket(blobs: seq<string>) returns (localPaths: seq<string>)
    ensures localPaths == PdfPaths(blobs)
  {
    localPaths := [];
    for i := 0 to |blobs|
      invariant localPaths == PdfPaths(blobs[..i])
    {
      if IsPdf(blobs[i]) {
        localPaths := localPaths + [LocalPath(blobs[i])];
      }
      assert blobs[..i + 1] == blobs[..i] + [blobs[i]];
      PdfPathsAppend(blobs[..i], [blobs[i]]);
      PdfPathsSingle(blobs[i]);
    }
    assert blobs[..|blobs|] == blobs;
  }
}
