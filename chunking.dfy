/** `DataLoader.split_docs`: header-split every page and merge the page's
    metadata into its sections, flatten, re-split into chunks, and link
    every chunk to its neighbours' texts. The two langchain splitters are
    foreign code and appear as the parameters `headerSplit`
    (`MarkdownHeaderTextSplitter.split_text`) and `resplit`
    (`RecursiveCharacterTextSplitter.split_documents`). */
module Chunking {
  import opened Docs

  // ---------------------------------------------------------------------
  // Metadata merge and flatten
  // ---------------------------------------------------------------------

  /** The sections of one page after each section's metadata has become
      `section.metadata | page.metadata`. */
  function MergePage(sections: seq<Doc>, page: Metadata): (r: seq<Doc>)
    ensures |r| == |sections|
    ensures forall i :: 0 <= i < |r| ==> r[i].text == sections[i].text
    ensures forall i :: 0 <= i < |r| ==> CarriesAll(r[i], page)
    ensures forall i, k :: 0 <= i < |r| && k !in page ==> SameEntry(r[i].meta, sections[i].meta, k)
  {
    seq(|sections|, i requires 0 <= i < |sections| => Doc(sections[i].text, Union(sections[i].meta, page)))
  }

  /** The flattened section list: each page's merged sections, in page
      order, then section order; as many sections as the pages split into
      together. */
  function MergeFlatten(pages: seq<Doc>, headerSplit: string -> seq<Doc>): (r: seq<Doc>)
    ensures |r| == SectionCount(pages, headerSplit)
  {
    if pages == [] then []
    else MergePage(headerSplit(pages[0].text), pages[0].meta) + MergeFlatten(pages[1..], headerSplit)
  }

  /** Page order is kept: flattening a concatenated page list gives the
      sections of the first part followed by those of the second. */
  lemma {:induction false} MergeFlattenAppend(a: seq<Doc>, b: seq<Doc>, headerSplit: string -> seq<Doc>)
    ensures MergeFlatten(a + b, headerSplit) == MergeFlatten(a, headerSplit) + MergeFlatten(b, headerSplit)
  {
    if a == [] {
      assert a + b == b;
    } else {
      assert (a + b)[1..] == a[1..] + b;
      MergeFlattenAppend(a[1..], b, headerSplit);
    }
  }

  /** One page flattens to its own merged sections, in the splitter's order. */
  lemma MergeFlattenSingle(page: Doc, headerSplit: string -> seq<Doc>)
    ensures MergeFlatten([page], headerSplit) == MergePage(headerSplit(page.text), page.meta)
  {
  }

  /** Every flattened section carries the complete metadata of some page of
      the input, whatever the header splitter put into it. */
  lemma {:induction false} MergeFlattenCarriesPage(pages: seq<Doc>, headerSplit: string -> seq<Doc>)
    ensures forall d :: d in MergeFlatten(pages, headerSplit) ==>
              exists p :: p in pages && CarriesAll(d, p.meta)
  {
    if pages != [] {
      MergeFlattenCarriesPage(pages[1..], headerSplit);
      var head := MergePage(headerSplit(pages[0].text), pages[0].meta);
      forall d | d in MergeFlatten(pages, headerSplit)
        ensures exists p :: p in pages && CarriesAll(d, p.meta)
      {
        if d in head {
          var i :| 0 <= i < |head| && head[i] == d;
          assert CarriesAll(d, pages[0].meta);
        } else {
          assert d in MergeFlatten(pages[1..], headerSplit);
          var p :| p in pages[1..] && CarriesAll(d, p.meta);
          assert p in pages;
        }
      }
    }
  }

  /** The sum of the pages' section counts. */
  function SectionCount(pages: seq<Doc>, headerSplit: string -> seq<Doc>): nat
  {
    if pages == [] then 0 else |headerSplit(pages[0].text)| + SectionCount(pages[1..], headerSplit)
  }

  /** The inner loop `for i in range(len(md_doc))`, which replaces each
      section's metadata in place by its union with the page's. */
  method MergeInPlace(sections: array<Doc>, page: Metadata)
    modifies sections
    ensures sections[..] == MergePage(old(sections[..]), page)
  {
    for i := 0 to sections.Length
      invariant forall j :: 0 <= j < i ==> sections[j] == Doc(old(sections[j]).text, Union(old(sections[j]).meta, page))
      invariant forall j :: i <= j < sections.Length ==> sections[j] == old(sections[j])
    {
      sections[i] := sections[i].(meta := Union(sections[i].meta, page));
    }
  }

  /** The outer loop over the pages, which header-splits each page, merges
      the page's metadata into its sections and extends `md_docs`. */
  method MergeAndFlatten(docs: seq<Doc>, headerSplit: string -> seq<Doc>) returns (mdDocs: seq<Doc>)
    ensures mdDocs == MergeFlatten(docs, headerSplit)
  {
    mdDocs := [];
    for p := 0 to |docs|
      invariant mdDocs == MergeFlatten(docs[..p], headerSplit)
    {
      var doc := docs[p];
      var split := headerSplit(doc.text);
      var mdDoc := new Doc[|split|](i requires 0 <= i < |split| => split[i]);
      MergeInPlace(mdDoc, doc.meta);
      mdDocs := mdDocs + mdDoc[..];
      assert docs[..p + 1] == docs[..p] + [doc];
      MergeFlattenAppend(docs[..p], [doc], headerSplit);
      MergeFlattenSingle(doc, headerSplit);
    }
    assert docs[..|docs|] == docs;
  }

  // ---------------------------------------------------------------------
  // Context enrichment
  // ---------------------------------------------------------------------

  const PreviousChunk: string := "previous_chunk"
  const NextChunk: string := "next_chunk"

  /** Chunk `i` of `s` once the enrichment loop has visited it: the
      previous chunk's text under `previous_chunk` when `i > 0`, then the
      next chunk's text under `next_chunk` when `i < |s| - 1`. */
  function WithContext(s: seq<Doc>, i: nat): (d: Doc)
    requires i < |s|
    ensures d.text == s[i].text
    ensures i > 0 ==> PreviousChunk in d.meta && d.meta[PreviousChunk] == Str(s[i - 1].text)
    ensures i < |s| - 1 ==> NextChunk in d.meta && d.meta[NextChunk] == Str(s[i + 1].text)
    ensures i == 0 ==> SameEntry(d.meta, s[i].meta, PreviousChunk)
    ensures i == |s| - 1 ==> SameEntry(d.meta, s[i].meta, NextChunk)
    ensures forall k :: k != PreviousChunk && k != NextChunk ==> SameEntry(d.meta, s[i].meta, k)
  {
    assert PreviousChunk[0] != NextChunk[0];
    var withPrevious := if i > 0 then s[i].meta[PreviousChunk := Str(s[i - 1].text)] else s[i].meta;
    var withNext := if i < |s| - 1 then withPrevious[NextChunk := Str(s[i + 1].text)] else withPrevious;
    Doc(s[i].text, withNext)
  }

  /** The enriched chunk list. The same chunks in the same order with the
      same texts; only the two link keys change, each link is the text of
      the neighbouring input chunk, and a chunk without a neighbour on one
      side keeps whatever that side's key held before. */
  function Enrich(s: seq<Doc>): (r: seq<Doc>)
    ensures |r| == |s|
    ensures forall i :: 0 <= i < |s| ==> r[i].text == s[i].text
    ensures forall i :: 0 < i < |s| ==>
              PreviousChunk in r[i].meta && r[i].meta[PreviousChunk] == Str(s[i - 1].text)
    ensures forall i :: 0 <= i < |s| - 1 ==>
              NextChunk in r[i].meta && r[i].meta[NextChunk] == Str(s[i + 1].text)
    ensures |s| > 0 ==> SameEntry(r[0].meta, s[0].meta, PreviousChunk)
    ensures |s| > 0 ==> SameEntry(r[|s| - 1].meta, s[|s| - 1].meta, NextChunk)
    ensures forall i, k :: 0 <= i < |s| && k != PreviousChunk && k != NextChunk ==>
              SameEntry(r[i].meta, s[i].meta, k)
  {
    var r := seq(|s|, i requires 0 <= i < |s| => WithContext(s, i));
    assert forall i :: 0 <= i < |s| ==> r[i] == WithContext(s, i);
    r
  }

  /** The linkage invariant of a chunk list: every chunk after the first
      names its predecessor's text, every chunk before the last names its
      successor's text. */
  predicate Linked(s: seq<Doc>)
  {
    && (forall i :: 0 < i < |s| ==> PreviousChunk in s[i].meta && s[i].meta[PreviousChunk] == Str(s[i - 1].text))
    && (forall i :: 0 <= i < |s| - 1 ==> NextChunk in s[i].meta && s[i].meta[NextChunk] == Str(s[i + 1].text))
  }

  /** Enrichment establishes the linkage invariant, in terms of its own
      output: the links it writes agree with the texts it leaves. */
  lemma EnrichLinked(s: seq<Doc>)
    ensures Linked(Enrich(s))
  {
  }

  /** Writing a key with the value it already holds changes nothing. */
  lemma RewriteSame(m: Metadata, k: string, v: Value)
    requires k in m && m[k] == v
    ensures m[k := v] == m
  {
  }

  /** A linked list of chunks is left as it is by enrichment. */
  lemma EnrichFixesLinked(s: seq<Doc>)
    requires Linked(s)
    ensures Enrich(s) == s
  {
    var r := Enrich(s);
    forall i | 0 <= i < |s| ensures r[i] == s[i] {
      var m := s[i].meta;
      if i > 0 {
        RewriteSame(m, PreviousChunk, Str(s[i - 1].text));
      }
      if i < |s| - 1 {
        RewriteSame(m, NextChunk, Str(s[i + 1].text));
      }
      assert WithContext(s, i) == s[i];
    }
  }

  /** Enriching twice is enriching once: the second pass reads the same
      texts and writes the same links. */
  lemma EnrichIdempotent(s: seq<Doc>)
    ensures Enrich(Enrich(s)) == Enrich(s)
  {
    EnrichLinked(s);
    EnrichFixesLinked(Enrich(s));
  }

  /** A chunk list on which neither link key occurs. */
  predicate Unlinked(s: seq<Doc>)
  {
    forall i :: 0 <= i < |s| ==> PreviousChunk !in s[i].meta && NextChunk !in s[i].meta
  }

  /** Removes both link keys from every chunk. */
  function Strip(s: seq<Doc>): (r: seq<Doc>)
    ensures |r| == |s|
    ensures Unlinked(r)
    ensures forall i :: 0 <= i < |s| ==> r[i].text == s[i].text
    ensures forall i, k :: 0 <= i < |s| && k != PreviousChunk && k != NextChunk ==>
              SameEntry(r[i].meta, s[i].meta, k)
  {
    seq(|s|, i requires 0 <= i < |s| => Doc(s[i].text, s[i].meta - {PreviousChunk, NextChunk}))
  }

  /** Removing the link keys from a dictionary that differs from `m` only
      on them gives `m` back when `m` has neither key. */
  lemma DropLinks(m: Metadata, linked: Metadata)
    requires PreviousChunk !in m && NextChunk !in m
    requires forall k :: k != PreviousChunk && k != NextChunk ==> SameEntry(linked, m, k)
    ensures linked - {PreviousChunk, NextChunk} == m
  {
    var d := linked - {PreviousChunk, NextChunk};
    assert forall k :: k in d <==> k in m by {
      forall k ensures k in d <==> k in m {
        if k != PreviousChunk && k != NextChunk {
          assert SameEntry(linked, m, k);
        }
      }
    }
    assert forall k :: k in d ==> d[k] == m[k] by {
      forall k | k in d ensures d[k] == m[k] {
        assert SameEntry(linked, m, k);
      }
    }
  }

  /** Enrichment adds information and loses none: on chunks that carry no
      link yet, removing the links it wrote gives the input back. */
  lemma StripEnrich(s: seq<Doc>)
    requires Unlinked(s)
    ensures Strip(Enrich(s)) == s
  {
    var e := Enrich(s);
    var r := Strip(e);
    forall i | 0 <= i < |s| ensures r[i] == s[i] {
      DropLinks(s[i].meta, e[i].meta);
    }
  }

  /** Links run across the whole list, not per section or per page: the
      last chunk of a first part is linked to the first chunk of the second. */
  lemma EnrichAcrossParts(a: seq<Doc>, b: seq<Doc>)
    requires a != [] && b != []
    ensures NextChunk in Enrich(a + b)[|a| - 1].meta
    ensures Enrich(a + b)[|a| - 1].meta[NextChunk] == Str(b[0].text)
    ensures PreviousChunk in Enrich(a + b)[|a|].meta
    ensures Enrich(a + b)[|a|].meta[PreviousChunk] == Str(a[|a| - 1].text)
  {
  }

  /** A one-chunk list gets no link at all; an empty list stays empty. */
  lemma EnrichSmall(d: Doc)
    ensures Enrich([]) == []
    ensures Enrich([d]) == [d]
  {
  }

  /** The loop `for i, doc in enumerate(splitted_docs)`: it writes the
      links into each chunk's metadata in place and appends the chunk to
      `enriched_docs`. Each link is read from a neighbour's text, which
      earlier iterations never change, so the result is the pure
      enrichment of the list as it was before the loop. */
  method AddContext(chunks: array<Doc>) returns (enrichedDocs: seq<Doc>)
    modifies chunks
    ensures chunks[..] == Enrich(old(chunks[..]))
    ensures enrichedDocs == chunks[..]
  {
    ghost var s := chunks[..];
    var n := chunks.Length;
    enrichedDocs := [];
    for i := 0 to n
      invariant forall j :: 0 <= j < i ==> chunks[j] == WithContext(s, j)
      invariant forall j :: i <= j < n ==> chunks[j] == s[j]
      invariant enrichedDocs == chunks[..i]
    {
      if i > 0 {
        chunks[i] := chunks[i].(meta := chunks[i].meta[PreviousChunk := Str(chunks[i - 1].text)]);
      }
      if i < n - 1 {
        chunks[i] := chunks[i].(meta := chunks[i].meta[NextChunk := Str(chunks[i + 1].text)]);
      }
      enrichedDocs := enrichedDocs + [chunks[i]];
    }
  }

  /** The re-splitter's output with its links written: the enrichment loop
      run on a fresh copy of the chunk list. */
  method EnrichChunks(splittedDocs: seq<Doc>) returns (enrichedDocs: seq<Doc>)
    ensures enrichedDocs == Enrich(splittedDocs)
  {
    var chunks := new Doc[|splittedDocs|](i requires 0 <= i < |splittedDocs| => splittedDocs[i]);
    enrichedDocs := AddContext(chunks);
  }

  /** `split_docs`: merge and flatten the pages' sections, re-split them
      into chunks and link each chunk to its neighbours. */
  method SplitDocs(docs: seq<Doc>, headerSplit: string -> seq<Doc>, resplit: seq<Doc> -> seq<Doc>)
    returns (enrichedDocs: seq<Doc>)
    ensures enrichedDocs == Enrich(resplit(MergeFlatten(docs, headerSplit)))
    ensures Linked(enrichedDocs)
  {
    var mdDocs := MergeAndFlatten(docs, headerSplit);
    var splittedDocs := resplit(mdDocs);
    enrichedDocs := EnrichChunks(splittedDocs);
    EnrichLinked(splittedDocs);
  }
}
