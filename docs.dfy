/** The record every stage of the ingestion pipeline passes along: a page,
    a header section or a chunk is a text plus a flat metadata dictionary
    (langchain's `Document(page_content, metadata)`). */
module Docs {

  /** A metadata value. The PDF loader stores the page number as an
      integer; every key this pipeline writes holds a string. */
  datatype Value = Str(s: string) | Int(i: int)

  /** A metadata dictionary (a Python `dict` keyed by strings). */
  type Metadata = map<string, Value>

  datatype Doc = Doc(text: string, meta: Metadata)

  /** Python's dict union `left | right`: every key of either operand, the
      right operand's value winning when both have the key. */
  function Union(left: Metadata, right: Metadata): (r: Metadata)
    ensures r.Keys == left.Keys + right.Keys
    ensures forall k :: k in right ==> r[k] == right[k]
    ensures forall k :: k in left && k !in right ==> r[k] == left[k]
  {
    left + right
  }

  /** `m` and `m'` agree on key `k`: both lack it, or both map it to the same value. */
  predicate SameEntry(m: Metadata, m': Metadata, k: string)
  {
    (k in m <==> k in m') && (k in m ==> m[k] == m'[k])
  }

  /** `d` carries every entry of `page`, with the page's value. */
  predicate CarriesAll(d: Doc, page: Metadata)
  {
    forall k :: k in page ==> k in d.meta && d.meta[k] == page[k]
  }
}
