# Ingestion pipeline of the help-desk index, in Dafny

This project models the document-ingestion half of `DataLoader` (`load_db.py`).
That half turns a bucket of PDF files into the chunk list that is stored in the
Chroma vector index:

1. **Download filter** (`download_pdfs_from_bucket`). It keeps the blob names of
   the bucket listing that end in `.pdf`, in listing order. Each kept name maps
   to the local path `/tmp/<name>`.
2. **Source tagging** (`load_from_pdf_loader`). The PDF loader turns each local
   file into pages. Each page's `source` metadata is overwritten in place with
   the file's path. The page lists are concatenated in file order.
3. **Metadata merge and flatten** (`split_docs`, first loop). Each page is
   split at its markdown headers into sections. Each section's metadata becomes
   the dict union `section.metadata | page.metadata`, in which the page wins
   on a clash. The sections are concatenated in page order, then section order.
4. **Re-splitting** (`split_docs`, `split_documents`). The sections become
   fixed-size chunks.
5. **Context enrichment** (`split_docs`, last loop). One pass over the global
   chunk list. Chunk `i` gets `previous_chunk` set to the text of chunk `i-1`
   when `i > 0`. It gets `next_chunk` set to the text of chunk `i+1` when
   `i < N-1`. Each chunk's metadata is updated in place, and the same chunks
   are returned in the same order.

Documents are the datatype `Docs.Doc(text, meta)`. The metadata is a
`map<string, Value>`, and a value is a string or an integer (the PDF loader
stores the page number as an integer).

Each loop that updates documents in place is a method over an `array<Doc>`:
`PdfLoader.TagSource`, `Chunking.MergeInPlace` and `Chunking.AddContext`. Each
one is proved equal to a pure function of the array's old contents (`Tag`,
`MergePage`, `Enrich`). Each loop that accumulates a list is a method returning
a sequence, proved equal to a recursive specification function (`PdfPaths`,
`LoadAll`, `MergeFlatten`). The properties are lemmas and `ensures` clauses on
those specification functions.

Foreign collaborators are function-typed parameters. No property of their
results is assumed, but the model treats them as total and their results as
values (see "## Left out"):
- `load: string -> seq<Doc>` stands for `PyPDFLoader(path).load()`.
- `headerSplit: string -> seq<Doc>` stands for `MarkdownHeaderTextSplitter.split_text`.
- `resplit: seq<Doc> -> seq<Doc>` stands for `RecursiveCharacterTextSplitter.split_documents`.

The bucket listing is the parameter `blobs: seq<string>`, the blob names in
listing order.

Files: `docs.dfy` (module `Docs`), `download.dfy` (`Download`),
`pdf_loader.dfy` (`PdfLoader`), `chunking.dfy` (`Chunking`) and
`pipeline.dfy` (`Pipeline`).

## Model

| member | source | states |
|---|---|---|
| `Docs.Union` | load_db.py:65 | dict union: the keys of both operands; the right (page) operand's value for its own keys, the left (section) operand's value for keys only it has |
| `Download.EndsWithSplit` | load_db.py:32 | `EndsWith(s, suffix)`, the model of `str.endswith`, holds exactly when `s` is some prefix followed by `suffix` |
| `Download.IsPdfCases` | load_db.py:32 | the `.pdf` test is exact and case-sensitive: `report.pdf` and `.pdf` pass; `report.PDF`, `pdf` and `report.pdf.txt` do not |
| `Download.LocalPath` | load_db.py:33 | the local path is `/tmp/` followed by the blob name, which can be read back from the path |
| `Download.LocalPathInjective` | load_db.py:33 | two different blob names never share a local path |
| `Download.PdfPaths` | load_db.py:30-36 | defines the kept paths: the `.pdf` names of the listing, in listing order, each mapped to `/tmp/<name>`; its contract gives one path per occurrence of a `.pdf` name (content and order are stated by `PdfPathsMembership`, `PdfPathsAppend` and `PdfPathsSingle`) |
| `Download.PdfPathsAppend` | load_db.py:30-36 | listing order is kept: the paths of a concatenated listing are the paths of the first part followed by those of the second |
| `Download.PdfPathsSingle` | load_db.py:32-35 | a single blob yields `/tmp/<name>` exactly when its name ends in `.pdf`, and nothing otherwise |
| `Download.PdfPathsMembership` | load_db.py:31-35 | a path is produced if and only if it is `/tmp/<n>` for some listed name `n` ending in `.pdf` |
| `Download.DownloadPdfsFromBucket` | load_db.py:24-36 | the filtering loop returns exactly `PdfPaths` of the listing |
| `PdfLoader.Tag` | load_db.py:45-46 | tagging keeps the number of pages and each page's text; every page's `source` becomes the file path; every other metadata entry is unchanged |
| `PdfLoader.LoadAll` | load_db.py:42-47 | defines the loaded pages: each file's tagged pages, concatenated in file order; its contract gives the sum of the files' page counts as its length (order and provenance are stated by `LoadAllAppend` and `LoadAllSources`) |
| `PdfLoader.LoadAllAppend` | load_db.py:42-47 | file order is kept: the pages of a concatenated file list are the first part's pages followed by the second's |
| `PdfLoader.LoadAllSources` | load_db.py:42-47 | every loaded page has a `source` naming one of the loaded files |
| `PdfLoader.TagSource` | load_db.py:45-46 | the in-place tagging loop leaves the array equal to `Tag` of its old contents |
| `PdfLoader.LoadFromPdfLoader` | load_db.py:38-48 | downloading, loading and tagging give `LoadAll` of the `.pdf` paths of the listing |
| `PdfLoader.LoadedPagesComeFromPdfBlobs` | load_db.py:31-47 | every loaded page's `source` is `/tmp/<n>` for a `.pdf` blob `n` of the listing |
| `Chunking.MergePage` | load_db.py:64-65 | merging keeps the number of sections and each text; each merged section carries every page entry with the page's value, and every key the page lacks keeps the section's entry |
| `Chunking.MergeFlatten` | load_db.py:61-66 | defines the flattened sections: each page's merged header sections, in page order and then section order; its contract gives the sum of the pages' section counts as its length (order and metadata are stated by `MergeFlattenAppend`, `MergeFlattenSingle` and `MergeFlattenCarriesPage`) |
| `Chunking.MergeFlattenAppend` | load_db.py:61-66 | page order is kept: flattening a concatenated page list gives the first part's sections followed by the second's |
| `Chunking.MergeFlattenSingle` | load_db.py:62-66 | one page flattens to exactly its own merged sections, in the header splitter's order |
| `Chunking.MergeFlattenCarriesPage` | load_db.py:61-66 | every flattened section carries the complete metadata of a page of the input |
| `Chunking.MergeInPlace` | load_db.py:64-65 | the in-place merge loop leaves the array equal to `MergePage` of its old contents |
| `Chunking.MergeAndFlatten` | load_db.py:61-66 | the page loop returns exactly `MergeFlatten` of the pages |
| `Chunking.WithContext` | load_db.py:80-83 | one visited chunk: its text is unchanged; it links to the previous text when `i > 0` and to the next text when `i < N-1`; on a missing side the key is left as it was; all other keys are unchanged |
| `Chunking.Enrich` | load_db.py:77-86 | same length and texts; for `0 < i < N`, `previous_chunk` is the text of input chunk `i-1`; for `0 <= i < N-1`, `next_chunk` is the text of input chunk `i+1`; chunk 0's `previous_chunk` and chunk `N-1`'s `next_chunk` are untouched; every other key is unchanged |
| `Chunking.EnrichLinked` | load_db.py:79-84 | the enriched list satisfies the linkage invariant: each link equals the text of its neighbour in the output list |
| `Chunking.EnrichFixesLinked` | load_db.py:79-84 | a list that already satisfies the linkage invariant is left unchanged by enrichment |
| `Chunking.EnrichIdempotent` | load_db.py:79-84 | enriching twice gives the same list as enriching once |
| `Chunking.StripEnrich` | load_db.py:79-84 | on chunks without link keys, removing the two link keys after enrichment gives back the input (enrichment loses nothing) |
| `Chunking.EnrichAcrossParts` | load_db.py:75-86 | links are not reset at section or page boundaries: the last chunk of one part links to the first chunk of the next part, and back |
| `Chunking.EnrichSmall` | load_db.py:79-84 | an empty list stays empty; a one-chunk list gets no link at all |
| `Chunking.AddContext` | load_db.py:78-85 | the in-place loop leaves the array equal to `Enrich` of its old contents and returns the same chunks; links come from texts, which no iteration changes |
| `Chunking.EnrichChunks` | load_db.py:77-86 | the enrichment pass over the re-splitter's output returns exactly `Enrich` of it |
| `Chunking.SplitDocs` | load_db.py:50-86 | `split_docs` returns `Enrich(resplit(MergeFlatten(pages)))`, and the result satisfies the linkage invariant |
| `Pipeline.SectionsComeFromPdfBlobs` | load_db.py:41-66 | every flattened section keeps, under `source`, the path `/tmp/<n>` of a `.pdf` blob `n` of the listing; header metadata cannot override it |
| `Pipeline.SetDb` | load_db.py:102-117 | the chunks handed to the store are the enriched re-split sections of the tagged pages of the `.pdf` blobs, and they satisfy the linkage invariant |

## Left out

- Bucket listing, blob download, credentials and bucket name (load_db.py:26-28, 34): network I/O. The listing is the parameter `blobs`. Writing each file to `/tmp` is not modelled, and neither is a download failure (for example, a name whose directory does not exist under `/tmp`).
- PDF text extraction (load_db.py:43-44): foreign code, modelled as the parameter `load`, with nothing assumed about it.
- Header splitting and fixed-size re-splitting (load_db.py:52-58, 69-75): foreign library code, modelled as the parameters `headerSplit` and `resplit`. The header list, `chunk_size=512`, `chunk_overlap=20` and the separators configure that code and appear nowhere in the model. No coverage, size-bound or overlap property is stated about them.
- `save_to_db`, `load_from_db` and `get_db` (load_db.py:88-100, 119-122): Chroma persistence and embeddings are foreign storage calls. `Pipeline.SetDb` returns the chunk list that `save_to_db` would receive. Index contents are not modelled.
- The `shutil.rmtree` step of `set_db`, with its logged and ignored failure (load_db.py:104-107): filesystem plumbing. It does not affect the model: the chunk list does not depend on any earlier index.
- `DataLoader.__init__` (load_db.py:12-22): its fields only reach the I/O calls above. `directories` is never read.
- Object identity: documents are values, so each in-place metadata write is an array element update. This does not capture aliasing between document objects or between their metadata dicts. The merge builds a fresh dict with `|` (load_db.py:65), so the sections it produces share nothing.
- `Chunking.AddContext`, `Chunking.SplitDocs` and `Pipeline.SetDb` assume that every chunk returned by `resplit` owns its metadata dict, and likewise every page returned by `load` for `PdfLoader.TagSource`. Whether the dicts are shared is decided by foreign library code outside this repository. If the chunks of a section shared one dict, the enrichment loop (load_db.py:79-84) would overwrite earlier links, and every chunk sharing that dict would show the last links written.
- Exceptions from the foreign calls: `load`, `headerSplit` and `resplit` are total functions in the model. In the source, an exception from `PyPDFLoader.load()` or from either splitter ends `set_db` after `shutil.rmtree` has already removed the index (load_db.py:104-113). That failure path is not modelled.
- Key order of metadata dicts: the model uses maps, so Python's insertion order is not represented.
- `your_streamlit_app.py` and `main.py`: user interface, secret lookup and demo code, which are not part of this model.
