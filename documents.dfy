/** The document endpoints over the chunk collection: source parsing, the
    upload check and the ingestion loops, the document listing and deletion.
    The collection is the sequence of its records; embedding, extraction and
    chunking are inputs. */
module Documents {
  import opened Types
  import opened Text
  import opened Seqs

  // ---------------------------------------------------------------- sources

  /** A `SourceInfo`. */
  datatype SourceInfo = SourceInfo(vendor: string, document: string, page: string, chunk: Option<int>)

  function VendorName(m: Metadata): string { m.vendor.GetOr("Unknown") }
  function DocumentName(m: Metadata): string { m.document.GetOr("Unknown") }

  function ToSource(m: Metadata): SourceInfo {
    SourceInfo(VendorName(m), DocumentName(m), m.page.GetOr("n/a"), m.chunk)
  }

  /** `_parse_sources`: one source per metadata, in order, with the defaults
      "Unknown", "Unknown" and "n/a" for a missing vendor, document and page. */
  function ParseSources(metas: seq<Metadata>): (r: seq<SourceInfo>)
    ensures |r| == |metas|
    ensures forall i :: 0 <= i < |metas| ==>
      && r[i].vendor == (if metas[i].vendor.Some? then metas[i].vendor.value else "Unknown")
      && r[i].document == (if metas[i].document.Some? then metas[i].document.value else "Unknown")
      && r[i].page == (if metas[i].page.Some? then metas[i].page.value else "n/a")
      && r[i].chunk == metas[i].chunk
  {
    seq(|metas|, i requires 0 <= i < |metas| => ToSource(metas[i]))
  }

  /** Parsing distributes over concatenation, so sources gathered batch by
      batch with `extend` are the sources of all the batches' metadata. */
  lemma ParseSourcesAppend(a: seq<Metadata>, b: seq<Metadata>)
    ensures ParseSources(a + b) == ParseSources(a) + ParseSources(b)
  {
    var l, r := ParseSources(a + b), ParseSources(a) + ParseSources(b);
    forall i | 0 <= i < |l| ensures l[i] == r[i] {
      if i < |a| { assert (a + b)[i] == a[i]; } else { assert (a + b)[i] == b[i - |a|]; }
    }
  }

  // ---------------------------------------------------------------- upload

  /** The index of the last `c` in `s`, or -1: `str.rfind`. */
  function LastIndex(s: string, c: char): (i: int)
    ensures -1 <= i < |s|
    ensures i >= 0 ==> s[i] == c && forall j :: i < j < |s| ==> s[j] != c
    ensures i == -1 ==> c !in s
  {
    if s == [] then -1 else if s[|s| - 1] == c then |s| - 1 else LastIndex(s[..|s| - 1], c)
  }

  function StripTrailingSlashes(s: string): (r: string)
    ensures |r| <= |s| && r == s[..|r|]
    ensures r == [] || r[|r| - 1] != '/'
  {
    if s != [] && s[|s| - 1] == '/' then StripTrailingSlashes(s[..|s| - 1]) else s
  }

  /** `Path(filename).name`: the final component. */
  function FileName(path: string): (name: string)
    ensures '/' !in name
  {
    var p := StripTrailingSlashes(path);
    p[LastIndex(p, '/') + 1..]
  }

  /** `PurePath.suffix` of a final component: from its last dot, provided the
      dot is neither the first nor the last character. */
  function Suffix(name: string): string {
    var i := LastIndex(name, '.');
    if 0 < i < |name| - 1 then name[i..] else []
  }

  /** A non-empty suffix is a proper tail of the name that starts with its
      only dot and has at least one more character; and a name with such a
      tail has that tail as its suffix. */
  lemma SuffixSpec(name: string, i: nat)
    ensures var x := Suffix(name);
      x != [] ==>
        && 2 <= |x| < |name|
        && x == name[|name| - |x|..]
        && x[0] == '.'
        && '.' !in x[1..]
    ensures 0 < i < |name| - 1 && name[i] == '.' && '.' !in name[i + 1..] ==> Suffix(name) == name[i..]
  {
    var k := LastIndex(name, '.');
    var x := Suffix(name);
    if x != [] {
      forall c | c in x[1..] ensures c != '.' {
        var j :| 0 <= j < |x[1..]| && x[1..][j] == c;
        assert c == name[k + 1 + j];
      }
    }
    if 0 < i < |name| - 1 && name[i] == '.' && '.' !in name[i + 1..] {
      forall j | i < j < |name| ensures name[j] != '.' {
        assert name[i + 1..][j - i - 1] == name[j];
      }
    }
  }

  const SupportedExtensions: seq<string> := [".pdf", ".html", ".htm"]

  /** An accepted upload: the file name used and its lowercased extension. */
  datatype UploadTarget = UploadTarget(filename: string, ext: string)

  const UnsupportedFile := HttpError(400, "Only PDF and HTML files are supported.")

  /** The check at the top of `upload_document`: `file.filename or "unknown"`,
      then the lowercased suffix must be one of the supported extensions. */
  function CheckUpload(filename: Option<string>): (r: Result<UploadTarget>)
    ensures var name := if Truthy(filename) then filename.value else "unknown";
      && (r.Ok? <==> Lower(Suffix(FileName(name))) in SupportedExtensions)
      && (r.Ok? ==> r.value.filename == name && r.value.ext == Lower(Suffix(FileName(name))))
      && (r.Err? ==> r.error == UnsupportedFile)
  {
    var name := if Truthy(filename) then filename.value else "unknown";
    var ext := Lower(Suffix(FileName(name)));
    if ext in SupportedExtensions then Ok(UploadTarget(name, ext)) else Err(UnsupportedFile)
  }

  /** A path without a slash is its own final component. */
  lemma FileNamePlain(s: string)
    requires '/' !in s
    ensures FileName(s) == s
  {
    if s != [] { assert s[|s| - 1] in s; }
  }

  /** A dot file such as ".pdf" (one leading dot and no other) has no
      suffix, so it is rejected. */
  lemma UploadRejectsDotFile(name: string)
    requires name != [] && name[0] == '.'
    requires '/' !in name && '.' !in name[1..]
    ensures CheckUpload(Some(name)) == Err(UnsupportedFile)
  {
    FileNamePlain(name);
    forall j | 0 < j < |name| ensures name[j] != '.' {
      assert name[1..][j - 1] == name[j];
    }
    var k := LastIndex(name, '.');
    assert name[0] in name;
    assert k >= 0;
    assert name[k] == '.';
    assert k == 0;
    assert Suffix(name) == [];
    assert Lower(Suffix(FileName(name))) == [];
    assert [] !in SupportedExtensions;
  }

  /** One page of a PDF as `extract_pdf_text` gives it, already split by `chunk_text`. */
  datatype PdfPage = PdfPage(pageNum: nat, chunks: seq<string>)

  function PdfChunkId(vendor: string, filename: string, pageNum: nat, idx: nat): string {
    vendor + "_" + filename + "_p" + NatToString(pageNum) + "_c" + NatToString(idx)
  }

  function HtmlChunkId(vendor: string, filename: string, idx: nat): string {
    vendor + "_" + filename + "_c" + NatToString(idx)
  }

  /** The chunks one PDF page adds, with their ids and metadata. */
  function PageChunks(vendor: string, filename: string, page: PdfPage): (r: seq<Chunk>)
    ensures |r| == |page.chunks|
  {
    seq(|page.chunks|, i requires 0 <= i < |page.chunks| =>
      Chunk(PdfChunkId(vendor, filename, page.pageNum, i), page.chunks[i],
            Metadata(Some(vendor), Some(filename), Some(NatToString(page.pageNum)), Some(i))))
  }

  function PdfChunks(vendor: string, filename: string, pages: seq<PdfPage>): seq<Chunk> {
    if pages == [] then []
    else
      var n := |pages| - 1;
      PdfChunks(vendor, filename, pages[..n]) + PageChunks(vendor, filename, pages[n])
  }

  function HtmlChunks(vendor: string, filename: string, chunks: seq<string>): (r: seq<Chunk>)
    ensures |r| == |chunks|
  {
    seq(|chunks|, i requires 0 <= i < |chunks| =>
      Chunk(HtmlChunkId(vendor, filename, i), chunks[i], Metadata(Some(vendor), Some(filename), None, Some(i))))
  }

  /** The PDF branch of the ingestion: every chunk of every page, in order,
      `chunks_added` counting them. */
  method IngestPdf(vendor: string, filename: string, pages: seq<PdfPage>)
    returns (added: seq<Chunk>, chunksAdded: nat)
    ensures added == PdfChunks(vendor, filename, pages)
    ensures chunksAdded == |added|
  {
    added, chunksAdded := [], 0;
    for p := 0 to |pages|
      invariant added == PdfChunks(vendor, filename, pages[..p])
      invariant chunksAdded == |added|
    {
      assert pages[..p + 1][..p] == pages[..p];
      var page := pages[p];
      ghost var before := added;
      for idx := 0 to |page.chunks|
        invariant added == before + PageChunks(vendor, filename, page)[..idx]
        invariant chunksAdded == |added|
      {
        var metadata := Metadata(Some(vendor), Some(filename), Some(NatToString(page.pageNum)), Some(idx));
        var docId := vendor + "_" + filename + "_p" + NatToString(page.pageNum) + "_c" + NatToString(idx);
        assert PageChunks(vendor, filename, page)[..idx + 1]
            == PageChunks(vendor, filename, page)[..idx] + [Chunk(docId, page.chunks[idx], metadata)];
        added := added + [Chunk(docId, page.chunks[idx], metadata)];
        chunksAdded := chunksAdded + 1;
      }
      assert PageChunks(vendor, filename, page)[..|page.chunks|] == PageChunks(vendor, filename, page);
    }
    assert pages[..|pages|] == pages;
  }

  /** The HTML branch of the ingestion. */
  method IngestHtml(vendor: string, filename: string, chunks: seq<string>)
    returns (added: seq<Chunk>, chunksAdded: nat)
    ensures added == HtmlChunks(vendor, filename, chunks)
    ensures chunksAdded == |added|
  {
    added, chunksAdded := [], 0;
    for idx := 0 to |chunks|
      invariant added == HtmlChunks(vendor, filename, chunks)[..idx]
      invariant chunksAdded == |added|
    {
      var metadata := Metadata(Some(vendor), Some(filename), None, Some(idx));
      var docId := vendor + "_" + filename + "_c" + NatToString(idx);
      assert HtmlChunks(vendor, filename, chunks)[..idx + 1]
          == HtmlChunks(vendor, filename, chunks)[..idx] + [Chunk(docId, chunks[idx], metadata)];
      added := added + [Chunk(docId, chunks[idx], metadata)];
      chunksAdded := chunksAdded + 1;
    }
  }

  /** What a successful upload reports, and the chunks it added. */
  datatype UploadSummary = UploadSummary(filename: string, vendor: string, chunksAdded: nat, added: seq<Chunk>)

  /** `upload_document`: the extension check, then the PDF or the HTML
      ingestion. `pdfPages` and `htmlChunks` stand for what extraction and
      chunking give for the saved file. */
  method UploadDocument(filename: Option<string>, vendor: string, pdfPages: seq<PdfPage>, htmlChunks: seq<string>)
    returns (r: Result<UploadSummary>)
    ensures CheckUpload(filename).Err? ==> r == Err(CheckUpload(filename).error)
    ensures CheckUpload(filename).Ok? ==>
      var t := CheckUpload(filename).value;
      && r.Ok? && r.value.filename == t.filename && r.value.vendor == vendor
      && r.value.added == (if t.ext == ".pdf" then PdfChunks(vendor, t.filename, pdfPages)
                           else HtmlChunks(vendor, t.filename, htmlChunks))
      && r.value.chunksAdded == |r.value.added|
  {
    var check := CheckUpload(filename);
    if check.Err? {
      return Err(check.error);
    }
    var name, ext := check.value.filename, check.value.ext;
    var added, chunksAdded;
    if ext == ".pdf" {
      added, chunksAdded := IngestPdf(vendor, name, pdfPages);
    } else {
      added, chunksAdded := IngestHtml(vendor, name, htmlChunks);
    }
    r := Ok(UploadSummary(name, vendor, chunksAdded, added));
  }

  /** Every chunk an upload adds is tagged with the upload's vendor and file
      name, and the count is the sum of the page chunk counts. */
  lemma {:induction false} PdfChunksSpec(vendor: string, filename: string, pages: seq<PdfPage>)
    ensures forall c :: c in PdfChunks(vendor, filename, pages) ==>
      c.meta.vendor == Some(vendor) && c.meta.document == Some(filename) && c.meta.page.Some? && c.meta.chunk.Some?
    ensures |PdfChunks(vendor, filename, pages)| == ChunkTotal(pages)
  {
    if pages != [] {
      var n := |pages| - 1;
      PdfChunksSpec(vendor, filename, pages[..n]);
    }
  }

  function ChunkTotal(pages: seq<PdfPage>): nat {
    if pages == [] then 0 else ChunkTotal(pages[..|pages| - 1]) + |pages[|pages| - 1].chunks|
  }

  // ---------------------------------------------------------------- listing

  /** `f"{vendor}/{doc_name}"`. */
  function GroupKey(m: Metadata): string {
    VendorName(m) + "/" + DocumentName(m)
  }

  /** One value of `doc_counts`. */
  datatype Group = Group(vendor: string, document: string, chunkCount: nat, pages: set<string>)

  /** The `doc_counts` dictionary and the insertion order of its keys. */
  datatype Grouping = Grouping(keys: seq<string>, groups: map<string, Group>)

  /** One pass of the grouping loop. */
  function AddToGroups(g: Grouping, m: Metadata): Grouping {
    var key := GroupKey(m);
    var group := if key in g.groups then g.groups[key] else Group(VendorName(m), DocumentName(m), 0, {});
    var pages := if m.page.Some? then group.pages + {m.page.value} else group.pages;
    Grouping(if key in g.groups then g.keys else g.keys + [key],
             g.groups[key := Group(group.vendor, group.document, group.chunkCount + 1, pages)])
  }

  function GroupAll(metas: seq<Metadata>): Grouping {
    if metas == [] then Grouping([], map[])
    else AddToGroups(GroupAll(metas[..|metas| - 1]), metas[|metas| - 1])
  }

  function KeysOf(metas: seq<Metadata>): (r: seq<string>)
    ensures |r| == |metas| && forall i :: 0 <= i < |metas| ==> r[i] == GroupKey(metas[i])
  {
    seq(|metas|, i requires 0 <= i < |metas| => GroupKey(metas[i]))
  }

  /** The distinct pages recorded for `key`. */
  function PagesOf(metas: seq<Metadata>, key: string): set<string> {
    set i | 0 <= i < |metas| && GroupKey(metas[i]) == key && metas[i].page.Some? :: metas[i].page.value
  }

  /** The first record with a key fixes the group's vendor and document. */
  function FirstOf(metas: seq<Metadata>, key: string): (m: Metadata)
    requires key in KeysOf(metas)
    ensures m in metas && GroupKey(m) == key
  {
    var n := |metas| - 1;
    assert KeysOf(metas[..n]) == KeysOf(metas)[..n];
    if key in KeysOf(metas[..n]) then FirstOf(metas[..n], key) else metas[n]
  }

  lemma KeysOfSnoc(metas: seq<Metadata>)
    requires metas != []
    ensures KeysOf(metas) == KeysOf(metas[..|metas| - 1]) + [GroupKey(metas[|metas| - 1])]
  {
  }

  /** After the grouping loop each key occurring in the records has one
      group: its vendor and document from the first record with that key,
      its chunk count the number of records with that key and its pages the
      distinct pages among them. */
  lemma {:induction false} GroupAllEntry(metas: seq<Metadata>, key: string)
    ensures var g := GroupAll(metas);
      && (key in g.groups <==> key in KeysOf(metas))
      && (key in g.groups ==>
            && g.groups[key].chunkCount == Count(key, KeysOf(metas))
            && g.groups[key].pages == PagesOf(metas, key)
            && g.groups[key].vendor == VendorName(FirstOf(metas, key))
            && g.groups[key].document == DocumentName(FirstOf(metas, key)))
  {
    GroupAllHas(metas, key);
    if key in GroupAll(metas).groups {
      GroupAllTally(metas, key);
      GroupAllNames(metas, key);
    }
  }

  lemma {:induction false} GroupAllHas(metas: seq<Metadata>, key: string)
    ensures key in GroupAll(metas).groups <==> key in KeysOf(metas)
  {
    if metas != [] {
      var n := |metas| - 1;
      GroupAllHas(metas[..n], key);
      KeysOfSnoc(metas);
    }
  }

  lemma {:induction false} GroupAllNames(metas: seq<Metadata>, key: string)
    requires key in KeysOf(metas)
    ensures key in GroupAll(metas).groups
    ensures GroupAll(metas).groups[key].vendor == VendorName(FirstOf(metas, key))
    ensures GroupAll(metas).groups[key].document == DocumentName(FirstOf(metas, key))
  {
    GroupAllHas(metas, key);
    var n := |metas| - 1;
    var pre := metas[..n];
    KeysOfSnoc(metas);
    GroupAllHas(pre, key);
    if key in KeysOf(pre) {
      GroupAllNames(pre, key);
    }
  }

  lemma {:induction false} GroupAllTally(metas: seq<Metadata>, key: string)
    requires key in KeysOf(metas)
    ensures key in GroupAll(metas).groups
    ensures GroupAll(metas).groups[key].chunkCount == Count(key, KeysOf(metas))
    ensures GroupAll(metas).groups[key].pages == PagesOf(metas, key)
  {
    GroupAllHas(metas, key);
    var n := |metas| - 1;
    var pre := metas[..n];
    KeysOfSnoc(metas);
    var ks := KeysOf(metas);
    assert ks[..|ks| - 1] == KeysOf(pre);
    GroupAllHas(pre, key);
    PagesOfSnoc(metas);
    if key in KeysOf(pre) {
      GroupAllTally(pre, key);
    } else {
      CountAbsent(key, KeysOf(pre));
      assert PagesOf(pre, key) == {} by {
        forall i | 0 <= i < |pre| ensures GroupKey(pre[i]) != key {
          assert KeysOf(pre)[i] == GroupKey(pre[i]);
        }
      }
    }
  }

  lemma {:induction false} CountAbsent(x: string, s: seq<string>)
    requires x !in s
    ensures Count(x, s) == 0
  {
    if s != [] { CountAbsent(x, s[..|s| - 1]); }
  }

  lemma PagesOfSnoc(metas: seq<Metadata>)
    requires metas != []
    ensures var n := |metas| - 1; var m := metas[n];
      forall key :: PagesOf(metas, key) ==
        PagesOf(metas[..n], key) + (if GroupKey(m) == key && m.page.Some? then {m.page.value} else {})
  {
    var n := |metas| - 1;
    var pre := metas[..n];
    forall key ensures PagesOf(metas, key) ==
      PagesOf(pre, key) + (if GroupKey(metas[n]) == key && metas[n].page.Some? then {metas[n].page.value} else {})
    {
      forall p | p in PagesOf(metas, key)
        ensures p in PagesOf(pre, key) || (GroupKey(metas[n]) == key && metas[n].page == Some(p))
      {
        var i :| 0 <= i < |metas| && GroupKey(metas[i]) == key && metas[i].page.Some? && metas[i].page.value == p;
        if i < n { assert pre[i] == metas[i]; }
      }
      forall p | p in PagesOf(pre, key) ensures p in PagesOf(metas, key) {
        var i :| 0 <= i < |pre| && GroupKey(pre[i]) == key && pre[i].page.Some? && pre[i].page.value == p;
        assert metas[i] == pre[i];
      }
    }
  }

  /** The loop keeps the key list equal to the distinct keys in order of first occurrence. */
  lemma {:induction false} GroupAllKeys(metas: seq<Metadata>)
    ensures GroupAll(metas).keys == Distinct(KeysOf(metas))
  {
    if metas != [] {
      var n := |metas| - 1;
      GroupAllKeys(metas[..n]);
      GroupAllEntry(metas[..n], GroupKey(metas[n]));
      KeysOfSnoc(metas);
      DistinctSnoc(KeysOf(metas[..n]), GroupKey(metas[n]));
    }
  }

  /** One entry of the `documents` list. */
  datatype DocumentEntry = DocumentEntry(vendor: string, document: string, chunkCount: nat, pageCount: nat)

  datatype DocumentList = DocumentList(documents: seq<DocumentEntry>, totalChunks: nat)

  function EntryOf(g: Group): DocumentEntry {
    DocumentEntry(g.vendor, g.document, g.chunkCount, |g.pages|)
  }

  /** The keys of the listing: the distinct group keys in sorted order. */
  function ListingKeys(metas: seq<Metadata>): seq<string> {
    SortStrings(GroupAll(metas).keys)
  }

  /** What `list_documents` returns for the metadata of the collection. */
  function Listing(metas: seq<Metadata>): DocumentList
  {
    var g := GroupAll(metas);
    var keys := ListingKeys(metas);
    ListingKeysIn(metas);
    DocumentList(seq(|keys|, i requires 0 <= i < |keys| => EntryOf(g.groups[keys[i]])), |metas|)
  }

  lemma ListingKeysIn(metas: seq<Metadata>)
    ensures forall k :: k in ListingKeys(metas) <==> k in GroupAll(metas).groups
  {
    SortStringsSpec(GroupAll(metas).keys);
    GroupAllKeys(metas);
    forall k ensures k in GroupAll(metas).groups <==> k in KeysOf(metas) {
      GroupAllEntry(metas, k);
    }
  }

  /** The loop of `list_documents` over the sorted keys: one entry per key. */
  method ListEntries(groups: map<string, Group>, keys: seq<string>) returns (documents: seq<DocumentEntry>)
    requires forall k :: k in keys ==> k in groups
    ensures |documents| == |keys|
    ensures forall t :: 0 <= t < |keys| ==> documents[t] == EntryOf(groups[keys[t]])
  {
    documents := [];
    for j := 0 to |keys|
      invariant |documents| == j
      invariant forall t :: 0 <= t < j ==> documents[t] == EntryOf(groups[keys[t]])
    {
      var info := groups[keys[j]];
      documents := documents + [DocumentEntry(info.vendor, info.document, info.chunkCount, |info.pages|)];
    }
  }

  /** `list_documents`: group the records by key, then list the groups in key order. */
  method ListDocuments(metas: seq<Metadata>) returns (r: DocumentList)
    ensures r == Listing(metas)
  {
    var docCounts: map<string, Group> := map[];
    var keys: seq<string> := [];  // the keys of `doc_counts`, in insertion order
    for i := 0 to |metas|
      invariant Grouping(keys, docCounts) == GroupAll(metas[..i])
    {
      assert metas[..i + 1][..i] == metas[..i];
      var meta := metas[i];
      var vendor := meta.vendor.GetOr("Unknown");
      var docName := meta.document.GetOr("Unknown");
      var key := vendor + "/" + docName;
      ghost var before := Grouping(keys, docCounts);
      ghost var start := if key in docCounts then docCounts[key] else Group(vendor, docName, 0, {});
      assert key == GroupKey(meta);
      if key !in docCounts {
        docCounts := docCounts[key := Group(vendor, docName, 0, {})];
        keys := keys + [key];
      }
      var group := docCounts[key];
      assert group == start;
      docCounts := docCounts[key := group.(chunkCount := group.chunkCount + 1)];
      if meta.page.Some? {
        var group := docCounts[key];
        docCounts := docCounts[key := group.(pages := group.pages + {meta.page.value})];
      }
      assert docCounts == before.groups[key := docCounts[key]];
      assert Grouping(keys, docCounts) == AddToGroups(before, meta);
    }
    assert metas[..|metas|] == metas;
    ListingKeysIn(metas);
    var sortedKeys := SortStrings(keys);
    var documents := ListEntries(docCounts, sortedKeys);
    r := DocumentList(documents, |metas|);
  }

  /** The listing has one entry per distinct key, in strictly increasing key
      order; each entry's chunk count is the number of records with its key,
      its page count the number of distinct pages among them, and the total
      is the number of records. */
  lemma ListingSpec(metas: seq<Metadata>)
    ensures var l := Listing(metas); var keys := ListingKeys(metas);
      && l.totalChunks == |metas|
      && |l.documents| == |keys|
      && (forall k :: k in keys <==> k in KeysOf(metas))
      && (forall i, j :: 0 <= i < j < |keys| ==> StrLt(keys[i], keys[j]))
      && (forall i :: 0 <= i < |keys| ==>
            && l.documents[i].chunkCount == Count(keys[i], KeysOf(metas))
            && l.documents[i].pageCount == |PagesOf(metas, keys[i])|
            && GroupKey(Metadata(Some(l.documents[i].vendor), Some(l.documents[i].document), None, None)) == keys[i])
  {
    var g := GroupAll(metas);
    var keys := ListingKeys(metas);
    GroupAllKeys(metas);
    SortStringsSpec(g.keys);
    NoDupPermutation(g.keys, keys);
    AscendingNoDupStrict(keys);
    ListingKeysIn(metas);
    forall k ensures k in keys <==> k in KeysOf(metas) {
      GroupAllEntry(metas, k);
    }
    forall i | 0 <= i < |keys|
      ensures Listing(metas).documents[i].chunkCount == Count(keys[i], KeysOf(metas))
      ensures Listing(metas).documents[i].pageCount == |PagesOf(metas, keys[i])|
      ensures GroupKey(Metadata(Some(Listing(metas).documents[i].vendor), Some(Listing(metas).documents[i].document), None, None)) == keys[i]
    {
      GroupAllEntry(metas, keys[i]);
    }
  }

  /** Two different (vendor, document) pairs share one entry when a vendor
      name contains '/': the key `vendor/document` does not separate them. */
  lemma GroupKeyCollision()
    ensures var a := Metadata(Some("a/b"), Some("c"), None, None);
            var b := Metadata(Some("a"), Some("b/c"), None, None);
      a.vendor != b.vendor && GroupKey(a) == GroupKey(b)
  {
  }

  // ---------------------------------------------------------------- deletion

  /** `meta.get("vendor") == vendor and meta.get("document") == document_name`. */
  predicate Matches(m: Metadata, vendor: string, documentName: string) {
    m.vendor == Some(vendor) && m.document == Some(documentName)
  }

  /** The ids of the matching records, in collection order. */
  function SelectedIds(records: seq<Record>, vendor: string, documentName: string): (ids: seq<string>)
    ensures |ids| <= |records|
  {
    if records == [] then []
    else
      var n := |records| - 1;
      SelectedIds(records[..n], vendor, documentName)
        + (if Matches(records[n].meta, vendor, documentName) then [records[n].id] else [])
  }

  /** A record's id is selected exactly when some record with that id matches. */
  lemma {:induction false} SelectedIdsSpec(records: seq<Record>, vendor: string, documentName: string)
    ensures forall id :: id in SelectedIds(records, vendor, documentName) <==>
      exists i :: 0 <= i < |records| && records[i].id == id && Matches(records[i].meta, vendor, documentName)
  {
    if records != [] {
      var n := |records| - 1;
      SelectedIdsSpec(records[..n], vendor, documentName);
      forall id ensures id in SelectedIds(records, vendor, documentName) <==>
        exists i :: 0 <= i < |records| && records[i].id == id && Matches(records[i].meta, vendor, documentName)
      {
        if exists i :: 0 <= i < |records| && records[i].id == id && Matches(records[i].meta, vendor, documentName) {
          var i :| 0 <= i < |records| && records[i].id == id && Matches(records[i].meta, vendor, documentName);
          if i < n { assert records[..n][i] == records[i]; }
        }
        if id in SelectedIds(records[..n], vendor, documentName) {
          var i :| 0 <= i < n && records[..n][i].id == id && Matches(records[..n][i].meta, vendor, documentName);
          assert records[i] == records[..n][i];
        }
      }
    }
  }

  /** The records `col.delete(ids=...)` leaves. */
  function Remaining(records: seq<Record>, ids: seq<string>): (r: seq<Record>)
    ensures forall x :: x in r <==> x in records && x.id !in ids
  {
    if records == [] then []
    else
      var n := |records| - 1;
      assert forall x :: x in records <==> x in records[..n] || x == records[n];
      Remaining(records[..n], ids) + (if records[n].id in ids then [] else [records[n]])
  }

  datatype DeleteSummary = DeleteSummary(vendor: string, document: string, chunksRemoved: nat, remaining: seq<Record>)

  const DocumentNotFound := HttpError(404, "Document not found in index.")

  /** `delete_document`: select the ids of the matching records; none is a
      404, otherwise delete them and report how many were selected. */
  method DeleteDocument(records: seq<Record>, vendor: string, documentName: string) returns (r: Result<DeleteSummary>)
    ensures var ids := SelectedIds(records, vendor, documentName);
      && (ids == [] ==> r == Err(DocumentNotFound))
      && (ids != [] ==> r == Ok(DeleteSummary(vendor, documentName, |ids|, Remaining(records, ids))))
  {
    var idsToDelete: seq<string> := [];
    for i := 0 to |records|
      invariant idsToDelete == SelectedIds(records[..i], vendor, documentName)
    {
      assert records[..i + 1][..i] == records[..i];
      var meta := records[i].meta;
      if meta.vendor == Some(vendor) && meta.document == Some(documentName) {
        idsToDelete := idsToDelete + [records[i].id];
      }
    }
    assert records[..|records|] == records;
    if idsToDelete == [] {
      return Err(DocumentNotFound);
    }
    r := Ok(DeleteSummary(vendor, documentName, |idsToDelete|, Remaining(records, idsToDelete)));
  }

  /** The positions of the records that match. */
  function MatchingPositions(records: seq<Record>, vendor: string, documentName: string): set<nat> {
    set i: nat | i < |records| && Matches(records[i].meta, vendor, documentName)
  }

  /** One id is selected per matching record, so `chunks_removed` is the
      number of matching records. */
  lemma {:induction false} SelectedIdsCount(records: seq<Record>, vendor: string, documentName: string)
    ensures |SelectedIds(records, vendor, documentName)| == |MatchingPositions(records, vendor, documentName)|
  {
    if records == [] {
      assert MatchingPositions(records, vendor, documentName) == {};
    } else {
      var n := |records| - 1;
      SelectedIdsCount(records[..n], vendor, documentName);
      var pre := MatchingPositions(records[..n], vendor, documentName);
      assert forall i :: 0 <= i < n ==> records[..n][i] == records[i];
      if Matches(records[n].meta, vendor, documentName) {
        assert MatchingPositions(records, vendor, documentName) == pre + {n};
        assert n !in pre;
      } else {
        assert MatchingPositions(records, vendor, documentName) == pre;
      }
    }
  }

  /** A deletion fails exactly when no record matches; after it no matching
      record remains, and the count removed is the number of matching
      records. (`DeleteKeepsOthers` shows that every other record remains.) */
  lemma DeleteSpec(records: seq<Record>, vendor: string, documentName: string)
    ensures var ids := SelectedIds(records, vendor, documentName);
      && (ids == [] <==> forall i :: 0 <= i < |records| ==> !Matches(records[i].meta, vendor, documentName))
      && (forall x :: x in Remaining(records, ids) ==> !Matches(x.meta, vendor, documentName))
      && |ids| == |MatchingPositions(records, vendor, documentName)|
  {
    var ids := SelectedIds(records, vendor, documentName);
    SelectedIdsSpec(records, vendor, documentName);
    SelectedIdsCount(records, vendor, documentName);
    if ids != [] {
      assert ids[0] in ids;
    }
    forall x | x in Remaining(records, ids) ensures !Matches(x.meta, vendor, documentName) {
      var i :| 0 <= i < |records| && records[i] == x;
    }
  }

  /** With unique record ids deletion keeps every record that does not match. */
  lemma DeleteKeepsOthers(records: seq<Record>, vendor: string, documentName: string, x: Record)
    requires forall i, j :: 0 <= i < j < |records| ==> records[i].id != records[j].id
    requires x in records && !Matches(x.meta, vendor, documentName)
    ensures x in Remaining(records, SelectedIds(records, vendor, documentName))
  {
    SelectedIdsSpec(records, vendor, documentName);
    var k :| 0 <= k < |records| && records[k] == x;
    assert forall i :: 0 <= i < |records| && records[i].id == x.id ==> i == k;
  }

  /** A record without a vendor is listed under "Unknown", yet deleting
      vendor "Unknown" does not select it. */
  lemma DeleteMissesUnknownVendor(doc: string)
    ensures var rec := Record("r1", Metadata(None, Some(doc), None, None));
      && GroupKey(rec.meta) == "Unknown/" + doc
      && SelectedIds([rec], "Unknown", doc) == []
  {
    var rec := Record("r1", Metadata(None, Some(doc), None, None));
    assert [rec][..0] == [];
  }
}
