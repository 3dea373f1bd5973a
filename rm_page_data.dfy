/**
 * The agreement-document ingestion: for every framework, the documents listed on its page are
 * downloaded; a ZIP archive (by its magic bytes) is unpacked recursively and its useful files are
 * uploaded, any other download is uploaded as it is, each under its file name.
 */
module RmPageData {
  import opened Base
  import Strings
  import Lists
  import CcsWebsiteData

  type Byte = x: int | 0 <= x < 256

  /** The first four bytes of every ZIP archive: `PK\x03\x04`. */
  const ZipMagic: seq<Byte> := [0x50, 0x4B, 0x03, 0x04]

  /** The default `excluded_extension` tuple; its last entry has no leading dot. */
  const ExcludedExtension: seq<string> := [".odt", ".docx", ".xlsx", "pdf"]

  /** The default `excluded_filenames` list. */
  const ExcludedFilenames: seq<string> := ["mimetype", ".DS_Store", "thumbs.db"]

  /** The frameworks already ingested by an earlier run: `ccs_frameworks[149:]` keeps the rest. */
  const AlreadyProcessed := 149

  /** Python's slice `rows[149:]`, which is empty for a shorter table. */
  function SkipProcessed<T>(rows: seq<T>): (r: seq<T>)
    ensures |r| == if |rows| <= AlreadyProcessed then 0 else |rows| - AlreadyProcessed
    ensures forall k :: 0 <= k < |r| ==> r[k] == rows[AlreadyProcessed + k]
  {
    if |rows| <= AlreadyProcessed then [] else rows[AlreadyProcessed..]
  }

  /** `s.rfind(c)`, with None for -1. */
  function LastIndex(s: string, c: char): (r: Option<nat>)
    ensures r.None? <==> c !in s
    ensures r.Some? ==> r.value < |s| && s[r.value] == c && forall k :: r.value < k < |s| ==> s[k] != c
  {
    if s == [] then None
    else if s[|s| - 1] == c then Some(|s| - 1)
    else
      var r := LastIndex(s[..|s| - 1], c);
      assert forall k :: 0 <= k < |s| - 1 ==> s[..|s| - 1][k] == s[k];
      r
  }

  /** `PurePath(name).suffix` of a final path component: from the last dot, unless it starts or ends the name. */
  function Suffix(name: string): string
  {
    match LastIndex(name, '.')
    case None => ""
    case Some(i) => if 0 < i < |name| - 1 then name[i..] else ""
  }

  /** A suffix is empty, or a dot followed by at least one character and no further dot. */
  lemma SuffixShape(name: string)
    ensures var x := Suffix(name);
            x == "" || (|x| >= 2 && x[0] == '.' && '.' !in x[1..] && x == name[|name| - |x|..])
  {
    match LastIndex(name, '.')
    case None =>
    case Some(i) =>
      if 0 < i < |name| - 1 {
        var x := name[i..];
        forall k | 0 <= k < |x[1..]| ensures x[1..][k] != '.' {
          assert x[1..][k] == name[i + 1 + k];
        }
      }
  }

  function NotEmpty(c: string): bool { c != "" && c != "." }

  /** `PurePath(p).name`: the last non-empty component of a slash-separated path (empty if there is none). */
  function Name(p: string): string
  {
    var parts := Lists.Filter(Strings.Split(p, '/'), NotEmpty);
    if parts == [] then "" else parts[|parts| - 1]
  }

  /** `zip_checker`: an excluded suffix or fewer than four bytes say no, otherwise the magic bytes decide. */
  function ZipChecker(url: string, binaryData: seq<Byte>): bool
  {
    if Suffix(Name(url)) in ExcludedExtension then false
    else if |binaryData| < 4 then false
    else binaryData[..4] == ZipMagic
  }

  /**
   * The check says yes exactly when the suffix is not excluded and the data starts with the magic bytes;
   * the undotted `"pdf"` entry can never match a suffix.
   */
  lemma ZipCheckerSpec(url: string, binaryData: seq<Byte>)
    ensures ZipChecker(url, binaryData) <==>
              Suffix(Name(url)) !in {".odt", ".docx", ".xlsx"}
              && |binaryData| >= 4 && binaryData[..4] == ZipMagic
    ensures Suffix(Name(url)) != "pdf"
  {
    SuffixShape(Name(url));
    assert "pdf"[0] != '.';
  }

  /** So a `.pdf` URL whose data starts like a ZIP archive is treated as one. */
  lemma PdfZipIsZip(url: string, binaryData: seq<Byte>)
    requires Suffix(Name(url)) == ".pdf"
    requires |binaryData| >= 4 && binaryData[..4] == ZipMagic
    ensures ZipChecker(url, binaryData)
  {
    ZipCheckerSpec(url, binaryData);
  }

  /** A file called `doc.pdf` has the suffix `.pdf`. */
  lemma PdfSuffix()
    ensures Suffix("doc.pdf") == ".pdf"
  {
    var n := "doc.pdf";
    assert n[6] != '.' && n[5] != '.' && n[4] != '.' && n[3] == '.';
    assert LastIndex(n[..4], '.') == Some(3);
    assert n[..5][..4] == n[..4] && n[..6][..5] == n[..5] && n[..7][..6] == n[..6] && n[..7] == n;
    assert LastIndex(n, '.') == Some(3);
  }

  /**
   * An item of an extracted archive: a file with its bytes, whether `zipfile.is_zipfile` accepts them and
   * the items extracting them gives (none for other files), or a directory with its items.
   */
  datatype Entry =
    | File(name: string, content: seq<Byte>, isZip: bool, members: seq<Entry>)
    | Dir(name: string, children: seq<Entry>)

  /** The number of items in an item's tree (at least one). */
  function Size(e: Entry): (n: nat)
    ensures n >= 1
    decreases e
  {
    match e
    case File(_, _, _, members) => 1 + SizeOf(members)
    case Dir(_, children) => 1 + SizeOf(children)
  }

  function SizeOf(items: seq<Entry>): nat
    decreases items
  {
    if items == [] then 0 else SizeOf(items[..|items| - 1]) + Size(items[|items| - 1])
  }

  /** An item and the items before it weigh no more than the whole list. */
  lemma {:induction false} SizeOfPrefix(items: seq<Entry>, i: nat)
    requires i < |items|
    ensures SizeOf(items[..i]) + Size(items[i]) <= SizeOf(items)
  {
    if i < |items| - 1 {
      var init := items[..|items| - 1];
      SizeOfPrefix(init, i);
      assert init[..i] == items[..i] && init[i] == items[i];
    } else {
      assert items[..|items| - 1] == items[..i];
    }
  }

  /** The first clause of the scan: a file `zipfile` can open whose suffix is not excluded is unpacked. */
  predicate Unpacked(item: Entry)
  {
    item.File? && item.isZip && Suffix(item.name) !in ExcludedExtension
  }

  /** The second clause: any other file is listed unless it is `.xml` or `.rdf` or its lower-cased name is excluded. */
  predicate Listed(item: Entry)
  {
    item.File? && !Unpacked(item) && Suffix(item.name) != ".xml" && Suffix(item.name) != ".rdf"
    && Strings.Lower(item.name) !in ExcludedFilenames
  }

  /** The items the scan walks: those inside the sole extracted item when it is a directory, else all. */
  function TargetDir(extractedItems: seq<Entry>): (r: seq<Entry>)
    ensures SizeOf(r) <= SizeOf(extractedItems)
  {
    if |extractedItems| == 1 && extractedItems[0].Dir? then
      assert extractedItems[..0] == [];
      extractedItems[0].children
    else extractedItems
  }

  /**
   * The files `extract_recursive` returns for an archive extracting to `extractedItems`: every listed
   * file and, in place of every unpacked archive, the files of that archive, in scan order.
   */
  function Extracted(extractedItems: seq<Entry>): (r: seq<Entry>)
    ensures forall x :: x in r ==> Listed(x)
    decreases SizeOf(extractedItems), 2
  {
    Scan(TargetDir(extractedItems))
  }

  /** The files found by scanning `items` in order. */
  function Scan(items: seq<Entry>): (r: seq<Entry>)
    ensures forall x :: x in r ==> Listed(x)
    decreases SizeOf(items), 1
  {
    if items == [] then []
    else
      var item := items[|items| - 1];
      assert SizeOf(items) == SizeOf(items[..|items| - 1]) + Size(item);
      Scan(items[..|items| - 1]) + ItemFiles(item)
  }

  /** What one scanned item contributes: an unpacked archive's files, a listed file, or nothing. */
  function ItemFiles(item: Entry): (r: seq<Entry>)
    ensures forall x :: x in r ==> Listed(x)
    decreases Size(item), 0
  {
    if Unpacked(item) then Extracted(item.members) else if Listed(item) then [item] else []
  }

  /** `extract_recursive`, over the extracted items instead of the disk. */
  method ExtractRecursive(extractedItems: seq<Entry>) returns (unzippedFiles: seq<Entry>)
    ensures unzippedFiles == Extracted(extractedItems)
    decreases SizeOf(extractedItems)
  {
    unzippedFiles := [];
    var targetDir := if |extractedItems| == 1 && extractedItems[0].Dir? then extractedItems[0].children
                     else extractedItems;
    assert targetDir == TargetDir(extractedItems);
    for i := 0 to |targetDir|
      invariant unzippedFiles == Scan(targetDir[..i])
    {
      var item := targetDir[i];
      SizeOfPrefix(targetDir, i);
      assert targetDir[..i + 1][..i] == targetDir[..i];
      if Unpacked(item) {
        var nested := ExtractRecursive(item.members);
        unzippedFiles := unzippedFiles + nested;
      } else if Listed(item) {
        unzippedFiles := unzippedFiles + [item];
      }
    }
    assert targetDir[..|targetDir|] == targetDir;
  }

  /** A directory scanned beside other items is not descended into: only files contribute. */
  lemma {:induction false} ScanIgnoresDirs(items: seq<Entry>)
    ensures Scan(items) == Scan(Lists.Filter(items, IsFile))
  {
    if items != [] {
      var init := items[..|items| - 1];
      var item := items[|items| - 1];
      ScanIgnoresDirs(init);
      assert items[..|items| - 1] == init;
      assert Scan(items) == Scan(init) + ItemFiles(item);
      Lists.FilterStep(items, IsFile, |items| - 1);
      assert items[..|items|] == items;
      var f := Lists.Filter(init, IsFile);
      if item.File? {
        assert Lists.Filter(items, IsFile) == f + [item];
        assert (f + [item])[..|f|] == f;
        assert Scan(f + [item]) == Scan(f) + ItemFiles(item);
      } else {
        assert Lists.Filter(items, IsFile) == f;
        assert ItemFiles(item) == [];
      }
    }
  }

  /** Whether an item is a file. */
  function IsFile(e: Entry): bool { e.File? }

  /** The sole-directory rule: an archive holding just one directory is scanned inside that directory. */
  lemma SoleDirDescends(name: string, children: seq<Entry>)
    ensures Extracted([Dir(name, children)]) == Scan(children)
  {
  }

  /** An unpacked archive is replaced by its own files and is never listed itself. */
  lemma UnpackedReplaced(items: seq<Entry>, item: Entry)
    requires Unpacked(item)
    ensures Scan(items + [item]) == Scan(items) + Extracted(item.members)
    ensures item !in Scan(items + [item])
  {
    assert (items + [item])[..|items|] == items;
  }

  /** A lower-cased name never equals `.DS_Store`: that entry of the excluded names never matches. */
  lemma DsStoreNeverExcluded(name: string)
    ensures Strings.Lower(name) != ".DS_Store"
  {
    Strings.LowerHasNoCapital(name);
    if |Strings.Lower(name)| == |".DS_Store"| {
      assert ".DS_Store"[1] == 'D';
    }
  }

  /** So a plain `.DS_Store` file is listed (its name starts with its only dot, so it has no suffix). */
  lemma DsStoreListed(content: seq<Byte>)
    ensures Listed(File(".DS_Store", content, false, []))
  {
    DsStoreNoSuffix();
    DsStoreNotExcluded();
  }

  /** `.DS_Store` has its only dot first, so it has no suffix. */
  lemma DsStoreNoSuffix()
    ensures Suffix(".DS_Store") == ""
  {
    var n := ".DS_Store";
    assert LastIndex(n, '.').Some? && LastIndex(n, '.').value == 0 by {
      assert n[0] == '.';
      assert forall k :: 0 < k < |n| ==> n[k] != '.';
    }
  }

  /** `.DS_Store` lower-cased starts with a dot and is not the listed `.DS_Store` itself. */
  lemma DsStoreNotExcluded()
    ensures Strings.Lower(".DS_Store") !in ExcludedFilenames
  {
    var l := Strings.Lower(".DS_Store");
    DsStoreNeverExcluded(".DS_Store");
    assert l[0] == '.';
    assert "mimetype"[0] == 'm' && "thumbs.db"[0] == 't';
  }

  /** A `.docx` file is a ZIP archive, but its suffix is excluded, so it is listed whole rather than unpacked. */
  lemma OfficeFileListedWhole(name: string, content: seq<Byte>, members: seq<Entry>)
    requires Suffix(name) == ".docx" && Strings.Lower(name) !in ExcludedFilenames
    ensures !Unpacked(File(name, content, true, members)) && Listed(File(name, content, true, members))
  {
    assert ".docx" != ".xml" && ".docx" != ".rdf";
  }

  /** One blob upload (with `overwrite=True`): the blob name and the bytes. */
  datatype Upload = Upload(blobName: string, data: seq<Byte>)

  /** A document entry of a framework page: its fields by name. */
  type DocRecord = map<string, string>

  /** The framework page request, as `agreement_docs` sees it: a failure, or a JSON body and its `documents`. */
  datatype PageAnswer =
    | Failure                                  // the request, or decoding its body, raised
    | Body(documents: Option<seq<DocRecord>>)  // None: the body has no `documents` key

  /** The outside world of the ingestion: `BASE_URL`, the two kinds of download and the archive extraction. */
  datatype Services = Services(
    baseUrl: Option<string>,
    fetchPage: string -> PageAnswer,
    download: string -> Option<seq<Byte>>,
    archiveOf: seq<Byte> -> Option<seq<Entry>>)

  /**
   * `agreement_docs`: the page's documents, or None when anything raises: no `BASE_URL`, an RM number that
   * is not a string, a failed request or body, or a body without documents.
   */
  function AgreementDocs(baseUrl: Option<string>, frameWork: CcsWebsiteData.Value, fetchPage: string -> PageAnswer)
    : (r: Option<seq<DocRecord>>)
    ensures r.None? <==>
              baseUrl.None? || !frameWork.Text?
              || fetchPage(baseUrl.value + frameWork.text).Failure?
              || fetchPage(baseUrl.value + frameWork.text).documents.None?
    ensures r.Some? ==> r == fetchPage(baseUrl.value + frameWork.text).documents
  {
    if baseUrl.None? || !frameWork.Text? then None
    else
      match fetchPage(baseUrl.value + frameWork.text)
      case Failure => None
      case Body(documents) => documents
  }

  /** The upload of an extracted file, under its own name (only files are ever extracted). */
  function AsUpload(e: Entry): Upload
  {
    match e
    case File(name, content, _, _) => Upload(name, content)
    case Dir(name, _) => Upload(name, [])
  }

  /**
   * The uploads of one document: none when a key is missing, the download fails or the archive cannot be
   * extracted (the error is caught); otherwise the download under its URL's file name, or the files
   * of the archive.
   */
  function DocUploads(doc: DocRecord, svc: Services): seq<Upload>
  {
    if "title" !in doc || "url" !in doc then []
    else
      var dataUrl := doc["url"];
      match svc.download(dataUrl)
      case None => []
      case Some(content) =>
        if !ZipChecker(dataUrl, content) then [Upload(Name(dataUrl), content)]
        else
          match svc.archiveOf(content)
          case None => []
          case Some(items) => Lists.Map(Extracted(items), AsUpload)
  }

  /** `DocUploads` for the given services, as a function of the document. */
  function DocUploadsWith(svc: Services): DocRecord -> seq<Upload>
  {
    d => DocUploads(d, svc)
  }

  /** The uploads of a framework's documents, in document order. */
  function DocsUploads(docs: seq<DocRecord>, svc: Services): seq<Upload>
  {
    Lists.FlatMap(docs, DocUploadsWith(svc))
  }

  /** The uploads for one framework, after the guard that skips a framework without documents. */
  function FrameworkUploads(frameWork: CcsWebsiteData.Value, svc: Services): seq<Upload>
  {
    match AgreementDocs(svc.baseUrl, frameWork, svc.fetchPage)
    case None => []
    case Some(docs) => if docs == [] then [] else DocsUploads(docs, svc)
  }

  /** The uploads of a row's framework, for the given services. */
  function RowUploadsWith(svc: Services): CcsWebsiteData.Record -> seq<Upload>
  {
    row => FrameworkUploads(CcsWebsiteData.Cell(row, "rm_number"), svc)
  }

  /** The uploads for the given rows of the table, in row order. */
  function RowsUploads(rows: seq<CcsWebsiteData.Record>, svc: Services): seq<Upload>
  {
    Lists.FlatMap(rows, RowUploadsWith(svc))
  }

  /** What a run of the script does: the uploads in order, and whether it stopped with an uncaught error. */
  datatype RunResult = RunResult(uploads: seq<Upload>, crashed: bool)

  /**
   * The ingestion run on the fetched table: no table (`None[149:]`) or rows without an `rm_number` column
   * raise before any upload; otherwise each remaining row's framework is processed.
   */
  function Run(df: Option<seq<CcsWebsiteData.Record>>, svc: Services): RunResult
  {
    match df
    case None => RunResult([], true)
    case Some(records) =>
      var rows := SkipProcessed(records);
      if rows != [] && !CcsWebsiteData.HasColumn(records, "rm_number") then RunResult([], true)
      else RunResult(RowsUploads(rows, svc), false)
  }

  /** The uploads of one document, with the unpacked files uploaded one after the other. */
  method ProcessDoc(doc: DocRecord, svc: Services) returns (uploaded: seq<Upload>)
    ensures uploaded == DocUploads(doc, svc)
  {
    uploaded := [];
    if "title" !in doc || "url" !in doc {
      return;
    }
    var dataUrl := doc["url"];
    var response := svc.download(dataUrl);
    if response.None? {
      return;
    }
    var content := response.value;
    var isZip := ZipChecker(dataUrl, content);
    if !isZip {
      uploaded := [Upload(Name(dataUrl), content)];
    } else {
      var archive := svc.archiveOf(content);
      if archive.Some? {
        var dataToUnzip := ExtractRecursive(archive.value);
        for k := 0 to |dataToUnzip|
          invariant uploaded == Lists.Map(dataToUnzip[..k], AsUpload)
        {
          assert dataToUnzip[..k + 1][..k] == dataToUnzip[..k];
          uploaded := uploaded + [AsUpload(dataToUnzip[k])];
        }
        assert dataToUnzip[..|dataToUnzip|] == dataToUnzip;
      }
    }
  }

  /** The inner loop of `get_rm_page_data`: each document of a framework in turn. */
  method ProcessDocs(docs: seq<DocRecord>, svc: Services) returns (uploaded: seq<Upload>)
    ensures uploaded == DocsUploads(docs, svc)
  {
    uploaded := [];
    for j := 0 to |docs|
      invariant uploaded == DocsUploads(docs[..j], svc)
    {
      Lists.FlatMapStep(docs, DocUploadsWith(svc), j);
      var u := ProcessDoc(docs[j], svc);
      uploaded := uploaded + u;
    }
    assert docs[..|docs|] == docs;
  }

  /** `get_rm_page_data` over the fetched table: one pass over the remaining rows and their documents. */
  method GetRmPageData(df: Option<seq<CcsWebsiteData.Record>>, svc: Services)
    returns (uploads: seq<Upload>, crashed: bool)
    ensures RunResult(uploads, crashed) == Run(df, svc)
  {
    uploads := [];
    crashed := false;
    if df.None? {
      crashed := true;
      return;
    }
    var records := df.value;
    var rows := SkipProcessed(records);
    var hasRmNumber := CcsWebsiteData.HasColumn(records, "rm_number");
    for i := 0 to |rows|
      invariant hasRmNumber || i == 0
      invariant uploads == RowsUploads(rows[..i], svc)
    {
      Lists.FlatMapStep(rows, RowUploadsWith(svc), i);
      if !hasRmNumber {
        crashed := true;
        return;
      }
      var frameWork := CcsWebsiteData.Cell(rows[i], "rm_number");
      var documents := AgreementDocs(svc.baseUrl, frameWork, svc.fetchPage);
      if documents.None? || documents.value == [] {
        continue;
      }
      var uploaded := ProcessDocs(documents.value, svc);
      uploads := uploads + uploaded;
    }
    assert rows[..|rows|] == rows;
  }

  /** A document without a title or a URL, or whose download fails, adds nothing. */
  lemma DocSkipped(doc: DocRecord, svc: Services)
    requires "title" !in doc || "url" !in doc || svc.download(doc["url"]).None?
    ensures DocUploads(doc, svc) == []
  {
  }

  /** A download that is not a ZIP archive is uploaded whole, under its URL's file name. */
  lemma NonZipUploadedWhole(doc: DocRecord, svc: Services)
    requires "title" in doc && "url" in doc && svc.download(doc["url"]).Some?
    requires !ZipChecker(doc["url"], svc.download(doc["url"]).value)
    ensures DocUploads(doc, svc) == [Upload(Name(doc["url"]), svc.download(doc["url"]).value)]
  {
  }

  /**
   * An archive adds nothing when its extraction raises, and otherwise one upload per file it extracts
   * to, under that file's name; none of them is an `.xml` or `.rdf` file or has an excluded name.
   */
  lemma ArchiveUploads(doc: DocRecord, svc: Services)
    requires "title" in doc && "url" in doc && svc.download(doc["url"]).Some?
    requires ZipChecker(doc["url"], svc.download(doc["url"]).value)
    ensures var archive := svc.archiveOf(svc.download(doc["url"]).value);
            var r := DocUploads(doc, svc);
            (archive.None? ==> r == [])
            && (archive.Some? ==>
                  var files := Extracted(archive.value);
                  |r| == |files|
                  && forall k :: 0 <= k < |r| ==>
                       files[k].File? && r[k] == Upload(files[k].name, files[k].content)
                       && Suffix(r[k].blobName) != ".xml" && Suffix(r[k].blobName) != ".rdf"
                       && Strings.Lower(r[k].blobName) !in ExcludedFilenames)
  {
    var url := doc["url"];
    var content := svc.download(url).value;
    var archive := svc.archiveOf(content);
    var r := DocUploads(doc, svc);
    if archive.Some? {
      var files := Extracted(archive.value);
      assert r == Lists.Map(files, AsUpload);
      forall k | 0 <= k < |r|
        ensures files[k].File? && r[k] == Upload(files[k].name, files[k].content)
        ensures Suffix(r[k].blobName) != ".xml" && Suffix(r[k].blobName) != ".rdf"
        ensures Strings.Lower(r[k].blobName) !in ExcludedFilenames
      {
        assert files[k] in files;
        assert Listed(files[k]);
        assert r[k] == AsUpload(files[k]);
      }
    } else {
      assert r == [];
    }
  }

  /**
   * The guard: a framework whose page fails or lists no documents adds nothing, and otherwise its
   * documents are processed in order; so a framework adds uploads only when its page lists a document with
   * a title and a URL whose download succeeds.
   */
  lemma SkipGuard(frameWork: CcsWebsiteData.Value, svc: Services)
    ensures var docs := AgreementDocs(svc.baseUrl, frameWork, svc.fetchPage);
            (docs.None? || docs == Some([]) ==> FrameworkUploads(frameWork, svc) == [])
            && (docs.Some? ==> FrameworkUploads(frameWork, svc) == DocsUploads(docs.value, svc))
    ensures FrameworkUploads(frameWork, svc) != [] ==>
              var docs := AgreementDocs(svc.baseUrl, frameWork, svc.fetchPage);
              docs.Some?
              && exists k :: 0 <= k < |docs.value| && "title" in docs.value[k] && "url" in docs.value[k]
                             && svc.download(docs.value[k]["url"]).Some?
  {
    var docs := AgreementDocs(svc.baseUrl, frameWork, svc.fetchPage);
    if FrameworkUploads(frameWork, svc) != [] {
      Lists.FlatMapEmpty(docs.value, DocUploadsWith(svc));
      var k :| 0 <= k < |docs.value| && DocUploadsWith(svc)(docs.value[k]) != [];
      if !("title" in docs.value[k] && "url" in docs.value[k] && svc.download(docs.value[k]["url"]).Some?) {
        DocSkipped(docs.value[k], svc);
      }
    }
  }

  /**
   * The run fails exactly when there is no table, or rows remain and none of the records has an RM number;
   * it then uploads nothing. Otherwise every upload belongs to a framework at position 149 or later.
   */
  lemma RunSpec(df: Option<seq<CcsWebsiteData.Record>>, svc: Services)
    ensures Run(df, svc).crashed <==>
              df.None? || (|df.value| > AlreadyProcessed && !CcsWebsiteData.HasColumn(df.value, "rm_number"))
    ensures Run(df, svc).crashed ==> Run(df, svc).uploads == []
    ensures forall u :: u in Run(df, svc).uploads ==>
              exists k :: AlreadyProcessed <= k < |df.value|
                          && u in FrameworkUploads(CcsWebsiteData.Cell(df.value[k], "rm_number"), svc)
  {
    if df.Some? {
      var records := df.value;
      var rows := SkipProcessed(records);
      forall u | u in Run(df, svc).uploads
        ensures exists k :: AlreadyProcessed <= k < |records|
                            && u in FrameworkUploads(CcsWebsiteData.Cell(records[k], "rm_number"), svc)
      {
        var j := Lists.FlatMapFrom(rows, RowUploadsWith(svc), u);
        assert records[AlreadyProcessed + j] == rows[j];
      }
    }
  }

  /** The blob container after a sequence of uploads: each upload overwrites a blob of the same name. */
  function Store(log: seq<Upload>): map<string, seq<Byte>>
  {
    if log == [] then map[]
    else Store(log[..|log| - 1])[log[|log| - 1].blobName := log[|log| - 1].data]
  }

  /** A blob exists exactly when some upload had its name. */
  lemma {:induction false} StoreHas(log: seq<Upload>, n: string)
    ensures n in Store(log) <==> exists k :: 0 <= k < |log| && log[k].blobName == n
  {
    if log != [] {
      var init := log[..|log| - 1];
      StoreHas(init, n);
      assert Store(log) == Store(init)[log[|log| - 1].blobName := log[|log| - 1].data];
      if k :| 0 <= k < |log| && log[k].blobName == n {
        if k < |init| {
          assert init[k] == log[k];
        }
      }
      if k :| 0 <= k < |init| && init[k].blobName == n {
        assert log[k] == init[k];
      }
    }
  }

  /**
   * A blob holds the data of the last upload with its name: of files with the same name from different
   * frameworks or archives, only the last one survives.
   */
  lemma {:induction false} StoreLast(log: seq<Upload>, n: string)
    requires n in Store(log)
    ensures exists k :: 0 <= k < |log| && log[k].blobName == n && Store(log)[n] == log[k].data
                        && forall j :: k < j < |log| ==> log[j].blobName != n
  {
    var init := log[..|log| - 1];
    var last := log[|log| - 1];
    assert Store(log) == Store(init)[last.blobName := last.data];
    if last.blobName == n {
      assert log[|log| - 1].blobName == n;
    } else {
      StoreLast(init, n);
      var k :| 0 <= k < |init| && init[k].blobName == n && Store(init)[n] == init[k].data
               && forall j :: k < j < |init| ==> init[j].blobName != n;
      assert log[k] == init[k];
      assert forall j :: k < j < |log| - 1 ==> log[j] == init[j];
    }
  }
}
