/**
 * The framework ingestion from the public frameworks API: pages 1, 2, 3, ... are fetched until a page
 * is empty, the last page is reached or a request fails; five text columns of every record are cleaned
 * of HTML, and the collected records (or nothing) are returned.
 */
module CcsWebsiteData {
  import opened Base
  import Lists

  /** A field value of a record as the JSON decoder and pandas see it. */
  datatype Value =
    | Null                                // JSON null, Python `None`
    | NaN                                 // a float NaN (pandas' missing value)
    | Text(text: string)                  // a string
    | List(items: seq<Value>, repr: string) // a JSON array, with its `str()`
    | Other(repr: string)                 // any other value (a number, a boolean, an object), by its `str()`

  /** A framework record: a dictionary from field names to values. */
  type Record = map<string, Value>

  /**
   * `pd.DataFrame(records)` makes a column of every field that some record has; this says whether the
   * field is one.
   */
  predicate HasColumn(records: seq<Record>, key: string)
  {
    exists k :: 0 <= k < |records| && key in records[k]
  }

  /** A row's cell of an existing column: a record without the field shows pandas' NaN. */
  function Cell(row: Record, key: string): Value
  {
    if key in row then row[key] else NaN
  }

  /** `str(value)` for the values the cleaner sees. */
  function Str(v: Value): string
  {
    match v
    case Null => "None"
    case NaN => "nan"
    case Text(s) => s
    case List(_, r) => r
    case Other(r) => r
  }

  /** The exception an `if` raises on an array that has no single truth value. */
  const AmbiguousTruth: string := "ValueError"

  /**
   * `html_text is None or pd.isna(html_text)` used as a condition. `pd.isna` of a list is the array of its
   * elements' missingness, and the truth value of an array exists only when it has exactly one element
   * (NumPy raises on an empty array as on a longer one); a nested list is another dimension of the array.
   */
  function IsMissing(v: Value): (r: Result<bool>)
    ensures !v.List? ==> r == Ok(v.Null? || v.NaN?)
    ensures v.List? && |v.items| != 1 ==> r == Err(AmbiguousTruth)
    ensures v.List? && |v.items| == 1 ==> r == IsMissing(v.items[0])
    ensures r.Err? ==> r.error == AmbiguousTruth
    decreases v
  {
    match v
    case Null => Ok(true)
    case NaN => Ok(true)
    case Text(_) => Ok(false)
    case List(items, _) => if |items| == 1 then IsMissing(items[0]) else Err(AmbiguousTruth)
    case Other(_) => Ok(false)
  }

  /**
   * `clean_html_from_text`: a missing value stays missing, anything else is cleaned as the text `str()` gives
   * it, and a value whose missingness has no truth value raises. `extractText` stands for the HTML parser's
   * text extraction.
   */
  function CleanHtml(v: Value, extractText: string -> string): (r: Result<Value>)
    ensures r.Err? <==> IsMissing(v).Err?
    ensures r.Err? ==> r.error == AmbiguousTruth
    ensures r.Ok? ==> (r.value.Null? <==> IsMissing(v).value)
    ensures r.Ok? && !r.value.Null? ==> r.value == Text(extractText(Str(v)))
  {
    match IsMissing(v)
    case Err(e) => Err(e)
    case Ok(missing) => if missing then Ok(Null) else Ok(Text(extractText(Str(v))))
  }

  /**
   * A list in a cleaned column: two or more elements, or none, raise `ValueError`; a single element decides
   * as the element itself would, so `[None]` becomes None and `["<b>a</b>"]` is cleaned from its `str()`.
   */
  lemma CleanHtmlList(items: seq<Value>, repr: string, extractText: string -> string)
    ensures |items| != 1 ==> CleanHtml(List(items, repr), extractText) == Err(AmbiguousTruth)
    ensures |items| == 1 && (items[0].Null? || items[0].NaN?) ==> CleanHtml(List(items, repr), extractText) == Ok(Null)
    ensures |items| == 1 && (items[0].Text? || items[0].Other?) ==>
              CleanHtml(List(items, repr), extractText) == Ok(Text(extractText(repr)))
  {
  }

  /** The columns that are cleaned. */
  const ColumnsToClean: seq<string> := ["description", "summary", "benefits", "how_to_buy", "keywords"]

  lemma ColumnsDistinct()
    ensures forall i, j :: 0 <= i < j < |ColumnsToClean| ==> ColumnsToClean[i] != ColumnsToClean[j]
  {
    assert ColumnsToClean[2][0] != ColumnsToClean[4][0];
  }

  /** Whether cleaning a record raises: some cleaned column holds a value whose missingness has no truth value. */
  predicate Raises(record: Record)
  {
    exists k :: k in record && k in ColumnsToClean && IsMissing(record[k]).Err?
  }

  /** What one field becomes: a column to clean with a non-None value is cleaned, anything else is copied. */
  function CleanedField(key: string, v: Value, extractText: string -> string): Result<Value>
  {
    if key in ColumnsToClean && !v.Null? then CleanHtml(v, extractText) else Ok(v)
  }

  /** The cleaned copy of a record, or the `ValueError` that cleaning raises. */
  function CleanedRecord(record: Record, extractText: string -> string): Result<Record>
  {
    if Raises(record) then Err(AmbiguousTruth)
    else Ok(map k | k in record :: CleanedField(k, record[k], extractText).value)
  }

  /**
   * Cleaning fails exactly when a cleaned column holds a list without a single truth value. Otherwise it
   * keeps the set of fields, copies every field outside the five columns (and every None) as it is, turns
   * a missing value in a cleaned column into None, and replaces any other by the text extracted from its `str()`.
   */
  lemma CleanedRecordSpec(record: Record, extractText: string -> string)
    ensures CleanedRecord(record, extractText).Err? <==>
              exists k :: k in record && k in ColumnsToClean && IsMissing(record[k]).Err?
    ensures var c := CleanedRecord(record, extractText);
            c.Ok? ==>
            c.value.Keys == record.Keys
            && (forall k :: k in record && k !in ColumnsToClean ==> c.value[k] == record[k])
            && (forall k :: k in record && record[k].Null? ==> c.value[k].Null?)
            && (forall k :: k in record && k in ColumnsToClean && IsMissing(record[k]) == Ok(true) ==> c.value[k].Null?)
            && (forall k :: k in record && k in ColumnsToClean && IsMissing(record[k]) == Ok(false) ==>
                  c.value[k] == Text(extractText(Str(record[k]))))
  {
  }

  /** The per-record copy, cleaned column by column as the source's inner loop does. */
  method CleanRecord(record: Record, extractText: string -> string) returns (cleanedRecord: Result<Record>)
    ensures cleanedRecord == CleanedRecord(record, extractText)
  {
    ColumnsDistinct();
    var cleaned := record;
    for i := 0 to |ColumnsToClean|
      invariant CleanedOn(record, cleaned, ColumnsToClean[..i], extractText)
    {
      var col := ColumnsToClean[i];
      assert ColumnsToClean[..i + 1] == ColumnsToClean[..i] + [col];
      assert col !in ColumnsToClean[..i];
      if col in cleaned && !cleaned[col].Null? {
        var c := CleanHtml(cleaned[col], extractText);
        if c.Err? {
          assert IsMissing(record[col]).Err?;
          return Err(c.error);
        }
        CleanStep(record, cleaned, ColumnsToClean[..i], col, extractText);
        cleaned := cleaned[col := c.value];
      } else {
        CleanStep(record, cleaned, ColumnsToClean[..i], col, extractText);
      }
    }
    assert ColumnsToClean[..|ColumnsToClean|] == ColumnsToClean;
    CleanedAll(record, cleaned, extractText);
    cleanedRecord := Ok(cleaned);
  }

  /**
   * `cleaned` is `record` with the columns `cols` cleaned (none of them raising) and every other field as
   * it was.
   */
  predicate CleanedOn(record: Record, cleaned: Record, cols: seq<string>, extractText: string -> string)
  {
    cleaned.Keys == record.Keys
    && (forall k :: k in record && k in cols ==> IsMissing(record[k]).Ok?)
    && forall k :: k in record ==>
         cleaned[k] == if k in cols && !record[k].Null? then CleanHtml(record[k], extractText).value else record[k]
  }

  /** Cleaning one more column, not cleaned before and not raising, extends the cleaned columns by it. */
  lemma CleanStep(record: Record, cleaned: Record, cols: seq<string>, col: string, extractText: string -> string)
    requires CleanedOn(record, cleaned, cols, extractText) && col !in cols
    requires col in cleaned && !cleaned[col].Null? ==> CleanHtml(cleaned[col], extractText).Ok?
    ensures CleanedOn(record,
                      if col in cleaned && !cleaned[col].Null? then cleaned[col := CleanHtml(cleaned[col], extractText).value]
                      else cleaned,
                      cols + [col], extractText)
  {
    forall k | k in record ensures (k in cols + [col]) == (k in cols || k == col) {
    }
  }

  /** Once every column is cleaned without raising, the copy is the cleaned record. */
  lemma CleanedAll(record: Record, cleaned: Record, extractText: string -> string)
    requires CleanedOn(record, cleaned, ColumnsToClean, extractText)
    ensures CleanedRecord(record, extractText) == Ok(cleaned)
  {
    assert !Raises(record);
    var m := map k | k in record :: CleanedField(k, record[k], extractText).value;
    assert forall k :: k in record ==> m[k] == cleaned[k];
    assert m == cleaned;
  }

  /** The cleaned copies of a page's records, in order, or the error of the first record that raises. */
  function CleanedResults(results: seq<Record>, extractText: string -> string): (r: Result<seq<Record>>)
    ensures r.Err? ==> r.error == AmbiguousTruth
  {
    MapAll(results, r => CleanedRecord(r, extractText))
  }

  method CleanResults(results: seq<Record>, extractText: string -> string) returns (cleanedResults: Result<seq<Record>>)
    ensures cleanedResults == CleanedResults(results, extractText)
  {
    var cleaned: seq<Record> := [];
    for i := 0 to |results|
      invariant |cleaned| == i
      invariant forall k :: 0 <= k < i ==> CleanedRecord(results[k], extractText) == Ok(cleaned[k])
    {
      var cleanedRecord := CleanRecord(results[i], extractText);
      if cleanedRecord.Err? {
        FirstErr(results, extractText, i);
        return Err(cleanedRecord.error);
      }
      cleaned := cleaned + [cleanedRecord.value];
    }
    cleanedResults := Ok(cleaned);
    assert CleanedResults(results, extractText).Ok?;
    assert CleanedResults(results, extractText).value == cleaned;
  }

  /** Every failure of cleaning is the same `ValueError`, so the first failing record decides the page's error. */
  lemma FirstErr(results: seq<Record>, extractText: string -> string, i: nat)
    requires i < |results| && CleanedRecord(results[i], extractText).Err?
    ensures CleanedResults(results, extractText) == Err(AmbiguousTruth)
  {
    assert CleanedResults(results, extractText).Err?;
  }

  /**
   * The answer to one page request: a request error (a failed connection, an HTTP error status or a body
   * that is not JSON), or the decoded body's `results` (absent reads as empty) and `meta.last_page`.
   */
  datatype PageResponse = RequestError | Page(results: seq<Record>, lastPage: Option<int>)

  /** The query parameters of one request. */
  datatype Params = Params(status: string, limit: int, page: int)

  /** What the API answers for page `n`: the `n`-th given response, an empty page past them. */
  function Fetch(pages: seq<PageResponse>, n: int): PageResponse
  {
    if 1 <= n <= |pages| then pages[n - 1] else Page([], None)
  }

  /** `meta.get('last_page', page_number)`. */
  function TotalPages(resp: PageResponse, n: int): int
    requires resp.Page?
  {
    if resp.lastPage.Some? then resp.lastPage.value else n
  }

  /** Whether the loop goes on to the next page after requesting page `n`. */
  predicate Continues(resp: PageResponse, n: int)
  {
    resp.Page? && resp.results != [] && n < TotalPages(resp, n)
  }

  /** The cleaned records of page `n` (none after a request error), or the `ValueError` cleaning raises. */
  function Cleaned(resp: PageResponse, clean: seq<Record> -> Result<seq<Record>>): Result<seq<Record>>
  {
    if resp.Page? then clean(resp.results) else Ok([])
  }

  /** The records page `n` adds when its cleaning does not raise. */
  function Contribution(resp: PageResponse, clean: seq<Record> -> Result<seq<Record>>): seq<Record>
  {
    match Cleaned(resp, clean)
    case Ok(records) => records
    case Err(_) => []
  }

  /**
   * The records collected from page `n` on, the number of the last page requested, and whether the loop
   * ended by the `ValueError` of cleaning, which no `except` catches.
   */
  datatype Outcome = Outcome(records: seq<Record>, lastRequested: int, raised: bool)

  function Run(pages: seq<PageResponse>, clean: seq<Record> -> Result<seq<Record>>, n: int): Outcome
    requires n >= 1
    decreases |pages| + 1 - n
  {
    var resp := Fetch(pages, n);
    if Cleaned(resp, clean).Err? then Outcome([], n, true)
    else if !Continues(resp, n) then Outcome(Contribution(resp, clean), n, false)
    else
      var rest := Run(pages, clean, n + 1);
      Outcome(Contribution(resp, clean) + rest.records, rest.lastRequested, rest.raised)
  }

  /** The records of pages `n` to `m`, in page order. */
  function Collected(pages: seq<PageResponse>, clean: seq<Record> -> Result<seq<Record>>, n: int, m: int): seq<Record>
    decreases m - n
  {
    if m < n then [] else Collected(pages, clean, n, m - 1) + Contribution(Fetch(pages, m), clean)
  }

  lemma {:induction false} CollectedCons(pages: seq<PageResponse>, clean: seq<Record> -> Result<seq<Record>>, n: int, m: int)
    requires n <= m
    ensures Collected(pages, clean, n, m)
            == Contribution(Fetch(pages, n), clean) + Collected(pages, clean, n + 1, m)
    decreases m - n
  {
    var c := (k: int) => Contribution(Fetch(pages, k), clean);
    if n < m {
      CollectedCons(pages, clean, n, m - 1);
      assert Collected(pages, clean, n, m) == Collected(pages, clean, n, m - 1) + c(m);
      assert Collected(pages, clean, n + 1, m) == Collected(pages, clean, n + 1, m - 1) + c(m);
      Regroup(c(n), Collected(pages, clean, n + 1, m - 1), c(m));
    } else {
      assert Collected(pages, clean, n, m) == Collected(pages, clean, n, m - 1) + c(m);
      assert Collected(pages, clean, n, m - 1) == [] && Collected(pages, clean, n + 1, m) == [];
    }
  }

  /**
   * From page `n`, the pages requested are `n`, `n + 1`, ... up to the last one: every page before the last
   * was cleaned and had results and a last page beyond it. The run raised exactly when cleaning the last
   * page raised; otherwise that page did not continue (it failed, was empty or reached `last_page`, which
   * defaults to the page itself), and the records are those of all requested pages in order.
   */
  lemma {:induction false} RunSpec(pages: seq<PageResponse>, clean: seq<Record> -> Result<seq<Record>>, n: int)
    requires n >= 1
    ensures var o := Run(pages, clean, n);
            n <= o.lastRequested
            && (forall k :: n <= k < o.lastRequested ==>
                  Cleaned(Fetch(pages, k), clean).Ok? && Continues(Fetch(pages, k), k))
            && (o.raised <==> Cleaned(Fetch(pages, o.lastRequested), clean).Err?)
            && (!o.raised ==> !Continues(Fetch(pages, o.lastRequested), o.lastRequested)
                              && o.records == Collected(pages, clean, n, o.lastRequested))
    decreases |pages| + 1 - n
  {
    var resp := Fetch(pages, n);
    if Cleaned(resp, clean).Err? {
    } else if !Continues(resp, n) {
      assert Collected(pages, clean, n, n - 1) == [];
    } else {
      RunSpec(pages, clean, n + 1);
      var o := Run(pages, clean, n + 1);
      if !o.raised {
        CollectedCons(pages, clean, n, o.lastRequested);
      }
    }
  }

  /** One page of the run: the loop's stop tests are the negation of `Continues`, checked after cleaning. */
  lemma RunStep(pages: seq<PageResponse>, clean: seq<Record> -> Result<seq<Record>>, n: int)
    requires n >= 1
    ensures var resp := Fetch(pages, n);
            Continues(resp, n) <==> !resp.RequestError? && resp.results != []
                                    && !(n >= (if resp.lastPage.Some? then resp.lastPage.value else n))
    ensures var resp := Fetch(pages, n);
            if Cleaned(resp, clean).Err? then
              Run(pages, clean, n) == Outcome([], n, true)
            else if Continues(resp, n) then
              Run(pages, clean, n).records == Cleaned(resp, clean).value + Run(pages, clean, n + 1).records
              && Run(pages, clean, n).lastRequested == Run(pages, clean, n + 1).lastRequested
              && Run(pages, clean, n).raised == Run(pages, clean, n + 1).raised
            else
              Run(pages, clean, n) == Outcome(Contribution(resp, clean), n, false)
  {
  }

  /** The cleaning of a page's records that the fetch applies. */
  function CleanWith(extractText: string -> string): seq<Record> -> Result<seq<Record>>
  {
    results => CleanedResults(results, extractText)
  }

  /**
   * `fetch_all_ccs_frameworks`: the loop over pages with the cleaning of `CleanResults`. It returns the
   * records (None when there are none), or the `ValueError` that escapes it, and the parameters of every
   * request it made, in order.
   */
  method FetchAllCcsFrameworks(pages: seq<PageResponse>, extractText: string -> string, status: string)
    returns (df: Result<Option<seq<Record>>>, requested: seq<Params>)
    ensures var o := Run(pages, CleanWith(extractText), 1);
            (o.raised ==> df == Err(AmbiguousTruth))
            && (!o.raised ==> df == Ok(if o.records == [] then None else Some(o.records)))
            && |requested| == o.lastRequested
            && (forall k :: 0 <= k < |requested| ==> requested[k] == Params(status, 300, k + 1))
  {
    assert CleanWith(extractText)([]) == Ok([]);
    df, requested := FetchPages(pages, CleanWith(extractText), status);
  }

  /**
   * The `while True` loop, for a page cleaning `clean` that either gives the cleaned records or raises
   * `ValueError` (as `CleanedResults` does).
   */
  method FetchPages(pages: seq<PageResponse>, clean: seq<Record> -> Result<seq<Record>>, status: string)
    returns (df: Result<Option<seq<Record>>>, requested: seq<Params>)
    requires clean([]) == Ok([])
    requires forall results :: clean(results).Err? ==> clean(results).error == AmbiguousTruth
    ensures var o := Run(pages, clean, 1);
            (o.raised ==> df == Err(AmbiguousTruth))
            && (!o.raised ==> df == Ok(if o.records == [] then None else Some(o.records)))
            && |requested| == o.lastRequested
            && (forall k :: 0 <= k < |requested| ==> requested[k] == Params(status, 300, k + 1))
  {
    var pageNumber := 1;
    var allFrameworks: seq<Record> := [];
    requested := [];
    assert [] + Run(pages, clean, 1).records == Run(pages, clean, 1).records;
    while true
      invariant pageNumber >= 1
      invariant Run(pages, clean, 1) == Joined(allFrameworks, Run(pages, clean, pageNumber))
      invariant |requested| == pageNumber - 1
      invariant forall k :: 0 <= k < |requested| ==> requested[k] == Params(status, 300, k + 1)
      decreases |pages| + 1 - pageNumber
    {
      requested := requested + [Params(status, 300, pageNumber)];
      var response := Fetch(pages, pageNumber);
      if response.RequestError? {
        JoinedStop(pages, clean, pageNumber, allFrameworks);
        assert allFrameworks + [] == allFrameworks;
        break;
      }
      var results := response.results;
      if results == [] {
        JoinedStop(pages, clean, pageNumber, allFrameworks);
        assert allFrameworks + [] == allFrameworks;
        break;
      }
      var cleanedResults := clean(results);
      if cleanedResults.Err? {
        JoinedRaise(pages, clean, pageNumber, allFrameworks);
        return Err(cleanedResults.error), requested;
      }
      var totalPages := if response.lastPage.Some? then response.lastPage.value else pageNumber;
      if pageNumber >= totalPages {
        JoinedStop(pages, clean, pageNumber, allFrameworks);
        allFrameworks := allFrameworks + cleanedResults.value;
        break;
      }
      JoinedStep(pages, clean, pageNumber, allFrameworks);
      allFrameworks := allFrameworks + cleanedResults.value;
      pageNumber := pageNumber + 1;
    }
    if allFrameworks != [] {
      df := Ok(Some(allFrameworks));
    } else {
      df := Ok(None);
    }
  }

  /** The outcome of a run from some page on, after the records `pre` of the pages before it. */
  function Joined(pre: seq<Record>, o: Outcome): Outcome
  {
    Outcome(pre + o.records, o.lastRequested, o.raised)
  }

  /** A page that is cleaned and continues passes its records on to the run from the next page. */
  lemma JoinedStep(pages: seq<PageResponse>, clean: seq<Record> -> Result<seq<Record>>, n: int, pre: seq<Record>)
    requires n >= 1 && Cleaned(Fetch(pages, n), clean).Ok? && Continues(Fetch(pages, n), n)
    ensures Joined(pre, Run(pages, clean, n))
            == Joined(pre + Cleaned(Fetch(pages, n), clean).value, Run(pages, clean, n + 1))
  {
    Regroup(pre, Cleaned(Fetch(pages, n), clean).value, Run(pages, clean, n + 1).records);
  }

  /** A page that is cleaned and does not continue ends the run with its records. */
  lemma JoinedStop(pages: seq<PageResponse>, clean: seq<Record> -> Result<seq<Record>>, n: int, pre: seq<Record>)
    requires n >= 1 && Cleaned(Fetch(pages, n), clean).Ok? && !Continues(Fetch(pages, n), n)
    ensures Joined(pre, Run(pages, clean, n)) == Outcome(pre + Cleaned(Fetch(pages, n), clean).value, n, false)
  {
  }

  /** A page whose cleaning raises ends the run with the error. */
  lemma JoinedRaise(pages: seq<PageResponse>, clean: seq<Record> -> Result<seq<Record>>, n: int, pre: seq<Record>)
    requires n >= 1 && Cleaned(Fetch(pages, n), clean).Err?
    ensures Joined(pre, Run(pages, clean, n)) == Outcome(pre, n, true)
  {
    assert pre + [] == pre;
  }

  lemma Regroup(a: seq<Record>, b: seq<Record>, c: seq<Record>)
    ensures a + (b + c) == (a + b) + c
  {
  }

  /** A request error ends the fetch but keeps what the earlier pages gave. */
  lemma ErrorKeepsEarlierPages(pages: seq<PageResponse>, clean: seq<Record> -> Result<seq<Record>>, m: int)
    requires 1 <= m && Fetch(pages, m).RequestError?
    requires forall k :: 1 <= k < m ==> Cleaned(Fetch(pages, k), clean).Ok? && Continues(Fetch(pages, k), k)
    ensures Run(pages, clean, 1).lastRequested == m && !Run(pages, clean, 1).raised
    ensures Run(pages, clean, 1).records == Collected(pages, clean, 1, m - 1)
  {
    RunSpec(pages, clean, 1);
    assert !Continues(Fetch(pages, m), m) && Cleaned(Fetch(pages, m), clean) == Ok([]);
    assert Collected(pages, clean, 1, m) == Collected(pages, clean, 1, m - 1) + [];
  }

  /**
   * A list of two or more elements in a cleaned column of a page's record aborts the whole fetch with the
   * `ValueError`, whatever the earlier pages gave.
   */
  lemma ListAbortsFetch(pages: seq<PageResponse>, extractText: string -> string, m: int, i: nat, col: string)
    requires 1 <= m && Fetch(pages, m).Page? && i < |Fetch(pages, m).results|
    requires col in ColumnsToClean && col in Fetch(pages, m).results[i]
    requires Fetch(pages, m).results[i][col].List? && |Fetch(pages, m).results[i][col].items| >= 2
    requires forall k :: 1 <= k < m ==>
               Cleaned(Fetch(pages, k), CleanWith(extractText)).Ok? && Continues(Fetch(pages, k), k)
    ensures Run(pages, CleanWith(extractText), 1).raised && Run(pages, CleanWith(extractText), 1).lastRequested == m
  {
    var results := Fetch(pages, m).results;
    assert Raises(results[i]);
    FirstErr(results, extractText, i);
    assert Cleaned(Fetch(pages, m), CleanWith(extractText)).Err?;
    RunSpec(pages, CleanWith(extractText), 1);
  }

  /** A first page without `last_page` ends the fetch after it, records included, unless cleaning it raises. */
  lemma MissingLastPageStops(pages: seq<PageResponse>, clean: seq<Record> -> Result<seq<Record>>)
    requires Fetch(pages, 1).Page? && Fetch(pages, 1).lastPage.None?
    ensures Run(pages, clean, 1).lastRequested == 1
    ensures Run(pages, clean, 1).raised <==> Cleaned(Fetch(pages, 1), clean).Err?
    ensures !Run(pages, clean, 1).raised ==>
              Run(pages, clean, 1).records == Cleaned(Fetch(pages, 1), clean).value
  {
  }
}
