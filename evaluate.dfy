/**
 * The "RM directory" the evaluation script gives the labelling model: one line per framework row of the
 * fetched table, joined by line breaks.
 */
module Evaluate {
  import opened Base
  import opened CcsWebsiteData
  import Strings

  /** One row of the frameworks table, from column name to value. */
  type Row = map<string, Value>

  /** `row.<name>`: a missing column raises `AttributeError`. */
  function Attr(r: Row, name: string): (v: Result<Value>)
    ensures v.Ok? <==> name in r
    ensures v.Ok? ==> v.value == r[name]
  {
    if name in r then Ok(r[name])
    else Err("AttributeError: 'Series' object has no attribute '" + name + "'")
  }

  /** The keywords text: the value's string form, or `N/A` when the column is missing or blank. */
  function KeywordsField(r: Row): string
  {
    if "keywords" in r && Strings.PyStrip(Str(r["keywords"])) != "" then Str(r["keywords"]) else "N/A"
  }

  /** One line of the directory, its fields read in the order the f-string reads them. */
  function Line(r: Row): Result<string>
  {
    match Attr(r, "rm_number")
    case Err(e) => Err(e)
    case Ok(rm) =>
      var keywords := KeywordsField(r);
      match Attr(r, "summary")
      case Err(e) => Err(e)
      case Ok(summary) =>
        match Attr(r, "pillar")
        case Err(e) => Err(e)
        case Ok(pillar) =>
          match Attr(r, "category")
          case Err(e) => Err(e)
          case Ok(category) =>
            Ok(FormatLine(Str(rm), keywords, Str(summary), Str(pillar), Str(category)))
  }

  /** The line's text for the five field texts. */
  function FormatLine(rm: string, keywords: string, summary: string, pillar: string, category: string): string
  {
    "RM: " + rm + " | " + "Keywords: " + keywords + " | " + "Summary: " + summary + " | "
    + "Pillar: " + pillar + " (" + category + ")"
  }

  /** A line has a line break only where one of its fields has. */
  lemma FormatLineSingle(rm: string, keywords: string, summary: string, pillar: string, category: string)
    requires '\n' !in rm && '\n' !in keywords && '\n' !in summary && '\n' !in pillar && '\n' !in category
    ensures '\n' !in FormatLine(rm, keywords, summary, pillar, category)
  {
    assert '\n' !in "RM: " && '\n' !in " | " && '\n' !in "Keywords: " && '\n' !in "Summary: ";
    assert '\n' !in "Pillar: " && '\n' !in " (" && '\n' !in ")";
  }

  /** A line begins with its RM number and ends with its category in parentheses. */
  lemma FormatLineEnds(rm: string, keywords: string, summary: string, pillar: string, category: string)
    ensures var l := FormatLine(rm, keywords, summary, pillar, category);
            var head := "RM: " + rm + " | ";
            var c := " (" + category + ")";
            |head| <= |l| && l[..|head|] == head && |c| <= |l| && l[|l| - |c|..] == c
  {
    var head := "RM: " + rm + " | ";
    var rest := "Keywords: " + keywords + " | " + "Summary: " + summary + " | " + "Pillar: " + pillar;
    var c := " (" + category + ")";
    assert FormatLine(rm, keywords, summary, pillar, category) == head + rest + c;
    assert (head + rest + c)[..|head|] == head;
    assert (head + rest + c)[|head + rest|..] == c;
  }

  /** The four columns every line reads unconditionally. */
  predicate HasColumns(r: Row)
  {
    "rm_number" in r && "summary" in r && "pillar" in r && "category" in r
  }

  /** The lines of all rows in iteration order, or the error of the first row missing a column. */
  function Lines(rows: seq<Row>): Result<seq<string>>
  {
    MapAll(rows, Line)
  }

  /** A row gives a line exactly when it has the four columns. */
  lemma LineOk(r: Row)
    ensures Line(r).Ok? <==> HasColumns(r)
  {
  }

  /**
   * There are lines exactly when every row has the four columns, one per row in row order; otherwise the
   * error is the first failing row's missing column.
   */
  lemma LinesSpec(rows: seq<Row>)
    ensures Lines(rows).Ok? <==> forall k :: 0 <= k < |rows| ==> HasColumns(rows[k])
    ensures Lines(rows).Ok? ==>
              |Lines(rows).value| == |rows| && forall k :: 0 <= k < |rows| ==> Line(rows[k]) == Ok(Lines(rows).value[k])
    ensures Lines(rows).Err? ==>
              exists k :: 0 <= k < |rows| && !HasColumns(rows[k]) && Line(rows[k]) == Err(Lines(rows).error)
  {
    forall k | 0 <= k < |rows| ensures Line(rows[k]).Ok? <==> HasColumns(rows[k]) {
      LineOk(rows[k]);
    }
  }

  /** `rm_descriptions`: the lines joined by `"\n"`. */
  function RmDescriptions(rows: seq<Row>): Result<string>
  {
    match Lines(rows)
    case Err(e) => Err(e)
    case Ok(ls) => Ok(Strings.Join(ls, "\n"))
  }

  /** The columns of `pd.DataFrame(records)`: every field some record has. */
  function Columns(records: seq<Record>): (cols: set<string>)
    ensures forall key :: key in cols <==> HasColumn(records, key)
  {
    set j, key | 0 <= j < |records| && key in records[j] :: key
  }

  /** A row of the data frame, as `iterrows` gives it: every column, NaN where the record lacks the field. */
  function FrameRow(records: seq<Record>, record: Record): (r: Row)
    ensures forall key :: key in r <==> HasColumn(records, key)
    ensures forall key :: key in r ==> r[key] == Cell(record, key)
  {
    map key | key in Columns(records) :: Cell(record, key)
  }

  /** The rows of `pd.DataFrame(records)`, one per record, in order. */
  function Frame(records: seq<Record>): (rows: seq<Row>)
    ensures |rows| == |records|
    ensures forall i :: 0 <= i < |records| ==> rows[i] == FrameRow(records, records[i])
  {
    seq(|records|, i requires 0 <= i < |records| => FrameRow(records, records[i]))
  }

  /** `None.iterrows()`: the fetch found nothing and returned no table. */
  const NoTable: string := "AttributeError: 'NoneType' object has no attribute 'iterrows'"

  /** The script's `rm_descriptions` for what `fetch_all_ccs_frameworks()` returned. */
  function RmDirectory(fetched: Option<seq<Record>>): Result<string>
  {
    match fetched
    case None => Err(NoTable)
    case Some(records) => RmDescriptions(Frame(records))
  }

  /**
   * No table raises `AttributeError`. A table gives the directory exactly when it has no rows or each of
   * the four read fields is held by some record; a record lacking one of them then reads NaN.
   */
  lemma RmDirectorySpec(fetched: Option<seq<Record>>)
    ensures fetched.None? ==> RmDirectory(fetched) == Err(NoTable)
    ensures fetched.Some? ==>
              (RmDirectory(fetched).Ok? <==>
                 |fetched.value| == 0
                 || (HasColumn(fetched.value, "rm_number") && HasColumn(fetched.value, "summary")
                     && HasColumn(fetched.value, "pillar") && HasColumn(fetched.value, "category")))
  {
    if fetched.Some? {
      var records := fetched.value;
      var rows := Frame(records);
      LinesSpec(rows);
      var four := HasColumn(records, "rm_number") && HasColumn(records, "summary")
                  && HasColumn(records, "pillar") && HasColumn(records, "category");
      forall k | 0 <= k < |rows| ensures HasColumns(rows[k]) == four {
        FrameRowColumns(records, records[k]);
      }
      if |records| > 0 {
        assert HasColumns(rows[0]) == four;
      }
    }
  }

  /** A row of the data frame has the four read columns exactly when some record holds each. */
  lemma FrameRowColumns(records: seq<Record>, record: Record)
    ensures HasColumns(FrameRow(records, record)) ==
              (HasColumn(records, "rm_number") && HasColumn(records, "summary")
               && HasColumn(records, "pillar") && HasColumn(records, "category"))
  {
  }

  /**
   * A record without a keywords field, in a table where another record has one, shows `nan` as its
   * keywords: the row has the column, and its cell is NaN.
   */
  lemma AbsentKeywordsShowNan(records: seq<Record>, i: nat)
    requires i < |records| && HasColumn(records, "keywords") && "keywords" !in records[i]
    ensures KeywordsField(Frame(records)[i]) == "nan"
  {
    var r := Frame(records)[i];
    assert "keywords" in r && r["keywords"] == NaN;
    MissingKeywordsShown(r);
  }

  /** No value in a row has a line break in its string form. */
  predicate SingleLineValues(r: Row)
  {
    forall k :: k in r ==> '\n' !in Str(r[k])
  }

  /**
   * A line never contains a line break when the row's values have none, so splitting the directory at
   * line breaks gives back one line per row, in row order, with no trailing empty line.
   */
  lemma {:induction false} RmDescriptionsLines(rows: seq<Row>)
    requires |rows| >= 1
    requires forall k :: 0 <= k < |rows| ==> HasColumns(rows[k]) && SingleLineValues(rows[k])
    ensures RmDescriptions(rows).Ok?
    ensures var ls := Lines(rows).value;
            Strings.Split(RmDescriptions(rows).value, '\n') == ls
            && |ls| == |rows|
  {
    LinesSpec(rows);
    var ls := Lines(rows).value;
    forall k | 0 <= k < |ls| ensures '\n' !in ls[k] {
      LineSingle(rows[k]);
    }
    Strings.SplitJoin(ls, '\n');
  }

  /** A row whose values are single-line gives a single-line line. */
  lemma LineSingle(r: Row)
    requires HasColumns(r) && SingleLineValues(r)
    ensures Line(r).Ok? && '\n' !in Line(r).value
  {
    var keywords := KeywordsField(r);
    assert '\n' !in keywords by {
      if keywords == "N/A" {
        assert "N/A" == ['N', '/', 'A'];
      } else {
        assert keywords == Str(r["keywords"]);
      }
    }
    FormatLineSingle(Str(r["rm_number"]), keywords, Str(r["summary"]), Str(r["pillar"]), Str(r["category"]));
  }

  /** Each line begins with the row's RM number and ends with its category in parentheses. */
  lemma LineEnds(r: Row)
    requires HasColumns(r)
    ensures Line(r).Ok?
    ensures Strings.IsPrefix("RM: " + Str(r["rm_number"]) + " | ", Line(r).value)
    ensures var l := Line(r).value;
            var c := " (" + Str(r["category"]) + ")";
            |c| <= |l| && l[|l| - |c|..] == c
  {
    FormatLineEnds(Str(r["rm_number"]), KeywordsField(r), Str(r["summary"]), Str(r["pillar"]), Str(r["category"]));
  }

  /**
   * The keywords shown are `N/A` exactly when the column is missing, its string form is blank (only
   * whitespace), or it is literally `N/A`; otherwise they are the value's string form, never blank.
   */
  lemma KeywordsFieldSpec(r: Row)
    ensures KeywordsField(r) == "N/A" <==>
              "keywords" !in r
              || (forall k :: 0 <= k < |Str(r["keywords"])| ==> Strings.IsPythonSpace(Str(r["keywords"])[k]))
              || Str(r["keywords"]) == "N/A"
    ensures KeywordsField(r) != "N/A" ==> KeywordsField(r) == Str(r["keywords"])
    ensures exists k :: 0 <= k < |KeywordsField(r)| && !Strings.IsPythonSpace(KeywordsField(r)[k])
  {
    if "keywords" in r {
      Strings.StripEmpty(Str(r["keywords"]), Strings.IsPythonSpace);
      if Strings.PyStrip(Str(r["keywords"])) != "" {
        var k :| 0 <= k < |Str(r["keywords"])| && !Strings.IsPythonSpace(Str(r["keywords"])[k]);
        assert KeywordsField(r)[k] == Str(r["keywords"])[k];
      } else {
        assert !Strings.IsPythonSpace(KeywordsField(r)[0]);
      }
    } else {
      assert !Strings.IsPythonSpace(KeywordsField(r)[0]);
    }
  }

  /** A missing value in the keywords column is not blank: NaN shows as `nan` and None as `None`. */
  lemma MissingKeywordsShown(r: Row)
    requires "keywords" in r
    ensures r["keywords"].NaN? ==> KeywordsField(r) == "nan"
    ensures r["keywords"].Null? ==> KeywordsField(r) == "None"
  {
    var s := Str(r["keywords"]);
    if r["keywords"].NaN? || r["keywords"].Null? {
      assert s == "nan" || s == "None";
      assert !Strings.IsPythonSpace(s[0]);
      Strings.StripEmpty(s, Strings.IsPythonSpace);
    }
  }
}
