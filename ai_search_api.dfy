/**
 * The `/results` search endpoint: embed the upper-cased query, ask the vector index for its 40
 * nearest chunks (optionally filtered by status), keep the first chunk of each framework title until
 * `total_results` titles are kept, then rerank them with the Yes/No reranker.
 */
module AiSearchApi {
  import opened Base
  import Strings
  import Lists
  import Reranker

  /** The request body. */
  datatype SearchQuery = SearchQuery(query: string, totalResults: int, status: string)

  /** A vector query: the embedding, how many neighbours to look at, and the indexed field. */
  datatype VectorQuery = VectorQuery(vector: seq<real>, kNearestNeighbors: int, fields: string)

  /** The arguments of the index search call. */
  datatype SearchRequest = SearchRequest(
    searchText: Option<string>,
    vectorQueries: seq<VectorQuery>,
    filter: Option<string>,
    select: seq<string>,
    top: int)

  /** How many neighbours and hits are asked for. */
  const SearchWindow := 40

  /** The OData status filter: none for an empty status. */
  function FilterExpr(status: string): Option<string>
  {
    if status != "" then Some("status eq '" + status + "'") else None
  }

  /** An empty status means no filter; otherwise the filter holds the status verbatim between quotes. */
  lemma FilterExprShape(status: string)
    ensures FilterExpr(status).None? <==> status == ""
    ensures FilterExpr(status).Some? ==>
              var f := FilterExpr(status).value;
              |f| == |status| + 12 && f[..11] == "status eq '" && f[11..|f| - 1] == status && f[|f| - 1] == '\''
  {
    if status != "" {
      var f := FilterExpr(status).value;
      assert f == "status eq '" + status + "'";
      assert f[11..|f| - 1] == status;
    }
  }

  /** Different non-empty statuses give different filters. */
  lemma FilterExprInjective(s1: string, s2: string)
    requires FilterExpr(s1) == FilterExpr(s2)
    ensures s1 == s2
  {
    FilterExprShape(s1);
    FilterExprShape(s2);
  }

  /** The search call the endpoint makes for a query, given the embedding service. */
  function Request(query: SearchQuery, embed: string -> seq<real>): SearchRequest
  {
    SearchRequest(
      None,
      [VectorQuery(embed(Strings.Upper(query.query)), SearchWindow, "embedding")],
      FilterExpr(query.status),
      ["title", "rm_number", "description", "status"],
      SearchWindow)
  }

  /** The search is a pure vector search over the upper-cased query, 40 wide, with the status filter. */
  lemma RequestShape(query: SearchQuery, embed: string -> seq<real>)
    ensures var r := Request(query, embed);
            r.searchText.None?
            && |r.vectorQueries| == 1
            && r.vectorQueries[0].vector == embed(Strings.Upper(query.query))
            && r.vectorQueries[0].kNearestNeighbors == 40 && r.top == 40
            && r.vectorQueries[0].fields == "embedding"
            && (r.filter.None? <==> query.status == "")
            && |r.select| == 4
  {
    FilterExprShape(query.status);
  }

  /** The de-duplication key. */
  function Title(r: Reranker.SearchResult): string
  {
    r.title
  }

  /**
   * The results the loop keeps: the first hit of each title, cut at `total` titles when the loop's
   * stop test can fire (`total` at least 1 and at most the number of distinct titles), all of them otherwise.
   */
  function TopResults(results: seq<Reranker.SearchResult>, total: int): seq<Reranker.SearchResult>
  {
    var d := Lists.DedupBy(results, Title);
    if 1 <= total <= |d| then d[..total] else d
  }

  /** The loop over the hits with its set of seen titles; it stops as soon as `total` hits are kept. */
  method SelectTopResults(results: seq<Reranker.SearchResult>, total: int)
    returns (topResults: seq<Reranker.SearchResult>)
    ensures topResults == TopResults(results, total)
  {
    topResults := [];
    var seenTitles: set<string> := {};
    var i := 0;
    while i < |results|
      invariant 0 <= i <= |results|
      invariant topResults == Lists.DedupBy(results[..i], Title)
      invariant seenTitles == TitlesOf(topResults)
      invariant total >= 1 ==> |topResults| < total
    {
      var res := results[i];
      var title := res.title;
      SeenStep(results, i, topResults);
      if title !in seenTitles {
        topResults := topResults + [res];
        seenTitles := seenTitles + {title};
      }
      if |topResults| == total {
        StopAt(results, total, i + 1);
        return;
      }
      i := i + 1;
    }
    assert results[..i] == results;
  }

  /** The titles of a list of hits. */
  function TitlesOf(top: seq<Reranker.SearchResult>): set<string>
  {
    set k | 0 <= k < |top| :: top[k].title
  }

  /** One pass of the loop keeps the kept hits and the seen titles in step with the de-duplicated prefix. */
  lemma SeenStep(results: seq<Reranker.SearchResult>, i: nat, top: seq<Reranker.SearchResult>)
    requires i < |results| && top == Lists.DedupBy(results[..i], Title)
    ensures results[i].title in TitlesOf(top) ==> top == Lists.DedupBy(results[..i + 1], Title)
    ensures results[i].title !in TitlesOf(top) ==>
              top + [results[i]] == Lists.DedupBy(results[..i + 1], Title)
              && TitlesOf(top + [results[i]]) == TitlesOf(top) + {results[i].title}
  {
    Lists.DedupByStep(results, Title, i);
    TitlesOfMap(top, results[i].title);
    TitlesOfSnoc(top, results[i]);
  }

  /** A title is among the titles of a list exactly when it is in the list's mapped titles. */
  lemma TitlesOfMap(top: seq<Reranker.SearchResult>, t: string)
    ensures t in TitlesOf(top) <==> t in Lists.Map(top, Title)
  {
    var m := Lists.Map(top, Title);
    if t in TitlesOf(top) {
      var k :| 0 <= k < |top| && top[k].title == t;
      assert m[k] == t;
    }
    if t in m {
      var k :| 0 <= k < |m| && m[k] == t;
      assert top[k].title == t;
    }
  }

  /** Appending a hit adds its title. */
  lemma TitlesOfSnoc(top: seq<Reranker.SearchResult>, x: Reranker.SearchResult)
    ensures TitlesOf(top + [x]) == TitlesOf(top) + {x.title}
  {
    var top' := top + [x];
    forall t | t in TitlesOf(top') ensures t in TitlesOf(top) + {x.title} {
      var k :| 0 <= k < |top'| && top'[k].title == t;
      if k < |top| { assert top'[k] == top[k]; }
    }
    forall t | t in TitlesOf(top) ensures t in TitlesOf(top') {
      var k :| 0 <= k < |top| && top[k].title == t;
      assert top'[k] == top[k];
    }
    assert top'[|top|].title == x.title;
  }

  /** Once `n` hits give `total` titles, the titles kept so far are the endpoint's results. */
  lemma StopAt(results: seq<Reranker.SearchResult>, total: int, n: nat)
    requires n <= |results| && 1 <= total == |Lists.DedupBy(results[..n], Title)|
    ensures Lists.DedupBy(results[..n], Title) == TopResults(results, total)
  {
    Lists.DedupByPrefix(results, Title, n);
  }

  /** The kept hits have pairwise different titles and are hits of the search, in search order. */
  lemma TopResultsDistinct(results: seq<Reranker.SearchResult>, total: int)
    ensures var t := TopResults(results, total);
            (forall i, j :: 0 <= i < j < |t| ==> t[i].title != t[j].title)
            && t == Lists.DedupBy(results, Title)[..|t|]
            && forall x :: x in t ==> x in results
  {
    var d := Lists.DedupBy(results, Title);
    var t := TopResults(results, total);
    forall i, j | 0 <= i < j < |t| ensures t[i].title != t[j].title {
      assert t[i] == d[i] && t[j] == d[j];
      assert Title(d[i]) != Title(d[j]);
    }
    forall x | x in t ensures x in results {
      assert x in d;
    }
  }

  /**
   * How many hits are kept: `total` when `total` is at least 1 and there are that many titles, otherwise
   * one per distinct title of the search; each kept hit is the first hit with its title.
   */
  lemma TopResultsFirsts(results: seq<Reranker.SearchResult>, total: int)
    ensures var d := Lists.DedupBy(results, Title);
            var t := TopResults(results, total);
            d == Lists.Firsts(results, Title, |results|)
            && |t| == (if 1 <= total <= |d| then total else |d|)
            && t == d[..|t|]
  {
    Lists.DedupByIsFirsts(results, Title);
  }

  /** When the stop test cannot fire, every title of the search is represented. */
  lemma TopResultsCoverAll(results: seq<Reranker.SearchResult>, total: int)
    requires total < 1 || total > |Lists.DedupBy(results, Title)|
    ensures forall i :: 0 <= i < |results| ==> results[i].title in Lists.Map(TopResults(results, total), Title)
  {
    forall i | 0 <= i < |results| ensures results[i].title in Lists.Map(TopResults(results, total), Title) {
      assert Title(results[i]) == results[i].title;
    }
  }

  /**
   * `ai_search_api`: the search service and the reranking model's replies are parameters.
   * The query is embedded upper-cased but the reranker sees it as typed.
   */
  method AiSearch(
    query: SearchQuery,
    embed: string -> seq<real>,
    search: SearchRequest -> seq<Reranker.SearchResult>,
    llm: string -> string)
    returns (newResults: seq<Reranker.SearchResult>)
    ensures newResults == Reranker.Reranked(TopResults(search(Request(query, embed)), query.totalResults), query.query, llm)
  {
    var queryVector := embed(Strings.Upper(query.query));
    var vectorQuery := VectorQuery(queryVector, SearchWindow, "embedding");
    var filterExpr := FilterExpr(query.status);
    var results := search(SearchRequest(None, [vectorQuery], filterExpr, ["title", "rm_number", "description", "status"], SearchWindow));
    var topResults := SelectTopResults(results, query.totalResults);
    newResults := Reranker.RerankList(topResults, query.query, llm);
  }
}
