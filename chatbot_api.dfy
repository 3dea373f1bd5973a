/**
 * The `/results` endpoint: the per-user graph cache, the thread configuration, and the loading of the
 * document-URL table with its empty-table fallback.
 */
module ChatbotApi {
  import opened Base
  import opened Messages
  import Lists
  import MultiturnUtils

  /** A compiled conversation graph; `serial` tells apart the graphs built by different requests. */
  datatype Graph = Graph(serial: nat)

  /** The request body: who asks, and what. */
  datatype SearchQuery = SearchQuery(userId: string, query: string)

  /** The run configuration handed to the graph: the conversation thread to resume. */
  datatype Config = Config(threadId: string)

  /** The configuration of a request: the thread is the user's own id. */
  function ConfigFor(q: SearchQuery): (c: Config)
    ensures c.threadId == q.userId
  {
    Config(q.userId)
  }

  /** The column names the CSV uses, renamed to those `format_sources` reads. */
  function RenameColumn(c: string): string
  {
    if c == "FileName" then "File Name" else if c == "AzureURL" then "File URL" else c
  }

  /**
   * `load_files_for_links`: the downloaded table with `FileName`/`AzureURL` renamed to `File Name`/`File URL`,
   * or an empty table when the download or the parse fails.
   */
  function LoadFilesForLinks(download: Result<MultiturnUtils.Frame>): (r: MultiturnUtils.Frame)
    ensures download.Err? ==> r == MultiturnUtils.Frame([], [])
    ensures download.Ok? ==> r.rows == download.value.rows && |r.columns| == |download.value.columns|
    ensures download.Ok? ==> forall k :: 0 <= k < |r.columns| ==>
              (r.columns[k] == "File Name" <==> download.value.columns[k] in {"FileName", "File Name"})
              && (r.columns[k] == "File URL" <==> download.value.columns[k] in {"AzureURL", "File URL"})
              && (download.value.columns[k] !in {"FileName", "AzureURL"} ==> r.columns[k] == download.value.columns[k])
  {
    match download
    case Err(_) => MultiturnUtils.Frame([], [])
    case Ok(f) => MultiturnUtils.Frame(Lists.Map(f.columns, RenameColumn), f.rows)
  }

  /** Renaming keeps the table rectangular, so it can be given to `format_sources`. */
  lemma LoadKeepsRectangular(download: Result<MultiturnUtils.Frame>)
    requires download.Ok? ==> MultiturnUtils.Rectangular(download.value)
    ensures MultiturnUtils.Rectangular(LoadFilesForLinks(download))
  {
  }

  /** On the fallback empty table, `format_sources` fails for any non-empty list of names (no `File Name` column). */
  lemma FallbackTableFails(names: seq<string>)
    requires names != []
    ensures MultiturnUtils.FormatSourcesOf(names, LoadFilesForLinks(Err("download failed"))).Err?
  {
    var f := LoadFilesForLinks(Err("download failed"));
    var u := Lists.DedupBy(names, MultiturnUtils.Name);
    assert MultiturnUtils.Name(names[0]) in Lists.Map(u, MultiturnUtils.Name);
    assert MultiturnUtils.LinkFor(u[0], f).Err?;
  }

  /** The API process's module-level state: the graph of every user seen so far. */
  class App {
    var graphs: map<string, Graph>
    /** How many graphs were built so far (the next graph's serial). */
    var built: nat

    /** Every cached graph was built earlier, and no two users share one. */
    predicate Valid()
      reads this
    {
      (forall u :: u in graphs ==> graphs[u].serial < built)
      && (forall u, v :: u in graphs && v in graphs && u != v ==> graphs[u] != graphs[v])
    }

    constructor()
      ensures Valid() && graphs == map[] && built == 0
    {
      graphs := map[];
      built := 0;
    }

    /**
     * `ai_search_api`: loads the URL table (not used further), builds a graph only for a user id not seen
     * before and caches it, then answers one turn on that user's thread. `stream` stands for running the
     * graph on the input with the configuration, as `answer_once` receives the streamed steps.
     */
    method AiSearchApi(query: SearchQuery, download: Result<MultiturnUtils.Frame>,
                       stream: (Graph, string, Config) -> seq<seq<MultiturnUtils.StepMessage>>)
      returns (urls: MultiturnUtils.Frame, response: Result<MultiturnUtils.Answer>)
      requires Valid()
      modifies this
      ensures Valid()
      ensures urls == LoadFilesForLinks(download)
      ensures query.userId in old(graphs) ==> graphs == old(graphs) && built == old(built)
      ensures query.userId !in old(graphs) ==>
                graphs == old(graphs)[query.userId := Graph(old(built))] && built == old(built) + 1
      ensures query.userId in graphs
      ensures forall u :: u in old(graphs) ==> u in graphs && graphs[u] == old(graphs)[u]
      ensures response == MultiturnUtils.AnswerOf(stream(graphs[query.userId], query.query, ConfigFor(query)))
    {
      urls := LoadFilesForLinks(download);
      if query.userId !in graphs {
        graphs := graphs[query.userId := Graph(built)];
        built := built + 1;
      }
      var graph := graphs[query.userId];
      var config := ConfigFor(query);
      response := MultiturnUtils.AnswerOnce(stream(graph, query.query, config));
    }
  }

  /** Two requests of the same user: the second reuses the first one's graph and builds nothing. */
  method SameUserReusesGraph(app: App, q1: SearchQuery, q2: SearchQuery,
                               download: Result<MultiturnUtils.Frame>,
                               stream: (Graph, string, Config) -> seq<seq<MultiturnUtils.StepMessage>>)
    returns (g1: Graph, g2: Graph)
    requires app.Valid() && q1.userId == q2.userId
    modifies app
    ensures g1 == g2 && app.built <= old(app.built) + 1
  {
    var urls1, response1 := app.AiSearchApi(q1, download, stream);
    g1 := app.graphs[q1.userId];
    var urls2, response2 := app.AiSearchApi(q2, download, stream);
    g2 := app.graphs[q2.userId];
  }
}
