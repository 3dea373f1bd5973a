/**
 * The Yes/No reranker: every search result is shown to the model with the user's query, and the
 * results whose answer mentions "Yes" come first, followed by those whose answer mentions "No".
 */
module Reranker {
  import Strings
  import Lists
  import SystemPrompt

  /** A search hit with the fields the index query selects. */
  datatype SearchResult = SearchResult(title: string, rmNumber: string, description: string, status: string)

  /** The text a result is judged by: its title, one space, its description. */
  function FullText(r: SearchResult): string
  {
    r.title + " " + r.description
  }

  /** The prompt one result is judged with. */
  function PromptFor(userQuery: string, r: SearchResult): string
  {
    SystemPrompt.Prompt(userQuery, FullText(r))
  }

  /**
   * Whether the model's reply to a result's prompt contains `word` (a case-sensitive substring test).
   * `llm` stands for the model call and the `content` of its reply.
   */
  function Says(userQuery: string, llm: string -> string, word: string): SearchResult -> bool
  {
    (r: SearchResult) => Strings.Contains(llm(PromptFor(userQuery, r)), word)
  }

  /** The reranked list: the "Yes" results in input order, then the "No" results in input order. */
  function Reranked(results: seq<SearchResult>, userQuery: string, llm: string -> string): seq<SearchResult>
  {
    Lists.Filter(results, Says(userQuery, llm, "Yes")) + Lists.Filter(results, Says(userQuery, llm, "No"))
  }

  /** `rerank_list`: one model call per result, two lists filled in one pass, then concatenated. */
  method RerankList(results: seq<SearchResult>, userQuery: string, llm: string -> string)
    returns (reranked: seq<SearchResult>)
    ensures reranked == Reranked(results, userQuery, llm)
  {
    var goodList: seq<SearchResult> := [];
    var badList: seq<SearchResult> := [];
    for i := 0 to |results|
      invariant goodList == Lists.Filter(results[..i], Says(userQuery, llm, "Yes"))
      invariant badList == Lists.Filter(results[..i], Says(userQuery, llm, "No"))
    {
      var result := results[i];
      var fullText := result.title + " " + result.description;
      var sysPrompt := SystemPrompt.Prompt(userQuery, fullText);
      var response := llm(sysPrompt);
      JudgeStep(results, userQuery, llm, i, response);
      if Strings.Contains(response, "Yes") {
        goodList := goodList + [result];
      }
      if Strings.Contains(response, "No") {
        badList := badList + [result];
      }
    }
    assert results[..|results|] == results;
    reranked := goodList + badList;
  }

  /** One step of the loop: the reply to result `i` decides whether the two filters grow by it. */
  lemma JudgeStep(results: seq<SearchResult>, userQuery: string, llm: string -> string, i: nat, response: string)
    requires i < |results|
    requires response == llm(SystemPrompt.Prompt(userQuery, results[i].title + " " + results[i].description))
    ensures Lists.Filter(results[..i + 1], Says(userQuery, llm, "Yes"))
            == Lists.Filter(results[..i], Says(userQuery, llm, "Yes"))
               + (if Strings.Contains(response, "Yes") then [results[i]] else [])
    ensures Lists.Filter(results[..i + 1], Says(userQuery, llm, "No"))
            == Lists.Filter(results[..i], Says(userQuery, llm, "No"))
               + (if Strings.Contains(response, "No") then [results[i]] else [])
  {
    assert FullText(results[i]) == results[i].title + " " + results[i].description;
    assert response == llm(PromptFor(userQuery, results[i]));
    assert Says(userQuery, llm, "Yes")(results[i]) == Strings.Contains(response, "Yes");
    assert Says(userQuery, llm, "No")(results[i]) == Strings.Contains(response, "No");
    Lists.FilterStep(results, Says(userQuery, llm, "Yes"), i);
    Lists.FilterStep(results, Says(userQuery, llm, "No"), i);
  }

  /**
   * Every result occurs once per word its reply mentions: twice when the reply has both "Yes" and "No",
   * not at all when it has neither; nothing else ever appears.
   */
  lemma {:induction false} RerankedCount(results: seq<SearchResult>, userQuery: string, llm: string -> string, x: SearchResult)
    ensures multiset(Reranked(results, userQuery, llm))[x] ==
            (if Says(userQuery, llm, "Yes")(x) then multiset(results)[x] else 0)
            + (if Says(userQuery, llm, "No")(x) then multiset(results)[x] else 0)
  {
    Lists.FilterCount(results, Says(userQuery, llm, "Yes"), x);
    Lists.FilterCount(results, Says(userQuery, llm, "No"), x);
  }

  /** The reranked list is at most twice as long as its input. */
  lemma RerankedLength(results: seq<SearchResult>, userQuery: string, llm: string -> string)
    ensures |Reranked(results, userQuery, llm)| <= 2 * |results|
  {
  }

  /** The first part holds only "Yes" results and the rest only "No" results, each part in input order. */
  lemma RerankedParts(results: seq<SearchResult>, userQuery: string, llm: string -> string)
    ensures var yes := Lists.Filter(results, Says(userQuery, llm, "Yes"));
            var r := Reranked(results, userQuery, llm);
            r[..|yes|] == yes
            && (forall k :: 0 <= k < |yes| ==> Strings.Contains(llm(PromptFor(userQuery, r[k])), "Yes"))
            && (forall k :: |yes| <= k < |r| ==> Strings.Contains(llm(PromptFor(userQuery, r[k])), "No"))
  {
    var yes := Lists.Filter(results, Says(userQuery, llm, "Yes"));
    var no := Lists.Filter(results, Says(userQuery, llm, "No"));
    var r := Reranked(results, userQuery, llm);
    assert r[..|yes|] == yes;
    forall k | 0 <= k < |yes| ensures Strings.Contains(llm(PromptFor(userQuery, r[k])), "Yes") {
      assert r[k] in yes;
    }
    forall k | |yes| <= k < |r| ensures Strings.Contains(llm(PromptFor(userQuery, r[k])), "No") {
      assert r[k] == no[k - |yes|];
      assert r[k] in no;
    }
  }

  /** The test is case-sensitive: a result the model answers with a lower-case "yes" is dropped. */
  lemma LowerCaseYesDropped(results: seq<SearchResult>, userQuery: string, llm: string -> string, x: SearchResult)
    requires llm(PromptFor(userQuery, x)) == "yes"
    ensures multiset(Reranked(results, userQuery, llm))[x] == 0
  {
    RerankedCount(results, userQuery, llm, x);
    LowerCaseYesMentionsNeither();
  }

  /** "yes" contains neither "Yes" nor "No". */
  lemma LowerCaseYesMentionsNeither()
    ensures !Strings.Contains("yes", "Yes") && !Strings.Contains("yes", "No")
  {
    assert !Strings.Contains("", "Yes") && !Strings.Contains("", "No");
    assert "s"[1..] == "" && !Strings.IsPrefix("Yes", "s") && !Strings.IsPrefix("No", "s");
    assert !Strings.Contains("s", "Yes") && !Strings.Contains("s", "No");
    assert "es"[..2][0] != "No"[0];
    assert "es"[1..] == "s" && !Strings.IsPrefix("Yes", "es") && !Strings.IsPrefix("No", "es");
    assert !Strings.Contains("es", "Yes") && !Strings.Contains("es", "No");
    assert "yes"[..3][0] != "Yes"[0] && "yes"[..2][0] != "No"[0];
    assert "yes"[1..] == "es" && !Strings.IsPrefix("Yes", "yes") && !Strings.IsPrefix("No", "yes");
  }

  /** A result is judged by a prompt holding the user's query and its title, a space and its description. */
  lemma PromptHoldsResult(userQuery: string, r: SearchResult)
    ensures Strings.OccursAt(PromptFor(userQuery, r), userQuery, |SystemPrompt.Head|)
    ensures Strings.OccursAt(PromptFor(userQuery, r), r.title + " " + r.description,
                             |SystemPrompt.Head| + |userQuery| + |SystemPrompt.Mid|)
  {
    SystemPrompt.PromptEmbeds(userQuery, FullText(r));
  }
}
