/**
 * The single-turn RAG helpers: the index schema check, the context join of the generation step, and
 * the answer-with-sources record `generate_response` builds from the retrieved documents.
 */
module LlmUtils {
  import opened Base
  import Strings
  import Lists
  import Messages

  /** LangChain's Azure Search integration expects these two field names. */
  predicate HasNaming(fieldNames: seq<string>)
  {
    "content_vector" in fieldNames && "content" in fieldNames
  }

  /**
   * `check_index_naming`: the index's field names come from `getIndex`; one flag per expected name is set
   * while scanning them.
   */
  method CheckIndexNaming(getIndex: string -> seq<string>, indexName: string) returns (ok: bool)
    ensures ok == HasNaming(getIndex(indexName))
  {
    var fields := getIndex(indexName);
    var vectorName := false;
    var contentName := false;
    for i := 0 to |fields|
      invariant vectorName == ("content_vector" in fields[..i])
      invariant contentName == ("content" in fields[..i])
    {
      assert fields[..i + 1] == fields[..i] + [fields[i]];
      if fields[i] == "content_vector" {
        vectorName := true;
      } else if fields[i] == "content" {
        contentName := true;
      }
    }
    assert fields[..|fields|] == fields;
    if vectorName && contentName {
      ok := true;
    } else {
      ok := false;
    }
  }

  /** The check depends only on which names occur: not on their order, nor on repeated names. */
  lemma HasNamingSameNames(f1: seq<string>, f2: seq<string>)
    requires forall x :: x in f1 <==> x in f2
    ensures HasNaming(f1) == HasNaming(f2)
  {
  }

  /** An index without fields fails, and one with just the two expected fields passes, in either order. */
  lemma HasNamingExamples()
    ensures !HasNaming([])
    ensures HasNaming(["content_vector", "content"]) && HasNaming(["content", "content_vector"])
    ensures !HasNaming(["content_vector", "content_vector"])
  {
    assert ["content_vector", "content"][1] == "content";
    assert ["content", "content_vector"][0] == "content";
    assert "content_vector" != "content" by {
      assert |"content_vector"| != |"content"|;
    }
  }

  function PageContent(d: Messages.Document): string
  {
    d.pageContent
  }

  /** `generate`'s context: the documents' page contents joined by a blank line, in context order. */
  function DocsContent(context: seq<Messages.Document>): string
  {
    Strings.Join(Lists.Map(context, PageContent), "\n\n")
  }

  /** One more document appends a blank line and its page content (or is the whole context when first). */
  lemma DocsContentSnoc(context: seq<Messages.Document>, d: Messages.Document)
    ensures DocsContent(context + [d]) ==
            if context == [] then d.pageContent else DocsContent(context) + "\n\n" + d.pageContent
  {
    assert Lists.Map(context + [d], PageContent) == Lists.Map(context, PageContent) + [d.pageContent];
    Strings.JoinSnoc(Lists.Map(context, PageContent), d.pageContent, "\n\n");
  }

  /** Every retrieved document's page content occurs verbatim in the context text. */
  lemma DocsContentHasEach(context: seq<Messages.Document>, k: nat)
    requires k < |context|
    ensures exists i :: Strings.OccursAt(DocsContent(context), context[k].pageContent, i)
  {
    var parts := Lists.Map(context, PageContent);
    Strings.JoinHasPart(parts, "\n\n", k);
    var i :| Strings.OccursAt(Strings.Join(parts, "\n\n"), parts[k], i);
    assert Strings.OccursAt(DocsContent(context), context[k].pageContent, i);
  }

  /** `generate`: the model (the hub's RAG prompt with the question and the context) answers. */
  function Generate(question: string, context: seq<Messages.Document>, llm: (string, string) -> string): string
  {
    llm(question, DocsContent(context))
  }

  /**
   * `[doc.metadata[key] for doc in docs]`: every document's value under `key`, or the `KeyError` for the
   * first document that has none.
   */
  function MetadataColumn(docs: seq<Messages.Document>, key: string): (r: Result<seq<string>>)
    ensures r.Ok? <==> forall k :: 0 <= k < |docs| ==> key in docs[k].metadata
    ensures r.Ok? ==> |r.value| == |docs| && forall k :: 0 <= k < |docs| ==> r.value[k] == docs[k].metadata[key]
    ensures r.Err? ==> r.error == "KeyError: '" + key + "'"
  {
    if docs == [] then Ok([])
    else
      var d := docs[|docs| - 1];
      var init := docs[..|docs| - 1];
      assert forall k :: 0 <= k < |init| ==> init[k] == docs[k];
      match MetadataColumn(init, key)
      case Err(e) => Err(e)
      case Ok(p) => if key in d.metadata then Ok(p + [d.metadata[key]]) else Err("KeyError: '" + key + "'")
  }

  /** `generate_response`'s output dictionary. */
  datatype Response = Response(answer: string, sourceNames: seq<string>, sourceContents: seq<string>)

  /**
   * `generate_response`: retrieve for the question, generate from the retrieved documents, and report
   * each document's `title` and `chunk` metadata, or the `KeyError` of the first list that fails.
   */
  function GenerateResponse(question: string, retrieve: string -> seq<Messages.Document>,
                            llm: (string, string) -> string): Result<Response>
  {
    var context := retrieve(question);
    var answer := Generate(question, context, llm);
    match MetadataColumn(context, "title")
    case Err(e) => Err(e)
    case Ok(names) =>
      match MetadataColumn(context, "chunk")
      case Err(e) => Err(e)
      case Ok(contents) => Ok(Response(answer, names, contents))
  }

  /**
   * The sources are one `title` and one `chunk` (not the page content) per retrieved document, in
   * retrieval order, and the answer is generated from those same documents; a document without a title
   * raises the title's `KeyError` before any missing chunk is noticed.
   */
  lemma GenerateResponseSpec(question: string, retrieve: string -> seq<Messages.Document>,
                             llm: (string, string) -> string)
    ensures var docs := retrieve(question);
            var r := GenerateResponse(question, retrieve, llm);
            (r.Ok? <==> forall k :: 0 <= k < |docs| ==> "title" in docs[k].metadata && "chunk" in docs[k].metadata)
            && (r.Ok? ==>
                 r.value.answer == llm(question, DocsContent(docs))
                 && |r.value.sourceNames| == |docs| && |r.value.sourceContents| == |docs|
                 && forall k :: 0 <= k < |docs| ==>
                      r.value.sourceNames[k] == docs[k].metadata["title"]
                      && r.value.sourceContents[k] == docs[k].metadata["chunk"])
            && ((exists k :: 0 <= k < |docs| && "title" !in docs[k].metadata) ==> r == Err("KeyError: 'title'"))
  {
    var docs := retrieve(question);
    var r := GenerateResponse(question, retrieve, llm);
    if forall k :: 0 <= k < |docs| ==> "title" in docs[k].metadata && "chunk" in docs[k].metadata {
      assert MetadataColumn(docs, "title").Ok? && MetadataColumn(docs, "chunk").Ok?;
    } else if exists k :: 0 <= k < |docs| && "title" !in docs[k].metadata {
      assert MetadataColumn(docs, "title").Err?;
    } else {
      assert MetadataColumn(docs, "title").Ok?;
      assert MetadataColumn(docs, "chunk").Err?;
    }
  }
}
