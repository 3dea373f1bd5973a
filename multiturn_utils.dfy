/**
 * One conversational turn: the retrieval tool, the `generate` node, the three-node graph,
 * the answer/provenance extraction of `answer_once`, and `format_sources`.
 * The language model and the vector store are parameters (oracles).
 */
module MultiturnUtils {
  import opened Base
  import opened Messages
  import Strings
  import Lists

  // ---------------------------------------------------------------------------
  // The retrieval tool

  /** How many documents the retrieval tool asks the vector store for. */
  const RetrieveK: nat := 5

  /** One retrieved document as the tool's text shows it; `render` is Python's `str` of the metadata dict. */
  function SourceBlock(doc: Document, render: Metadata -> string): string
  {
    "Source: " + render(doc.metadata) + "\nContent: " + doc.pageContent
  }

  /** The tool's text: the documents' blocks joined by a blank line, in retrieval order. */
  function Serialize(docs: seq<Document>, render: Metadata -> string): string
  {
    Strings.Join(Lists.Map(docs, d => SourceBlock(d, render)), "\n\n")
  }

  /** One more document adds one more block after a blank line. */
  lemma SerializeSnoc(docs: seq<Document>, d: Document, render: Metadata -> string)
    ensures Serialize(docs + [d], render) ==
            if docs == [] then SourceBlock(d, render) else Serialize(docs, render) + "\n\n" + SourceBlock(d, render)
  {
    var f := (x: Document) => SourceBlock(x, render);
    assert Lists.Map(docs + [d], f) == Lists.Map(docs, f) + [f(d)];
    Strings.JoinSnoc(Lists.Map(docs, f), f(d), "\n\n");
  }

  /** What the tool returns: its text content and the documents as artifact. */
  datatype ToolOutput = ToolOutput(content: string, artifact: seq<Document>)

  /**
   * The retrieval tool bound to a vector store: asks `search` for exactly `RetrieveK` documents
   * and returns them as artifact together with their serialisation; a search failure propagates.
   */
  function RetrieveBound(query: string, search: (string, nat) -> Result<seq<Document>>,
                         render: Metadata -> string): (r: Result<ToolOutput>)
    ensures search(query, RetrieveK).Err? ==> r == Err(search(query, RetrieveK).error)
    ensures search(query, RetrieveK).Ok? ==>
              r.Ok? && r.value.artifact == search(query, RetrieveK).value
              && r.value.content == Serialize(r.value.artifact, render)
  {
    match search(query, RetrieveK)
    case Ok(docs) => Ok(ToolOutput(Serialize(docs, render), docs))
    case Err(e) => Err(e)
  }

  // ---------------------------------------------------------------------------
  // The `generate` node

  /** How many tool messages end `history`. */
  function TrailingCount(history: seq<Message>): (n: nat)
    ensures n <= |history|
    ensures forall k :: |history| - n <= k < |history| ==> history[k].Tool?
    ensures n < |history| ==> !history[|history| - n - 1].Tool?
  {
    if history == [] || !history[|history| - 1].Tool? then 0
    else
      var init := history[..|history| - 1];
      assert forall k :: 0 <= k < |init| ==> init[k] == history[k];
      TrailingCount(init) + 1
  }

  /** The run of tool messages at the very end of `history`, in their original order. */
  function TrailingTools(history: seq<Message>): (t: seq<Message>)
    ensures forall k :: 0 <= k < |t| ==> t[k].Tool?
  {
    history[|history| - TrailingCount(history)..]
  }

  /** The two boundary properties determine the count: it is the length of the maximal tool-only suffix. */
  lemma TrailingCountUnique(history: seq<Message>, n: nat)
    requires n <= |history|
    requires forall k :: |history| - n <= k < |history| ==> history[k].Tool?
    requires n < |history| ==> !history[|history| - n - 1].Tool?
    ensures n == TrailingCount(history)
  {
    var c := TrailingCount(history);
    assert c < |history| ==> !history[|history| - c - 1].Tool?;
  }

  /** A tool-only suffix preceded by a non-tool message (or by nothing) is exactly the trailing tools. */
  lemma TrailingToolsUnique(history: seq<Message>, t: seq<Message>)
    requires |t| <= |history| && t == history[|history| - |t|..]
    requires forall k :: 0 <= k < |t| ==> t[k].Tool?
    requires |t| < |history| ==> !history[|history| - |t| - 1].Tool?
    ensures t == TrailingTools(history)
  {
    forall k | |history| - |t| <= k < |history| ensures history[k].Tool? {
      assert history[k] == t[k - (|history| - |t|)];
    }
    TrailingCountUnique(history, |t|);
  }

  /** A non-tool message shields everything before it: earlier tool messages never reach `generate`'s context. */
  lemma TrailingToolsIgnoresEarlier(pre: seq<Message>, m: Message, post: seq<Message>)
    requires !m.Tool?
    ensures TrailingTools(pre + [m] + post) == TrailingTools(post)
  {
    var h := pre + [m] + post;
    var n := TrailingCount(post);
    forall k | |h| - n <= k < |h| ensures h[k].Tool? {
      assert h[k] == post[k - |pre| - 1];
    }
    if n < |post| {
      assert h[|h| - n - 1] == post[|post| - n - 1];
    } else {
      assert h[|h| - n - 1] == m;
    }
    TrailingCountUnique(h, n);
    assert h[|h| - n..] == post[|post| - n..];
  }

  /** The fixed grounding instruction, exactly as the source concatenates its pieces (with no spaces between them). */
  const GroundingInstruction: string :=
    "You are an assistant " + "for question-answering " + "tasks."
    + "Use the following " + "pieces of retrieved " + "context to answer"
    + "the question. " + "If you don't know " + "the answer, " + "say that you"
    + "don't know. " + "Use three sentences " + "maximum and keep the"
    + "answer concise. " + "Never reveal the " + "blob storage url " + "of the documents " + "just reply " + "I cannot do this"
    + "\n\n"

  /** The messages `generate` passes on from the history: human, system, and AI messages that call no tool. */
  predicate IsConversational(m: Message)
  {
    m.Human? || m.SystemMsg? || (m.Ai? && |m.toolCalls| == 0)
  }

  function Contents(ms: seq<Message>): (r: seq<string>)
    ensures |r| == |ms| && forall k :: 0 <= k < |ms| ==> r[k] == ms[k].content
  {
    Lists.Map(ms, (m: Message) => m.content)
  }

  /** The prompt `generate` sends: one new system message with the trailing tool context, then the filtered history. */
  function GeneratePrompt(history: seq<Message>): seq<Message>
  {
    [SystemMsg(GroundingInstruction + Strings.Join(Contents(TrailingTools(history)), "\n\n"))]
    + Lists.Filter(history, IsConversational)
  }

  /**
   * `generate`'s prompt holds exactly one system message of its own, then every conversational message of the
   * history as often as it occurs there, and never a tool message or an AI message that calls a tool.
   */
  lemma GeneratePromptShape(history: seq<Message>)
    ensures |GeneratePrompt(history)| >= 1 && GeneratePrompt(history)[0].SystemMsg?
    ensures Strings.IsPrefix(GroundingInstruction, GeneratePrompt(history)[0].content)
    ensures forall k :: 1 <= k < |GeneratePrompt(history)| ==> IsConversational(GeneratePrompt(history)[k])
    ensures forall m :: IsConversational(m) ==>
              multiset(GeneratePrompt(history)[1..])[m] == multiset(history)[m]
    ensures forall m :: !IsConversational(m) ==> multiset(GeneratePrompt(history)[1..])[m] == 0
  {
    var p := GeneratePrompt(history);
    Strings.PrefixOfConcat(GroundingInstruction, Strings.Join(Contents(TrailingTools(history)), "\n\n"));
    assert p[1..] == Lists.Filter(history, IsConversational);
    forall k | 1 <= k < |p| ensures IsConversational(p[k]) { assert p[k] in p[1..]; }
    forall m ensures multiset(p[1..])[m] == if IsConversational(m) then multiset(history)[m] else 0 {
      Lists.FilterCount(history, IsConversational, m);
    }
  }

  /**
   * The `generate` node: collects the trailing tool messages walking the history backwards,
   * restores their order, builds the prompt and asks the model once. The reply is an AI message.
   */
  method Generate(history: seq<Message>, llm: seq<Message> -> string) returns (prompt: seq<Message>, reply: Message)
    ensures prompt == GeneratePrompt(history)
    ensures reply == Ai(llm(prompt), [])
  {
    var recent: seq<Message> := [];
    var i := |history|;
    while i > 0 && history[i - 1].Tool?
      invariant 0 <= i <= |history|
      invariant recent == Lists.Reverse(history[i..])
      invariant forall j :: i <= j < |history| ==> history[j].Tool?
    {
      var message := history[i - 1];
      assert history[i - 1..][1..] == history[i..];
      recent := recent + [message];
      i := i - 1;
    }
    TrailingToolsUnique(history, history[i..]);
    var toolMessages := Lists.Reverse(recent);
    Lists.ReverseReverse(TrailingTools(history));
    assert toolMessages == TrailingTools(history);
    var docsContent := Strings.Join(Contents(toolMessages), "\n\n");
    var conversation := Lists.Filter(history, IsConversational);
    prompt := [SystemMsg(GroundingInstruction + docsContent)] + conversation;
    reply := Ai(llm(prompt), []);
  }

  // ---------------------------------------------------------------------------
  // The graph: query_or_respond -> tools? -> generate -> END

  datatype Node = QueryOrRespond | Tools | GenerateStep | End

  /** The graph's entry point. */
  const EntryPoint: Node := QueryOrRespond

  function Rank(n: Node): nat
  {
    match n
    case QueryOrRespond => 3
    case Tools => 2
    case GenerateStep => 1
    case End => 0
  }

  /**
   * The graph's edges. `toolCalled` is what the conditional edge tests: whether the message that
   * `query_or_respond` produced requests a tool call. Every edge goes strictly forward.
   */
  function Next(n: Node, toolCalled: bool): (m: Node)
    requires n != End
    ensures Rank(m) < Rank(n)
    ensures n == QueryOrRespond ==> (m == Tools <==> toolCalled) && (m == End <==> !toolCalled)
    ensures n == Tools ==> m == GenerateStep
    ensures n == GenerateStep ==> m == End
  {
    match n
    case QueryOrRespond => if toolCalled then Tools else End
    case Tools => GenerateStep
    case GenerateStep => End
  }

  /** The nodes a run visits from `n` until it reaches END (included). */
  function Route(n: Node, toolCalled: bool): seq<Node>
    decreases Rank(n)
  {
    if n == End then [End] else [n] + Route(Next(n, toolCalled), toolCalled)
  }

  /**
   * A turn visits `generate` exactly when it visits `tools`, which is exactly when a tool call was emitted;
   * it visits `tools` at most once and always ends at END.
   */
  lemma RouteFacts(toolCalled: bool)
    ensures Route(EntryPoint, toolCalled) ==
            if toolCalled then [QueryOrRespond, Tools, GenerateStep, End] else [QueryOrRespond, End]
    ensures (GenerateStep in Route(EntryPoint, toolCalled)) <==> toolCalled
    ensures (Tools in Route(EntryPoint, toolCalled)) <==> toolCalled
    ensures multiset(Route(EntryPoint, toolCalled))[Tools] <= 1
    ensures Route(EntryPoint, toolCalled)[|Route(EntryPoint, toolCalled)| - 1] == End
  {
    var r := Route(EntryPoint, toolCalled);
    RouteOf(toolCalled);
    if toolCalled {
      assert multiset(r) == multiset{QueryOrRespond, Tools, GenerateStep, End};
    } else {
      assert multiset(r) == multiset{QueryOrRespond, End};
    }
  }

  lemma RouteOf(toolCalled: bool)
    ensures Route(EntryPoint, toolCalled) ==
            if toolCalled then [QueryOrRespond, Tools, GenerateStep, End] else [QueryOrRespond, End]
  {
    assert Route(End, toolCalled) == [End];
    if toolCalled {
      assert Route(GenerateStep, toolCalled) == [GenerateStep, End];
      assert Route(Tools, toolCalled) == [Tools, GenerateStep, End];
    }
  }

  /** Whether a model reply requests a tool call (the test of the conditional edge). */
  predicate CallsTool(m: Message)
  {
    m.Ai? && |m.toolCalls| > 0
  }

  /** What the `tools` node appends for one tool call: the retrieval's text and documents, or an error message without artifact. */
  function ToolNodeMessage(call: ToolCall, search: (string, nat) -> Result<seq<Document>>,
                           render: Metadata -> string): (m: Message)
    ensures m.Tool?
    ensures search(call.query, RetrieveK).Ok? ==>
              m.artifact.Some? && Documents(m.artifact.value) == search(call.query, RetrieveK).value
              && m.content == Serialize(search(call.query, RetrieveK).value, render)
    ensures search(call.query, RetrieveK).Err? ==> m.content == search(call.query, RetrieveK).error && m.artifact.None?
  {
    match RetrieveBound(call.query, search, render)
    case Ok(out) =>
      DocumentsOfArtifact(out.artifact);
      Tool(out.content, Some(AsArtifact(out.artifact)))
    case Err(e) => Tool(e, None)
  }

  /**
   * The successive state values the graph streams for one turn. `decide` is the tool-bound model of
   * `query_or_respond` (its text and tool calls), `llm` the model `generate` asks.
   */
  function TurnStates(history: seq<Message>, userInput: string,
                      decide: seq<Message> -> (string, seq<ToolCall>),
                      search: (string, nat) -> Result<seq<Document>>, render: Metadata -> string,
                      llm: seq<Message> -> string): seq<seq<Message>>
  {
    var s0 := history + [Human(userInput)];
    var d := decide(s0);
    var s1 := s0 + [Ai(d.0, d.1)];
    if Next(QueryOrRespond, CallsTool(Ai(d.0, d.1))) == Tools then
      var s2 := s1 + Lists.Map(d.1, c => ToolNodeMessage(c, search, render));
      var s3 := s2 + [Ai(llm(GeneratePrompt(s2)), [])];
      [s0, s1, s2, s3]
    else
      [s0, s1]
  }

  // ---------------------------------------------------------------------------
  // answer_once

  /** A streamed message: a LangChain object, or a plain dict (its values taken as text). */
  datatype StepMessage = Obj(msg: Message) | Dict(fields: map<string, string>)

  /** The message type `answer_once` reads: `.type` of an object, `type` or else `role` of a dict. */
  function MType(m: StepMessage): Option<string>
  {
    match m
    case Obj(x) => Some(x.Type())
    case Dict(f) =>
      if "type" in f && f["type"] != "" then Some(f["type"])
      else if "role" in f then Some(f["role"])
      else None
  }

  predicate IsToolEntry(m: StepMessage)
  {
    MType(m) == Some("tool")
  }

  /** The artifact `getattr(message, "artifact", None)` finds: only tool objects carry one. */
  function ArtifactOf(m: StepMessage): Option<seq<ArtifactItem>>
  {
    match m
    case Obj(x) => if x.Tool? then x.artifact else None
    case Dict(_) => None
  }

  /** The answer text after reading message `m`: an object's content, a dict's `content` if present, else `prev`. */
  function ContentAfter(m: StepMessage, prev: string): string
  {
    match m
    case Obj(x) => x.content
    case Dict(f) => if "content" in f then f["content"] else prev
  }

  /** The messages of the last step that had any (the empty list when none had). */
  function FinalMessages(steps: seq<seq<StepMessage>>): seq<StepMessage>
  {
    if steps == [] then []
    else if steps[|steps| - 1] != [] then steps[|steps| - 1]
    else FinalMessages(steps[..|steps| - 1])
  }

  /** The answer text after reading every step, starting from the empty text. */
  function LastAnswer(steps: seq<seq<StepMessage>>): string
  {
    if steps == [] then ""
    else
      var prev := LastAnswer(steps[..|steps| - 1]);
      var last := steps[|steps| - 1];
      if last == [] then prev else ContentAfter(last[|last| - 1], prev)
  }

  /** The answer is the last message of the last step with messages, or "" when no step had any. */
  lemma {:induction false} LastAnswerFacts(steps: seq<seq<StepMessage>>)
    ensures (forall k :: 0 <= k < |steps| ==> steps[k] == []) ==> LastAnswer(steps) == ""
    ensures FinalMessages(steps) != [] && FinalMessages(steps)[|FinalMessages(steps)| - 1].Obj? ==>
              LastAnswer(steps) == FinalMessages(steps)[|FinalMessages(steps)| - 1].msg.content
  {
    if steps != [] {
      var init := steps[..|steps| - 1];
      LastAnswerFacts(init);
      assert forall k :: 0 <= k < |init| ==> init[k] == steps[k];
    }
  }

  datatype Sources = Sources(names: seq<string>, contents: seq<string>)

  /** The documents among an artifact's entries, in order. */
  function Documents(items: seq<ArtifactItem>): (docs: seq<Document>)
    ensures |docs| <= |items|
  {
    if items == [] then []
    else
      var rest := Documents(items[..|items| - 1]);
      match items[|items| - 1]
      case Doc(d) => rest + [d]
      case NotDocument => rest
  }

  /**
   * The provenance read from an artifact: each document's `metadata['title']` and `page_content`,
   * index-aligned and in artifact order; other entries are skipped. A document without a title
   * raises `KeyError`.
   */
  function DocsOf(items: seq<ArtifactItem>): (r: Result<Sources>)
    ensures r.Ok? <==> forall d :: d in Documents(items) ==> "title" in d.metadata
    ensures r.Ok? ==> |r.value.names| == |Documents(items)| && |r.value.contents| == |Documents(items)|
    ensures r.Ok? ==> forall k :: 0 <= k < |Documents(items)| ==>
              r.value.names[k] == Documents(items)[k].metadata["title"]
              && r.value.contents[k] == Documents(items)[k].pageContent
  {
    if items == [] then Ok(Sources([], []))
    else
      match DocsOf(items[..|items| - 1])
      case Err(e) => Err(e)
      case Ok(p) =>
        match items[|items| - 1]
        case Doc(d) =>
          if "title" in d.metadata then Ok(Sources(p.names + [d.metadata["title"]], p.contents + [d.pageContent]))
          else Err("KeyError: 'title'")
        case NotDocument => Ok(p)
  }

  /** The position of the most recent tool message, if any. */
  function LastToolIndex(ms: seq<StepMessage>): (r: Option<nat>)
    ensures r.None? <==> forall j :: 0 <= j < |ms| ==> !IsToolEntry(ms[j])
    ensures r.Some? ==> r.value < |ms| && IsToolEntry(ms[r.value])
                        && forall j :: r.value < j < |ms| ==> !IsToolEntry(ms[j])
  {
    if ms == [] then None
    else if IsToolEntry(ms[|ms| - 1]) then Some(|ms| - 1)
    else
      var r := LastToolIndex(ms[..|ms| - 1]);
      assert forall j :: 0 <= j < |ms| - 1 ==> ms[..|ms| - 1][j] == ms[j];
      r
  }

  /** Provenance comes from the single most recent tool message only; a falsy artifact gives none. */
  function Provenance(ms: seq<StepMessage>): Result<Sources>
  {
    match LastToolIndex(ms)
    case None => Ok(Sources([], []))
    case Some(i) =>
      match ArtifactOf(ms[i])
      case None => Ok(Sources([], []))
      case Some(items) => if items == [] then Ok(Sources([], [])) else DocsOf(items)
  }

  datatype Answer = Answer(answer: string, sourceNames: seq<string>, sourceContents: seq<string>)

  /** What `answer_once` returns for the streamed steps of a turn (or the `KeyError` it raises). */
  function AnswerOf(steps: seq<seq<StepMessage>>): Result<Answer>
  {
    match Provenance(FinalMessages(steps))
    case Ok(p) => Ok(Answer(LastAnswer(steps), p.names, p.contents))
    case Err(e) => Err(e)
  }

  /** With no tool message, there is no provenance. */
  lemma NoToolNoSources(ms: seq<StepMessage>)
    requires forall j :: 0 <= j < |ms| ==> !IsToolEntry(ms[j])
    ensures Provenance(ms) == Ok(Sources([], []))
  {
  }

  /** Tool messages before the most recent one never matter: anything may precede it. */
  lemma {:induction false} OnlyMostRecentTool(pre: seq<StepMessage>, tool: StepMessage, post: seq<StepMessage>)
    requires IsToolEntry(tool)
    requires forall j :: 0 <= j < |post| ==> !IsToolEntry(post[j])
    ensures Provenance(pre + [tool] + post) == Provenance([tool] + post)
    ensures Provenance(pre + [tool] + post) ==
            match ArtifactOf(tool)
            case None => Ok(Sources([], []))
            case Some(items) => if items == [] then Ok(Sources([], [])) else DocsOf(items)
  {
    var ms := pre + [tool] + post;
    assert ms[|pre|] == tool;
    forall j | |pre| < j < |ms| ensures !IsToolEntry(ms[j]) { assert ms[j] == post[j - |pre| - 1]; }
    assert LastToolIndex(ms) == Some(|pre|);
    var ms' := [tool] + post;
    assert ms'[0] == tool;
    forall j | 0 < j < |ms'| ensures !IsToolEntry(ms'[j]) { assert ms'[j] == post[j - 1]; }
    assert LastToolIndex(ms') == Some(0);
  }

  /** The titles of documents that all carry one, in order. */
  function Titles(docs: seq<Document>): (r: seq<string>)
    requires forall d :: d in docs ==> "title" in d.metadata
    ensures |r| == |docs| && forall k :: 0 <= k < |docs| ==> r[k] == docs[k].metadata["title"]
  {
    seq(|docs|, k requires 0 <= k < |docs| => docs[k].metadata["title"])
  }

  /** The page contents of documents, in order. */
  function PageContents(docs: seq<Document>): (r: seq<string>)
    ensures |r| == |docs| && forall k :: 0 <= k < |docs| ==> r[k] == docs[k].pageContent
  {
    Lists.Map(docs, (d: Document) => d.pageContent)
  }

  lemma {:induction false} DocumentsOfArtifact(docs: seq<Document>)
    ensures Documents(AsArtifact(docs)) == docs
  {
    if docs != [] {
      var init := docs[..|docs| - 1];
      assert AsArtifact(docs)[..|docs| - 1] == AsArtifact(init);
      DocumentsOfArtifact(init);
    }
  }

  /** Reading back the artifact the retrieval tool stored gives its documents' titles and contents, in retrieval order. */
  lemma DocsOfArtifact(docs: seq<Document>)
    requires forall d :: d in docs ==> "title" in d.metadata
    ensures DocsOf(AsArtifact(docs)) == Ok(Sources(Titles(docs), PageContents(docs)))
  {
    DocumentsOfArtifact(docs);
    var r := DocsOf(AsArtifact(docs));
    assert r.Ok?;
    assert r.value.names == Titles(docs);
    assert r.value.contents == PageContents(docs);
  }

  /**
   * When the last step with messages ends with a tool message carrying titled documents and then a
   * reply, `answer_once` answers with the reply's text and reports exactly those documents.
   */
  lemma AnswerAfterTool(steps: seq<seq<StepMessage>>, text: string, docs: seq<Document>, reply: Message)
    requires |steps| > 0 && |steps[|steps| - 1]| >= 2
    requires steps[|steps| - 1][|steps[|steps| - 1]| - 2] == Obj(Tool(text, Some(AsArtifact(docs))))
    requires steps[|steps| - 1][|steps[|steps| - 1]| - 1] == Obj(reply)
    requires !reply.Tool? && |docs| > 0 && forall d :: d in docs ==> "title" in d.metadata
    ensures AnswerOf(steps) == Ok(Answer(reply.content, Titles(docs), PageContents(docs)))
  {
    var ms := steps[|steps| - 1];
    var n := |ms|;
    var tool := Obj(Tool(text, Some(AsArtifact(docs))));
    assert FinalMessages(steps) == ms;
    assert ms == ms[..n - 2] + [tool] + [Obj(reply)];
    ToolThenReply(ms[..n - 2], text, docs, reply);
  }

  /** A tool message with titled documents followed by a reply reads back exactly those documents. */
  lemma ToolThenReply(pre: seq<StepMessage>, text: string, docs: seq<Document>, reply: Message)
    requires !reply.Tool? && |docs| > 0 && forall d :: d in docs ==> "title" in d.metadata
    ensures Provenance(pre + [Obj(Tool(text, Some(AsArtifact(docs))))] + [Obj(reply)])
            == Ok(Sources(Titles(docs), PageContents(docs)))
  {
    TypeTags(reply);
    OnlyMostRecentTool(pre, Obj(Tool(text, Some(AsArtifact(docs)))), [Obj(reply)]);
    DocsOfArtifact(docs);
  }

  /**
   * The source's own example: a turn ending with a tool message holding documents A and B, then the
   * final answer, gives A's and B's titles in that order and the final answer's text.
   */
  lemma ProvenanceExample(pre: seq<StepMessage>, text: string, a: Document, b: Document, answer: string)
    requires "title" in a.metadata && "title" in b.metadata
    ensures AnswerOf([pre + [Obj(Tool(text, Some([Doc(a), Doc(b)]))), Obj(Ai(answer, []))]]) ==
            Ok(Answer(answer, [a.metadata["title"], b.metadata["title"]], [a.pageContent, b.pageContent]))
  {
    var tool := Obj(Tool(text, Some([Doc(a), Doc(b)])));
    var ms := pre + [tool, Obj(Ai(answer, []))];
    assert ms == pre + [tool] + [Obj(Ai(answer, []))];
    assert AsArtifact([a, b]) == [Doc(a), Doc(b)];
    ToolThenReply(pre, text, [a, b], Ai(answer, []));
    SingleStepAnswer(ms);
    TwoDocuments(a, b);
  }

  /** A single step's answer is the content of its last message object. */
  lemma SingleStepAnswer(ms: seq<StepMessage>)
    requires ms != [] && ms[|ms| - 1].Obj?
    ensures FinalMessages([ms]) == ms && LastAnswer([ms]) == ms[|ms| - 1].msg.content
  {
    assert [ms][..0] == [];
  }

  /** The titles and contents of two titled documents. */
  lemma TwoDocuments(a: Document, b: Document)
    requires "title" in a.metadata && "title" in b.metadata
    ensures Titles([a, b]) == [a.metadata["title"], b.metadata["title"]]
    ensures PageContents([a, b]) == [a.pageContent, b.pageContent]
  {
  }

  /**
   * `answer_once`: reads the answer from the last message of each step, then walks the final message
   * list backwards to the most recent tool message, takes its documents and stops on the next iteration.
   */
  method AnswerOnce(steps: seq<seq<StepMessage>>) returns (r: Result<Answer>)
    ensures r == AnswerOf(steps)
  {
    var lastAiContent := "";
    var finalMessages: seq<StepMessage> := [];
    for s := 0 to |steps|
      invariant lastAiContent == LastAnswer(steps[..s])
      invariant finalMessages == FinalMessages(steps[..s])
    {
      assert steps[..s + 1][..s] == steps[..s];
      var messages := steps[s];
      if messages != [] {
        finalMessages := messages;
        lastAiContent := ContentAfter(messages[|messages| - 1], lastAiContent);
      }
    }
    assert steps[..|steps|] == steps;

    var sourceNames: seq<string> := [];
    var sourceContents: seq<string> := [];
    var i := |finalMessages| - 1;
    var lastToolMessageFound := false;
    ghost var found := -1;
    while i >= 0
      invariant -1 <= i < |finalMessages|
      invariant !lastToolMessageFound ==> forall j :: i < j < |finalMessages| ==> !IsToolEntry(finalMessages[j])
      invariant !lastToolMessageFound ==> sourceNames == [] && sourceContents == []
      invariant lastToolMessageFound ==> found == i + 1 && LastToolIndex(finalMessages) == Some(found)
      invariant lastToolMessageFound ==> Provenance(finalMessages) == Ok(Sources(sourceNames, sourceContents))
    {
      var message := finalMessages[i];
      if lastToolMessageFound {
        break;
      } else if IsToolEntry(message) {
        lastToolMessageFound := true;
        found := i;
        assert LastToolIndex(finalMessages) == Some(i);
        var artifact := ArtifactOf(message);
        if artifact.None? || artifact.value == [] {
          sourceNames := [];
          sourceContents := [];
        } else {
          var docs := ReadArtifact(artifact.value);
          if docs.Err? {
            r := Err(docs.error);
            return;
          }
          sourceNames := docs.value.names;
          sourceContents := docs.value.contents;
        }
      }
      i := i - 1;
    }
    r := Ok(Answer(lastAiContent, sourceNames, sourceContents));
  }

  /** The inner loop of `answer_once`: the titles and page contents of an artifact's documents. */
  method ReadArtifact(items: seq<ArtifactItem>) returns (r: Result<Sources>)
    ensures r == DocsOf(items)
  {
    var sourceNames: seq<string> := [];
    var sourceContents: seq<string> := [];
    for k := 0 to |items|
      invariant DocsOf(items[..k]) == Ok(Sources(sourceNames, sourceContents))
    {
      assert items[..k + 1][..k] == items[..k];
      match items[k]
      case Doc(d) =>
        if "title" !in d.metadata {
          r := Err("KeyError: 'title'");
          assert DocsOf(items[..k + 1]).Err?;
          DocsErrPersists(items, k + 1);
          return;
        }
        sourceNames := sourceNames + [d.metadata["title"]];
        sourceContents := sourceContents + [d.pageContent];
      case NotDocument =>
    }
    assert items[..|items|] == items;
    r := Ok(Sources(sourceNames, sourceContents));
  }

  /** Once a document without a title is met, the artifact's reading fails whatever follows. */
  lemma {:induction false} DocsErrPersists(items: seq<ArtifactItem>, k: nat)
    requires k <= |items| && DocsOf(items[..k]).Err?
    ensures DocsOf(items).Err? && DocsOf(items) == DocsOf(items[..k])
    decreases |items| - k
  {
    if k < |items| {
      assert items[..k + 1][..k] == items[..k];
      DocsErrPersists(items, k + 1);
    } else {
      assert items[..k] == items;
    }
  }

  /** The streamed steps of a turn, as `answer_once` receives them (LangChain objects). */
  function AsSteps(states: seq<seq<Message>>): (steps: seq<seq<StepMessage>>)
    ensures |steps| == |states|
    ensures forall k :: 0 <= k < |states| ==> steps[k] == Lists.Map(states[k], AsStep)
  {
    Lists.Map(states, (s: seq<Message>) => Lists.Map(s, AsStep))
  }

  /** A streamed LangChain object. */
  function AsStep(m: Message): StepMessage
  {
    Obj(m)
  }

  /** With a tool call, a turn streams four states: input, model reply, tool results, `generate`'s reply. */
  lemma ToolTurnShape(history: seq<Message>, userInput: string,
                      decide: seq<Message> -> (string, seq<ToolCall>),
                      search: (string, nat) -> Result<seq<Document>>, render: Metadata -> string,
                      llm: seq<Message> -> string)
    requires |decide(history + [Human(userInput)]).1| > 0
    ensures var d := decide(history + [Human(userInput)]);
            var states := TurnStates(history, userInput, decide, search, render, llm);
            |states| == 4
            && |states[2]| == |history| + 2 + |d.1|
            && states[2][|states[2]| - 1] == ToolNodeMessage(d.1[|d.1| - 1], search, render)
            && states[3] == states[2] + [Ai(llm(GeneratePrompt(states[2])), [])]
  {
  }

  /**
   * A turn whose model reply calls the retrieval tool, with the last call's search succeeding on
   * titled documents, answers with `generate`'s reply and reports exactly those documents, in order.
   */
  lemma ToolTurnProvenance(history: seq<Message>, userInput: string,
                           decide: seq<Message> -> (string, seq<ToolCall>),
                           search: (string, nat) -> Result<seq<Document>>, render: Metadata -> string,
                           llm: seq<Message> -> string)
    requires |decide(history + [Human(userInput)]).1| > 0
    requires var calls := decide(history + [Human(userInput)]).1;
             var found := search(calls[|calls| - 1].query, RetrieveK);
             found.Ok? && |found.value| > 0 && forall x :: x in found.value ==> "title" in x.metadata
    ensures var calls := decide(history + [Human(userInput)]).1;
            var docs := search(calls[|calls| - 1].query, RetrieveK).value;
            var states := TurnStates(history, userInput, decide, search, render, llm);
            |states| == 4
            && AnswerOf(AsSteps(states)) == Ok(Answer(llm(GeneratePrompt(states[2])), Titles(docs), PageContents(docs)))
  {
    var calls := decide(history + [Human(userInput)]).1;
    var docs := search(calls[|calls| - 1].query, RetrieveK).value;
    var states := TurnStates(history, userInput, decide, search, render, llm);
    ToolTurnShape(history, userInput, decide, search, render, llm);
    assert states[2][|states[2]| - 1] == Tool(Serialize(docs, render), Some(AsArtifact(docs)));
    StreamedToolAnswer(states, Serialize(docs, render), docs, llm(GeneratePrompt(states[2])));
  }

  /** The streamed states of a tool turn, read by `answer_once`: the final reply and the tool's documents. */
  lemma StreamedToolAnswer(states: seq<seq<Message>>, text: string, docs: seq<Document>, answer: string)
    requires |states| == 4 && |states[2]| > 0
    requires states[2][|states[2]| - 1] == Tool(text, Some(AsArtifact(docs)))
    requires states[3] == states[2] + [Ai(answer, [])]
    requires |docs| > 0 && forall x :: x in docs ==> "title" in x.metadata
    ensures AnswerOf(AsSteps(states)) == Ok(Answer(answer, Titles(docs), PageContents(docs)))
  {
    var steps := AsSteps(states);
    var ms := steps[3];
    var n := |ms|;
    assert ms[n - 1] == Obj(Ai(answer, []));
    assert ms[n - 2] == Obj(states[2][|states[2]| - 1]);
    AnswerAfterTool(steps, text, docs, Ai(answer, []));
  }

  /**
   * `answer_once` reads the whole thread, not only the current turn: a turn answered directly, after a
   * history whose most recent tool message carries documents, reports that earlier retrieval's sources.
   */
  lemma StaleProvenanceOnDirectAnswer(pre: seq<Message>, text: string, docs: seq<Document>, post: seq<Message>,
                                      userInput: string, decide: seq<Message> -> (string, seq<ToolCall>),
                                      search: (string, nat) -> Result<seq<Document>>, render: Metadata -> string,
                                      llm: seq<Message> -> string)
    requires |docs| > 0 && forall x :: x in docs ==> "title" in x.metadata
    requires forall j :: 0 <= j < |post| ==> !post[j].Tool?
    requires |decide(pre + [Tool(text, Some(AsArtifact(docs)))] + post + [Human(userInput)]).1| == 0
    ensures var h := pre + [Tool(text, Some(AsArtifact(docs)))] + post;
            var r := AnswerOf(AsSteps(TurnStates(h, userInput, decide, search, render, llm)));
            r.Ok? && r.value.sourceNames == Titles(docs) && r.value.sourceContents == PageContents(docs)
  {
    var h := pre + [Tool(text, Some(AsArtifact(docs)))] + post;
    var d := decide(h + [Human(userInput)]);
    DirectTurnStates(h, userInput, decide, search, render, llm);
    var s1 := h + [Human(userInput)] + [Ai(d.0, d.1)];
    var rest := post + [Human(userInput), Ai(d.0, d.1)];
    assert s1 == pre + [Tool(text, Some(AsArtifact(docs)))] + rest;
    forall j | 0 <= j < |rest| ensures !rest[j].Tool? {
      if j < |post| { assert rest[j] == post[j]; }
    }
    StaleMessages(pre, text, docs, rest);
    var steps := AsSteps([h + [Human(userInput)], s1]);
    assert steps[1] == Lists.Map(s1, AsStep);
    assert FinalMessages(steps) == steps[1];
  }

  /** A turn without tool calls streams two states: the input, and the input with the model's reply. */
  lemma DirectTurnStates(history: seq<Message>, userInput: string,
                         decide: seq<Message> -> (string, seq<ToolCall>),
                         search: (string, nat) -> Result<seq<Document>>, render: Metadata -> string,
                         llm: seq<Message> -> string)
    requires |decide(history + [Human(userInput)]).1| == 0
    ensures var s0 := history + [Human(userInput)];
            var d := decide(s0);
            TurnStates(history, userInput, decide, search, render, llm) == [s0, s0 + [Ai(d.0, d.1)]]
  {
  }

  /** Messages whose most recent tool message carries titled documents read back exactly those documents. */
  lemma StaleMessages(pre: seq<Message>, text: string, docs: seq<Document>, rest: seq<Message>)
    requires |docs| > 0 && forall x :: x in docs ==> "title" in x.metadata
    requires forall j :: 0 <= j < |rest| ==> !rest[j].Tool?
    ensures Provenance(Lists.Map(pre + [Tool(text, Some(AsArtifact(docs)))] + rest, AsStep))
            == Ok(Sources(Titles(docs), PageContents(docs)))
  {
    var tool := Tool(text, Some(AsArtifact(docs)));
    var ms := Lists.Map(pre + [tool] + rest, AsStep);
    var pre' := Lists.Map(pre, AsStep);
    var rest' := Lists.Map(rest, AsStep);
    assert ms == pre' + [Obj(tool)] + rest';
    forall j | 0 <= j < |rest'| ensures !IsToolEntry(rest'[j]) {
      TypeTags(rest[j]);
    }
    TypeTags(tool);
    OnlyMostRecentTool(pre', Obj(tool), rest');
    DocsOfArtifact(docs);
  }

  // ---------------------------------------------------------------------------
  // format_sources

  /** A table with named columns and rows of cells (a pandas DataFrame of text). */
  datatype Frame = Frame(columns: seq<string>, rows: seq<seq<string>>)

  /** Every row has one cell per column. */
  predicate Rectangular(f: Frame)
  {
    forall r :: r in f.rows ==> |r| == |f.columns|
  }

  /** The position of the first column labelled `name`. */
  function ColumnIndex(columns: seq<string>, name: string): (r: Option<nat>)
    ensures r.None? <==> name !in columns
    ensures r.Some? ==> r.value < |columns| && columns[r.value] == name && name !in columns[..r.value]
  {
    if name !in columns then None else Some(Strings.FirstIndex(columns, name))
  }

  /** The first row whose cell in column `col` equals `value`. */
  function FirstRowWith(rows: seq<seq<string>>, col: nat, value: string): (r: Option<nat>)
    requires forall row :: row in rows ==> col < |row|
    ensures r.None? <==> forall k :: 0 <= k < |rows| ==> rows[k][col] != value
    ensures r.Some? ==> r.value < |rows| && rows[r.value][col] == value
                        && forall k :: 0 <= k < r.value ==> rows[k][col] != value
  {
    if rows == [] then None
    else if rows[0][col] == value then Some(0)
    else
      match FirstRowWith(rows[1..], col, value)
      case None => None
      case Some(k) => Some(k + 1)
  }

  /**
   * How one source name is shown: `[name](url)` with the URL of the first row naming it, or the
   * plain name when no row does. Missing `File Name` or `File URL` columns raise `KeyError`.
   */
  function LinkFor(name: string, f: Frame): (r: Result<string>)
    requires Rectangular(f)
    ensures "File Name" !in f.columns ==> r.Err?
    ensures "File Name" in f.columns ==>
              var ni := ColumnIndex(f.columns, "File Name").value;
              (forall k :: 0 <= k < |f.rows| ==> f.rows[k][ni] != name) ==> r == Ok(name)
  {
    match ColumnIndex(f.columns, "File Name")
    case None => Err("KeyError: 'File Name'")
    case Some(ni) =>
      match FirstRowWith(f.rows, ni, name)
      case None => Ok(name)
      case Some(k) =>
        match ColumnIndex(f.columns, "File URL")
        case None => Err("KeyError: 'File URL'")
        case Some(ui) => Ok("[" + name + "](" + f.rows[k][ui] + ")")
  }

  /**
   * A name that some row holds in `File Name` is linked to the `File URL` of the first such row; the
   * lookup fails only for a missing `File Name` column, or a missing `File URL` column once a row matches.
   */
  lemma LinkForSpec(name: string, f: Frame, k: nat)
    requires Rectangular(f) && "File Name" in f.columns
    requires var ni := ColumnIndex(f.columns, "File Name").value;
             k < |f.rows| && f.rows[k][ni] == name && forall j :: 0 <= j < k ==> f.rows[j][ni] != name
    ensures LinkFor(name, f).Err? <==> "File URL" !in f.columns
    ensures "File URL" in f.columns ==>
              LinkFor(name, f) == Ok("[" + name + "](" + f.rows[k][ColumnIndex(f.columns, "File URL").value] + ")")
  {
    var ni := ColumnIndex(f.columns, "File Name").value;
    assert FirstRowWith(f.rows, ni, name) == Some(k);
  }

  /** `LinkFor` on a given frame, as a function of the name. */
  function LinkWith(f: Frame): string -> Result<string>
    requires Rectangular(f)
  {
    n => LinkFor(n, f)
  }

  /** The links of `names`, in order, or the first error. */
  function Links(names: seq<string>, f: Frame): (r: Result<seq<string>>)
    requires Rectangular(f)
    ensures r.Ok? ==> |r.value| == |names| && forall k :: 0 <= k < |names| ==> LinkFor(names[k], f) == Ok(r.value[k])
  {
    MapAll(names, LinkWith(f))
  }

  /** The links succeed exactly when every name's link does: one `KeyError` anywhere fails the whole list. */
  lemma {:induction false} LinksOk(names: seq<string>, f: Frame)
    requires Rectangular(f)
    ensures Links(names, f).Ok? <==> forall k :: 0 <= k < |names| ==> LinkFor(names[k], f).Ok?
  {
    if names != [] {
      var init := names[..|names| - 1];
      LinksOk(init, f);
      assert forall k :: 0 <= k < |init| ==> init[k] == names[k];
      if !Links(init, f).Ok? {
        var k :| 0 <= k < |init| && !LinkFor(init[k], f).Ok?;
        assert !LinkFor(names[k], f).Ok?;
      }
    }
  }

  function Bullets(links: seq<string>): (r: seq<string>)
    ensures |r| == |links| && forall k :: 0 <= k < |links| ==> r[k] == "- " + links[k]
  {
    Lists.Map(links, (l: string) => "- " + l)
  }

  /** The two headings of the expander text (written in short pieces, which the verifier handles more cheaply). */
  const MostRelevant: string := "**Most Relevant " + "Document:**"
  const OtherRelated: string := "**Other Related " + "Documents:**"

  /** The expander text for a non-empty list of links. */
  function SourcesBlock(links: seq<string>): string
    requires |links| > 0
  {
    MostRelevant + "\n- " + links[0]
    + if |links| > 1 then "\n\n" + OtherRelated + "\n" + Strings.Join(Bullets(links[1..]), "\n") else ""
  }

  /** The lines of the expander text. */
  function BlockLines(links: seq<string>): seq<string>
    requires |links| > 0
  {
    [MostRelevant, "- " + links[0]]
    + if |links| > 1 then ["", OtherRelated] + Bullets(links[1..]) else []
  }

  lemma Join4(a: string, b: string, c: string, d: string)
    ensures Strings.Join([a, b, c, d], "\n") == a + "\n" + b + "\n" + c + "\n" + d
  {
    assert [c, d][1..] == [d];
    assert Strings.Join([c, d], "\n") == c + "\n" + d;
    assert [b, c, d][1..] == [c, d];
    assert Strings.Join([b, c, d], "\n") == b + "\n" + (c + "\n" + d);
    assert [a, b, c, d][1..] == [b, c, d];
  }

  lemma BlockJoin(links: seq<string>)
    requires |links| > 0
    ensures Strings.Join(BlockLines(links), "\n") == SourcesBlock(links)
  {
    var first := "- " + links[0];
    if |links| > 1 {
      BlockJoinMany(links);
    } else {
      assert BlockLines(links) == [MostRelevant, first];
      assert [MostRelevant, first][1..] == [first];
    }
  }

  lemma BlockJoinMany(links: seq<string>)
    requires |links| > 1
    ensures Strings.Join(BlockLines(links), "\n") == SourcesBlock(links)
  {
    var first := "- " + links[0];
    var bs := Bullets(links[1..]);
    var j := Strings.Join(bs, "\n");
    assert BlockLines(links) == [MostRelevant, first, "", OtherRelated] + bs;
    JoinPrefix([MostRelevant, first, "", OtherRelated], bs);
    Join4(MostRelevant, first, "", OtherRelated);
    Regroup(MostRelevant, links[0], OtherRelated, j);
  }

  /** The joined lines and the block text group the same characters differently. */
  lemma Regroup(h: string, l: string, o: string, j: string)
    ensures h + "\n" + ("- " + l) + "\n" + "" + "\n" + o + "\n" + j == h + "\n- " + l + ("\n\n" + o + "\n" + j)
  {
    assert h + "\n" + ("- " + l) == h + "\n- " + l;
    assert "\n" + "" + "\n" == "\n\n";
  }

  /**
   * Read line by line, the block is the "Most Relevant Document" heading and the first link, then, only
   * when there are at least two links, an empty line, the "Other Related Documents" heading and one
   * bullet per further link in order (for links without line breaks).
   */
  lemma SourcesBlockLines(links: seq<string>)
    requires |links| > 0 && forall k :: 0 <= k < |links| ==> '\n' !in links[k]
    ensures Strings.Split(SourcesBlock(links), '\n') ==
            [MostRelevant, "- " + links[0]]
            + if |links| > 1 then ["", OtherRelated] + Bullets(links[1..]) else []
  {
    var lines := BlockLines(links);
    BlockJoin(links);
    forall k | 0 <= k < |lines| ensures '\n' !in lines[k] {
      if k >= 4 { assert lines[k] == "- " + links[k - 3]; }
    }
    Strings.SplitJoin(lines, '\n');
  }

  lemma {:induction false} JoinPrefix(head: seq<string>, tail: seq<string>)
    requires |head| > 0 && |tail| > 0
    ensures Strings.Join(head + tail, "\n") == Strings.Join(head, "\n") + "\n" + Strings.Join(tail, "\n")
  {
    if |head| > 1 {
      assert (head + tail)[1..] == head[1..] + tail;
      JoinPrefix(head[1..], tail);
    } else {
      assert (head + tail)[1..] == tail;
    }
  }

  /** A source name is its own de-duplication key. */
  function Name(x: string): string { x }

  /** `format_sources`'s result, or the `KeyError` it raises. */
  function FormatSourcesOf(sourceNames: seq<string>, f: Frame): Result<Option<string>>
    requires Rectangular(f)
  {
    if sourceNames == [] then Ok(None)
    else
      match Links(Lists.DedupBy(sourceNames, Name), f)
      case Err(e) => Err(e)
      case Ok(ls) => Ok(Some(SourcesBlock(ls)))
  }

  /**
   * `format_sources`: `None` exactly for no names; otherwise the block over the names de-duplicated in
   * first-occurrence order, each shown by `LinkFor`.
   */
  method FormatSources(sourceNames: seq<string>, urls: Frame) returns (r: Result<Option<string>>)
    requires Rectangular(urls)
    ensures r == FormatSourcesOf(sourceNames, urls)
    ensures r == Ok(None) <==> sourceNames == []
  {
    if sourceNames == [] {
      return Ok(None);
    }
    var uniqueSources := Lists.DedupBy(sourceNames, Name);
    assert sourceNames[0] in uniqueSources by {
      assert Name(sourceNames[0]) in Lists.Map(uniqueSources, Name);
    }
    var links := CollectLinks(uniqueSources, urls);
    if links.Err? {
      return Err(links.error);
    }
    var sourceLinks := links.value;
    assert |sourceLinks| > 0;
    var sourcesContent := MostRelevant + "\n- " + sourceLinks[0];
    if |sourceLinks| > 1 {
      sourcesContent := sourcesContent + ("\n\n" + OtherRelated + "\n" + Strings.Join(Bullets(sourceLinks[1..]), "\n"));
    } else {
      assert sourcesContent == sourcesContent + "";
    }
    assert sourcesContent == SourcesBlock(sourceLinks);
    r := Ok(Some(sourcesContent));
  }

  /** The loop of `format_sources` over the de-duplicated names: their links in order, or the first `KeyError`. */
  method CollectLinks(uniqueSources: seq<string>, urls: Frame) returns (r: Result<seq<string>>)
    requires Rectangular(urls)
    ensures r == Links(uniqueSources, urls)
  {
    var sourceLinks: seq<string> := [];
    for k := 0 to |uniqueSources|
      invariant Links(uniqueSources[..k], urls) == Ok(sourceLinks)
    {
      var link := LinkFor(uniqueSources[k], urls);
      LinksStep(uniqueSources, urls, k);
      if link.Err? {
        return Err(link.error);
      }
      sourceLinks := sourceLinks + [link.value];
    }
    assert uniqueSources[..|uniqueSources|] == uniqueSources;
    return Ok(sourceLinks);
  }

  /** One more name either extends the links or, if its link fails, makes the whole list fail with that error. */
  lemma LinksStep(names: seq<string>, f: Frame, k: nat)
    requires Rectangular(f) && k < |names| && Links(names[..k], f).Ok?
    ensures LinkFor(names[k], f).Ok? ==> Links(names[..k + 1], f) == Ok(Links(names[..k], f).value + [LinkFor(names[k], f).value])
    ensures LinkFor(names[k], f).Err? ==> Links(names, f) == Err(LinkFor(names[k], f).error)
  {
    assert names[..k + 1][..k] == names[..k];
    if LinkFor(names[k], f).Err? {
      LinksErrPersists(names, f, k + 1);
    }
  }

  lemma {:induction false} LinksErrPersists(names: seq<string>, f: Frame, k: nat)
    requires Rectangular(f) && k <= |names| && Links(names[..k], f).Err?
    ensures Links(names, f) == Links(names[..k], f)
    decreases |names| - k
  {
    if k < |names| {
      assert names[..k + 1][..k] == names[..k];
      LinksErrPersists(names, f, k + 1);
    } else {
      assert names[..k] == names;
    }
  }
}
