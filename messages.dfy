/** The LangChain message and document values that flow through a conversation turn. */
module Messages {
  import opened Base

  /** A document's metadata dictionary (all values taken as text). */
  type Metadata = map<string, string>

  /** `langchain_core.documents.Document`. */
  datatype Document = Document(metadata: Metadata, pageContent: string)

  /** A tool call an AI message requests: the tool's name and its `query` argument. */
  datatype ToolCall = ToolCall(name: string, query: string)

  /** An entry of a tool message's artifact: a `Document`, or any other object (a dict, say). */
  datatype ArtifactItem = Doc(doc: Document) | NotDocument

  /** The message kinds of a conversation, by LangChain's `message.type`. */
  datatype Message =
    | Human(content: string)
    | Ai(content: string, toolCalls: seq<ToolCall>)
    | SystemMsg(content: string)
    | Tool(content: string, artifact: Option<seq<ArtifactItem>>)
  {
    /** LangChain's `message.type` tag. */
    function Type(): string
    {
      match this
      case Human(_) => "human"
      case Ai(_, _) => "ai"
      case SystemMsg(_) => "system"
      case Tool(_, _) => "tool"
    }
  }

  /** The four tags are distinct, so a test of `message.type` is a test of the message kind. */
  lemma TypeTags(m: Message)
    ensures m.Type() == "human" <==> m.Human?
    ensures m.Type() == "ai" <==> m.Ai?
    ensures m.Type() == "system" <==> m.SystemMsg?
    ensures m.Type() == "tool" <==> m.Tool?
  {
    assert "human"[0] != "ai"[0] && "human"[0] != "system"[0] && "human"[0] != "tool"[0];
    assert "ai"[0] != "system"[0] && "ai"[0] != "tool"[0] && "system"[0] != "tool"[0];
  }

  /** The documents of a retrieval, wrapped as artifact entries. */
  function AsArtifact(docs: seq<Document>): (items: seq<ArtifactItem>)
    ensures |items| == |docs| && forall k :: 0 <= k < |docs| ==> items[k] == Doc(docs[k])
  {
    seq(|docs|, k requires 0 <= k < |docs| => Doc(docs[k]))
  }
}
