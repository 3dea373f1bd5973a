/** Conversion of the stored LangChain history into PydanticAI's request/response messages. */
module ConvertHistory {
  import opened Base
  import opened Messages
  import Lists

  /** A PydanticAI message with its single part: a user prompt or a text reply. */
  datatype PydanticMessage = ModelRequest(userPrompt: string) | ModelResponse(text: string)

  /** Human messages are always kept; AI messages only with non-empty content; nothing else. */
  predicate IsKept(m: Message)
  {
    m.Human? || (m.Ai? && m.content != "")
  }

  /** The message a kept message becomes. */
  function Convert(m: Message): PydanticMessage
  {
    if m.Human? then ModelRequest(m.content) else ModelResponse(m.content)
  }

  /** The conversion of a whole history, message by message in order. */
  function Converted(ms: seq<Message>): seq<PydanticMessage>
  {
    if ms == [] then []
    else
      var m := ms[|ms| - 1];
      Converted(ms[..|ms| - 1]) + if IsKept(m) then [Convert(m)] else []
  }

  /** `convert_history_for_pydantic`: one pass over the history, appending the converted kept messages. */
  method ConvertHistoryForPydantic(langchainMessages: seq<Message>) returns (pydanticMsgs: seq<PydanticMessage>)
    ensures pydanticMsgs == Converted(langchainMessages)
  {
    pydanticMsgs := [];
    for i := 0 to |langchainMessages|
      invariant pydanticMsgs == Converted(langchainMessages[..i])
    {
      assert langchainMessages[..i + 1][..i] == langchainMessages[..i];
      var m := langchainMessages[i];
      TypeTags(m);
      if m.Type() == "human" {
        pydanticMsgs := pydanticMsgs + [ModelRequest(m.content)];
      } else if m.Type() == "ai" && m.content != "" {
        pydanticMsgs := pydanticMsgs + [ModelResponse(m.content)];
      }
    }
    assert langchainMessages[..|langchainMessages|] == langchainMessages;
  }

  /** The conversion is the filter-map: keep the human and non-empty AI messages in order, then convert each. */
  lemma {:induction false} ConvertedIsFilterMap(ms: seq<Message>)
    ensures Converted(ms) == Lists.Map(Lists.Filter(ms, IsKept), Convert)
    ensures |Converted(ms)| <= |ms|
  {
    if ms != [] {
      var init := ms[..|ms| - 1];
      ConvertedIsFilterMap(init);
      var f := Lists.Filter(init, IsKept);
      var m := ms[|ms| - 1];
      if IsKept(m) {
        assert Lists.Map(f + [m], Convert) == Lists.Map(f, Convert) + [Convert(m)];
      }
    }
  }

  /** How many AI messages with content `c` a history holds, whatever their tool calls. */
  function AiCount(ms: seq<Message>, c: string): nat
  {
    if ms == [] then 0
    else AiCount(ms[..|ms| - 1], c) + if ms[|ms| - 1].Ai? && ms[|ms| - 1].content == c then 1 else 0
  }

  lemma ConvertedSnoc(ms: seq<Message>)
    requires ms != []
    ensures var m := ms[|ms| - 1];
            multiset(Converted(ms)) == multiset(Converted(ms[..|ms| - 1])) +
              (if m.Human? then multiset{ModelRequest(m.content)}
               else if m.Ai? && m.content != "" then multiset{ModelResponse(m.content)}
               else multiset{})
  {
  }

  /** Every human message becomes one request with the same content, empty content included. */
  lemma {:induction false} RequestCount(ms: seq<Message>, c: string)
    ensures multiset(Converted(ms))[ModelRequest(c)] == multiset(ms)[Human(c)]
  {
    if ms != [] {
      RequestCount(ms[..|ms| - 1], c);
      RequestStep(ms, c);
    }
  }

  /** The last message adds one request with content `c` exactly when it is the human message `c`. */
  lemma RequestStep(ms: seq<Message>, c: string)
    requires ms != []
    ensures var init := ms[..|ms| - 1];
            var one := if ms[|ms| - 1] == Human(c) then 1 else 0;
            multiset(Converted(ms))[ModelRequest(c)] == multiset(Converted(init))[ModelRequest(c)] + one
            && multiset(ms)[Human(c)] == multiset(init)[Human(c)] + one
  {
    var init := ms[..|ms| - 1];
    var m := ms[|ms| - 1];
    var x := if IsKept(m) then [Convert(m)] else [];
    assert Converted(ms) == Converted(init) + x;
    assert multiset(Converted(ms)) == multiset(Converted(init)) + multiset(x);
    if m == Human(c) {
      assert x == [ModelRequest(c)];
    } else if IsKept(m) {
      assert x == [Convert(m)] && Convert(m) != ModelRequest(c);
    }
    assert ms == init + [m];
    assert multiset(ms) == multiset(init) + multiset{m};
  }

  /**
   * An AI message becomes one response exactly when its content is non-empty; together with
   * `RequestCount`, system and tool messages leave nothing.
   */
  lemma {:induction false} ResponseCount(ms: seq<Message>, c: string)
    ensures multiset(Converted(ms))[ModelResponse(c)] == if c == "" then 0 else AiCount(ms, c)
  {
    if ms != [] {
      var init := ms[..|ms| - 1];
      ResponseCount(init, c);
      ConvertedSnoc(ms);
    }
  }
}
