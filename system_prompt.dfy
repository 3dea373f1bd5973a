/**
 * The reranker's prompt templates: fixed instruction text with the user's query and the document's
 * text interpolated verbatim. The fixed pieces are written as concatenations of short literals, which
 * denote the same strings and are far cheaper for the verifier than one long literal.
 */
module SystemPrompt {
  import Strings

  /** The text of `system_prompt` before the query (the template starts with a line break). */
  const Head: string :=
    "\n" + "    Given a user query " + "and description give a " + "\n"
    + "    Yes or No answer " + "to see if the user query" + "\n"
    + "    and description " + "relate to each." + "\n"
    + "    user query: "

  /** Between the query and the title: a trailing space, a line break, the title label. */
  const Mid: string := " \n" + "    title: "

  /** After the title: three trailing spaces, a line break and the closing line's indentation. */
  const Tail: string := "   \n" + "    "

  /** `system_prompt(user_query, title)`. */
  function Prompt(userQuery: string, title: string): string
  {
    Head + userQuery + Mid + title + Tail
  }

  /**
   * The query sits right after the fixed head and the title right after the fixed middle, both verbatim;
   * the prompt starts with the head and ends with the tail whatever the inputs are.
   */
  lemma PromptEmbeds(userQuery: string, title: string)
    ensures var p := Prompt(userQuery, title);
            |p| == |Head| + |userQuery| + |Mid| + |title| + |Tail|
            && p[..|Head|] == Head
            && Strings.OccursAt(p, userQuery, |Head|)
            && Strings.OccursAt(p, Mid, |Head| + |userQuery|)
            && Strings.OccursAt(p, title, |Head| + |userQuery| + |Mid|)
            && p[|p| - |Tail|..] == Tail
  {
    Layout5(Head, userQuery, Mid, title, Tail);
  }

  /** Where each of five concatenated texts sits in the concatenation. */
  lemma Layout5(a: string, b: string, c: string, d: string, e: string)
    ensures var p := a + b + c + d + e;
            |p| == |a| + |b| + |c| + |d| + |e|
            && p[..|a|] == a
            && Strings.OccursAt(p, b, |a|)
            && Strings.OccursAt(p, c, |a| + |b|)
            && Strings.OccursAt(p, d, |a| + |b| + |c|)
            && p[|p| - |e|..] == e
  {
    var p := a + b + c + d + e;
    var i := |a| + |b|;
    var j := i + |c|;
    var k := j + |d|;
    assert p[..|a|] == a;
    assert p[|a|..i] == b;
    assert p[i..j] == c;
    assert p[j..k] == d;
    assert p[k..] == e;
  }

  /** Two prompts that agree, with queries of equal length, come from the same query and title. */
  lemma PromptInjective(q1: string, t1: string, q2: string, t2: string)
    requires Prompt(q1, t1) == Prompt(q2, t2) && |q1| == |q2|
    ensures q1 == q2 && t1 == t2
  {
    PromptEmbeds(q1, t1);
    PromptEmbeds(q2, t2);
  }

  /** The text of `system_prompt_v2` before the query: the instructions, the output rules and the opening rule line. */
  const HeadV2: string :=
    "\n" + "    You are an expert " + "document relevance " + "classifier. " + "Your sole task is " + "to judge whether "
    + "the provided " + "document chunk is " + "useful for answering " + "the user's query." + "\n"
    + "\n"
    + "You must only use " + "the facts and context " + "explicitly available " + "in the document. "
    + "Do not use " + "outside knowledge." + "\n"
    + "\n"
    + "### Output Rules" + "\n"
    + "1.  **Strictly** " + "output only " + "a single word: " + "**Yes** or **No**." + "\n"
    + "2.  Do not include " + "any explanation, " + "punctuation, " + "or other text." + "\n"
    + "\n"
    + "---" + "\n"
    + "User Query: "

  const TitleLabel: string := "\n" + "Document Title: "
  const ContentLabel: string := "\n" + "Document Content: "

  /** After the description: the closing rule line and the indentation of the template's last line. */
  const TailV2: string := "\n" + "---" + "\n" + "    "

  /** `system_prompt_v2(user_query, title, description)`. */
  function PromptV2(userQuery: string, title: string, description: string): string
  {
    HeadV2 + userQuery + TitleLabel + title + ContentLabel + description + TailV2
  }

  /** The three arguments follow their labels verbatim, inside fixed text that is the same for all inputs. */
  lemma PromptV2Embeds(userQuery: string, title: string, description: string)
    ensures var p := PromptV2(userQuery, title, description);
            var a := |HeadV2|;
            var b := a + |userQuery| + |TitleLabel|;
            var c := b + |title| + |ContentLabel|;
            |p| == c + |description| + |TailV2|
            && p[..a] == HeadV2
            && Strings.OccursAt(p, userQuery, a)
            && Strings.OccursAt(p, TitleLabel, a + |userQuery|)
            && Strings.OccursAt(p, title, b)
            && Strings.OccursAt(p, ContentLabel, b + |title|)
            && Strings.OccursAt(p, description, c)
            && p[|p| - |TailV2|..] == TailV2
  {
    Layout7(HeadV2, userQuery, TitleLabel, title, ContentLabel, description, TailV2);
  }

  /** Where each of seven concatenated texts sits in the concatenation. */
  lemma Layout7(a: string, b: string, c: string, d: string, e: string, f: string, g: string)
    ensures var p := a + b + c + d + e + f + g;
            var i := |a| + |b| + |c|;
            var j := i + |d| + |e|;
            |p| == j + |f| + |g|
            && p[..|a|] == a
            && Strings.OccursAt(p, b, |a|)
            && Strings.OccursAt(p, c, |a| + |b|)
            && Strings.OccursAt(p, d, i)
            && Strings.OccursAt(p, e, i + |d|)
            && Strings.OccursAt(p, f, j)
            && p[|p| - |g|..] == g
  {
    var abc := a + b + c;
    var p := abc + d + e + f + g;
    Layout5(abc, d, e, f, g);
    assert abc[..|a|] == a && abc[|a|..|a| + |b|] == b && abc[|a| + |b|..] == c;
    Strings.OccursInPrefix(p, abc, b, |a|);
    Strings.OccursInPrefix(p, abc, c, |a| + |b|);
    assert p[..|a|] == abc[..|a|];
  }
}
