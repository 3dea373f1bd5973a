/**
 * The browser chat widget: a per-user history kept in local storage (at most the last 60 entries), a
 * hydration flag that suppresses writes while the stored conversation is redrawn, and the send logic.
 */
module CcsChat {
  import opened Base
  import Strings
  import Lists

  /** How many history entries are kept in storage. */
  const MaxMessages: nat := 60

  // The texts below are written as concatenations of short literals: the verifier's cost for a
  // literal grows with the square of its length, and the concatenation denotes the same string.
  const DefaultGreeting: string := "Hello! I am your " + "web guide. " + "How can I help " + "you today?"
  const NotConfiguredText: string := "Chat backend " + "is not configured."
  const ServiceErrorText: string := "Error connecting " + "to AI service."

  /** A stored history entry. */
  datatype Entry = Entry(sender: string, content: string, isHtml: bool)

  /** A parsed JSON value, as far as the history reader distinguishes: an array of entries, or anything else. */
  datatype JsonValue = JArray(entries: seq<Entry>) | JOther

  /**
   * What local storage holds under a key, described by how `JSON.parse` reads it: the empty text,
   * a text that parses to a value, or a text that does not parse.
   */
  datatype StoredText = EmptyText | Encoded(value: JsonValue) | Garbage(raw: string)

  /** What the widget shows for one message: user messages are always plain text. */
  datatype Shown = Shown(sender: string, content: string, asHtml: bool)

  function Display(content: string, sender: string, isHtml: bool): Shown
  {
    Shown(sender, content, sender != "user" && isHtml)
  }

  /** The storage key of a user's history. */
  function StorageKey(userId: string): string
  {
    "ccs_chat_history_" + userId
  }

  /** Distinct users never share a history. */
  lemma StorageKeyInjective(u: string, v: string)
    ensures StorageKey(u) == StorageKey(v) <==> u == v
  {
    if StorageKey(u) == StorageKey(v) {
      assert u == StorageKey(u)[|"ccs_chat_history_"|..];
      assert v == StorageKey(v)[|"ccs_chat_history_"|..];
    }
  }

  /** `history.slice(-n)`: the last `n` entries, or all of them when there are fewer. */
  function LastN<T>(h: seq<T>, n: nat): (r: seq<T>)
    ensures |r| == if |h| <= n then |h| else n
    ensures r == h[|h| - |r|..]
  {
    if |h| <= n then h else h[|h| - n..]
  }

  /** `loadHistory` on a storage state: the stored array, or `[]` when absent, empty, unparsable or not an array. */
  function LoadFrom(store: map<string, StoredText>, key: string): (h: seq<Entry>)
    ensures key !in store ==> h == []
    ensures key in store && !(store[key].Encoded? && store[key].value.JArray?) ==> h == []
    ensures key in store && store[key].Encoded? && store[key].value.JArray? ==> h == store[key].value.entries
  {
    if key !in store then []
    else
      match store[key]
      case EmptyText => []
      case Garbage(_) => []
      case Encoded(v) => if v.JArray? then v.entries else []
  }

  /** The value `JSON.stringify(history.slice(-60))` stores. */
  function Saved(history: seq<Entry>): StoredText
  {
    Encoded(JArray(LastN(history, MaxMessages)))
  }

  /** Reading back what was saved gives the last 60 entries: at most 60, a suffix of what was saved. */
  lemma SaveLoadRoundTrip(store: map<string, StoredText>, key: string, history: seq<Entry>)
    ensures LoadFrom(store[key := Saved(history)], key) == LastN(history, MaxMessages)
    ensures |LoadFrom(store[key := Saved(history)], key)| <= MaxMessages
    ensures |history| <= MaxMessages ==> LoadFrom(store[key := Saved(history)], key) == history
  {
  }

  /** Saving under one key leaves every other key's history as it was. */
  lemma SaveIsolated(store: map<string, StoredText>, key: string, other: string, history: seq<Entry>)
    requires other != key
    ensures LoadFrom(store[key := Saved(history)], other) == LoadFrom(store, other)
  {
  }

  /** One more entry on a history of at most 60: it is appended at the end, dropping the oldest only when full. */
  lemma PushBounded(h: seq<Entry>, e: Entry)
    requires |h| <= MaxMessages
    ensures |h| < MaxMessages ==> LastN(h + [e], MaxMessages) == h + [e]
    ensures |h| == MaxMessages ==> LastN(h + [e], MaxMessages) == h[1..] + [e]
    ensures LastN(h + [e], MaxMessages)[|LastN(h + [e], MaxMessages)| - 1] == e
  {
    if |h| == MaxMessages {
      assert (h + [e])[1..] == h[1..] + [e];
    }
  }

  /** What the server's JSON answer holds, or a failure of the request or of its parsing. */
  datatype FetchOutcome = Failed | Reply(aiResponse: Option<string>, sourceContent: Option<seq<string>>)

  /** A template literal's rendering of a field that may be missing. */
  function Rendered(v: Option<string>): string
  {
    match v
    case Some(s) => s
    case None => "undefined"
  }

  /** `n` spaces of indentation inside the template literal. */
  function Indent(n: nat): (r: string)
    ensures |r| == n && forall k :: 0 <= k < n ==> r[k] == ' '
  {
    if n == 0 then "" else " " + Indent(n - 1)
  }

  /** The download-button emoji as the file stores it (its UTF-8 bytes read as Windows-1252). */
  const ButtonIcon: string := "\U{00F0}\U{0178}\U{201C}\U{00A5}"

  function SourceButton(source: string): string
  {
    "<button onclick=\"" + "downloadSource('" + source + "')\" " + "class=\"download-btn\">" + ButtonIcon + " " + source + "</button>"
  }

  const SourcesOpen: string :=
    "\n" + Indent(12) + "<div style=\"" + "border-top: 1px solid #ddd; " + "padding-top: 10px; " + "margin-top: 10px;" + "\">"
    + "\n" + Indent(14) + "<p style=\"" + "font-size: 11px; " + "font-weight: bold; " + "color: #666; " + "margin-bottom: 5px;"
    + "\">SOURCES:</p>"
    + "\n" + Indent(14) + "<div style=\"" + "display: flex; " + "flex-direction: column; " + "gap: 5px;" + "\">"
    + "\n" + Indent(16)

  const SourcesClose: string := "\n" + Indent(14) + "</div>" + "\n" + Indent(12) + "</div>"

  /** The opening of the answer's HTML: the response text in its container. */
  function ResponseHead(aiResponse: Option<string>): string
  {
    "<div class=\"msg-content\">" + Rendered(aiResponse) + "</div>"
  }

  /** The answer's HTML: the response text, then a sources block only when the answer lists sources. */
  function ResponseHtml(aiResponse: Option<string>, sourceContent: Option<seq<string>>): string
  {
    ResponseHead(aiResponse)
    + if sourceContent.Some? && |sourceContent.value| > 0
      then SourcesOpen + Strings.Join(Lists.Map(sourceContent.value, SourceButton), "") + SourcesClose
      else ""
  }

  /** The answer's HTML starts with the response text, and has more exactly when sources are listed. */
  lemma ResponseHtmlHead(aiResponse: Option<string>, sourceContent: Option<seq<string>>)
    ensures Strings.IsPrefix(ResponseHead(aiResponse), ResponseHtml(aiResponse, sourceContent))
    ensures ResponseHtml(aiResponse, sourceContent) == ResponseHead(aiResponse) <==>
            sourceContent.None? || |sourceContent.value| == 0
  {
    var head := ResponseHead(aiResponse);
    var r := ResponseHtml(aiResponse, sourceContent);
    var tail := r[|head|..];
    assert r == head + tail;
    assert r[..|head|] == head;
    if sourceContent.Some? && |sourceContent.value| > 0 {
      assert |SourcesOpen| > 0;
      assert |tail| > 0;
    }
  }

  /** When sources are listed, every one of them occurs in the answer's HTML as its own download button. */
  lemma ResponseHtmlButtons(aiResponse: Option<string>, sources: seq<string>, k: nat)
    requires k < |sources|
    ensures Strings.Contains(ResponseHtml(aiResponse, Some(sources)), SourceButton(sources[k]))
  {
    var buttons := Lists.Map(sources, SourceButton);
    Strings.WrappedJoinHasPart(ResponseHead(aiResponse), SourcesOpen, buttons, SourcesClose, k);
  }

  /** The widget of one signed-in user: local storage, the shown messages, the input box and the flag. */
  class ChatClient {
    var store: map<string, StoredText>
    var shown: seq<Shown>
    var inputValue: string
    var isHydrating: bool
    const userId: string
    const apiUrl: string
    const storageKey: string

    /** The widget after `init`'s guard passed (a user id is present) and before the first redraw. */
    constructor(userId: string, apiUrl: string, store: map<string, StoredText>)
      requires userId != ""
      ensures this.userId == userId && this.apiUrl == apiUrl && this.store == store
      ensures storageKey == StorageKey(userId) && shown == [] && inputValue == "" && !isHydrating
    {
      this.userId := userId;
      this.apiUrl := apiUrl;
      this.store := store;
      storageKey := StorageKey(userId);
      shown := [];
      inputValue := "";
      isHydrating := false;
    }

    /** `loadHistory`. */
    function LoadHistory(): (h: seq<Entry>)
      reads this
      ensures h == LoadFrom(store, storageKey)
    {
      LoadFrom(store, storageKey)
    }

    /** `saveHistory`: stores the last 60 entries; when storage refuses the write (`accepted` false) nothing changes. */
    method SaveHistory(history: seq<Entry>, accepted: bool)
      modifies this
      ensures accepted ==> store == old(store)[storageKey := Saved(history)]
      ensures !accepted ==> store == old(store)
      ensures shown == old(shown) && inputValue == old(inputValue) && isHydrating == old(isHydrating)
    {
      if accepted {
        store := store[storageKey := Saved(history)];
      }
    }

    /** `pushMessageToHistory`: nothing while hydrating; otherwise the stored history with `entry` appended. */
    method PushMessageToHistory(entry: Entry, accepted: bool)
      modifies this
      ensures isHydrating || !accepted ==> store == old(store)
      ensures !isHydrating && accepted ==> store == old(store)[storageKey := Saved(LoadFrom(old(store), storageKey) + [entry])]
      ensures shown == old(shown) && inputValue == old(inputValue) && isHydrating == old(isHydrating)
    {
      if isHydrating {
        return;
      }
      var history := LoadHistory();
      history := history + [entry];
      SaveHistory(history, accepted);
    }

    /** `appendMessage`: shows the message, and stores `{sender, content, isHtml}` unless `skipStore`. */
    method AppendMessage(content: string, sender: string, isHtml: bool, skipStore: bool, accepted: bool)
      modifies this
      ensures shown == old(shown) + [Display(content, sender, isHtml)]
      ensures skipStore || isHydrating || !accepted ==> store == old(store)
      ensures !skipStore && !isHydrating && accepted ==>
                store == old(store)[storageKey := Saved(LoadFrom(old(store), storageKey) + [Entry(sender, content, isHtml)])]
      ensures !skipStore && !isHydrating && accepted ==>
                LoadFrom(store, storageKey) == LastN(LoadFrom(old(store), storageKey) + [Entry(sender, content, isHtml)], MaxMessages)
      ensures inputValue == old(inputValue) && isHydrating == old(isHydrating)
      ensures forall k :: k != storageKey ==> (k in store <==> k in old(store)) && (k in store ==> store[k] == old(store)[k])
    {
      shown := shown + [Display(content, sender, isHtml)];
      if !skipStore {
        PushMessageToHistory(Entry(sender, content, isHtml), accepted);
        SaveLoadRoundTrip(old(store), storageKey, LoadFrom(old(store), storageKey) + [Entry(sender, content, isHtml)]);
      }
    }

    /**
     * `hydrateChat`: clears the view, shows the greeting and then every stored entry in order, storing
     * nothing, and ends with the flag down.
     */
    method HydrateChat()
      modifies this
      ensures store == old(store) && !isHydrating && inputValue == old(inputValue)
      ensures |shown| == |LoadFrom(old(store), storageKey)| + 1
      ensures shown[0] == Display(DefaultGreeting, "bot", false)
      ensures forall k :: 0 <= k < |LoadFrom(old(store), storageKey)| ==>
                var m := LoadFrom(old(store), storageKey)[k]; shown[k + 1] == Display(m.content, m.sender, m.isHtml)
    {
      isHydrating := true;
      shown := [];
      var history := LoadHistory();
      AppendMessage(DefaultGreeting, "bot", false, true, true);
      for i := 0 to |history|
        invariant store == old(store) && isHydrating && inputValue == old(inputValue)
        invariant |shown| == i + 1 && shown[0] == Display(DefaultGreeting, "bot", false)
        invariant forall k :: 0 <= k < i ==> shown[k + 1] == Display(history[k].content, history[k].sender, history[k].isHtml)
      {
        var m := history[i];
        AppendMessage(m.content, m.sender, m.isHtml, true, true);
      }
      isHydrating := false;
    }

    /**
     * `sendQuery`. `fetch` stands for the POST of `{user_id, query}` and the parse of its answer;
     * `acceptedUser` and `acceptedBot` say whether storage takes the write of the user's entry and of the
     * bot's entry, two separate `setItem` calls. An input that trims to nothing does nothing; otherwise the
     * user's message is shown, the input is cleared, exactly one bot message follows, and the stored
     * history is `AfterSend` of what was stored.
     */
    method SendQuery(fetch: (string, string) -> FetchOutcome, acceptedUser: bool, acceptedBot: bool)
      requires !isHydrating
      modifies this
      ensures var query := Strings.JsTrim(old(inputValue));
              var reply := BotReply(apiUrl, fetch(userId, query));
              var replyIsHtml := BotReplyIsHtml(apiUrl, fetch(userId, query));
              if query == "" then
                store == old(store) && shown == old(shown) && inputValue == old(inputValue)
              else
                inputValue == ""
                && shown == old(shown) + [Display(query, "user", false), Display(reply, "bot", replyIsHtml)]
                && LoadFrom(store, storageKey) ==
                     AfterSend(LoadFrom(old(store), storageKey), Entry("user", query, false),
                               Entry("bot", reply, replyIsHtml), acceptedUser, acceptedBot)
      ensures !acceptedUser && !acceptedBot ==> store == old(store)
      ensures forall k :: k != storageKey ==> (k in store <==> k in old(store)) && (k in store ==> store[k] == old(store)[k])
      ensures !isHydrating
    {
      var query := Strings.JsTrim(inputValue);
      if query == "" {
        return;
      }
      Submit(query, fetch, acceptedUser, acceptedBot);
    }

    /** `sendQuery` once the input is known not to be blank: the user's message, then exactly one bot message. */
    method Submit(query: string, fetch: (string, string) -> FetchOutcome, acceptedUser: bool, acceptedBot: bool)
      requires !isHydrating
      modifies this
      ensures var reply := BotReply(apiUrl, fetch(userId, query));
              var replyIsHtml := BotReplyIsHtml(apiUrl, fetch(userId, query));
              inputValue == ""
              && shown == old(shown) + [Display(query, "user", false), Display(reply, "bot", replyIsHtml)]
              && LoadFrom(store, storageKey) ==
                   AfterSend(LoadFrom(old(store), storageKey), Entry("user", query, false),
                             Entry("bot", reply, replyIsHtml), acceptedUser, acceptedBot)
      ensures !acceptedUser && !acceptedBot ==> store == old(store)
      ensures forall k :: k != storageKey ==> (k in store <==> k in old(store)) && (k in store ==> store[k] == old(store)[k])
      ensures !isHydrating
    {
      SubmitQuery(query, acceptedUser);
      var responseText, responseIsHtml := BotResponse(query, fetch);
      AppendMessage(responseText, "bot", responseIsHtml, false, acceptedBot);
    }

    /** The first half of `sendQuery` once the input is known not to be blank: show and store it, clear the box. */
    method SubmitQuery(query: string, accepted: bool)
      requires !isHydrating
      modifies this
      ensures inputValue == "" && shown == old(shown) + [Display(query, "user", false)] && !isHydrating
      ensures accepted ==> LoadFrom(store, storageKey) == LastN(LoadFrom(old(store), storageKey) + [Entry("user", query, false)], MaxMessages)
      ensures !accepted ==> store == old(store)
      ensures forall k :: k != storageKey ==> (k in store <==> k in old(store)) && (k in store ==> store[k] == old(store)[k])
    {
      AppendMessage(query, "user", false, false, accepted);
      inputValue := "";
    }

    /**
     * The bot's answer to `query`: the configuration notice without asking the server when no API URL is
     * set, else the error text when the request fails, else the answer's HTML.
     */
    method BotResponse(query: string, fetch: (string, string) -> FetchOutcome) returns (text: string, isHtml: bool)
      ensures text == BotReply(apiUrl, fetch(userId, query)) && isHtml == BotReplyIsHtml(apiUrl, fetch(userId, query))
      ensures apiUrl == "" ==> text == NotConfiguredText && !isHtml
      ensures apiUrl != "" && fetch(userId, query).Failed? ==> text == ServiceErrorText && !isHtml
      ensures apiUrl != "" && fetch(userId, query).Reply? ==>
                isHtml && text == ResponseHtml(fetch(userId, query).aiResponse, fetch(userId, query).sourceContent)
    {
      if apiUrl == "" {
        return NotConfiguredText, false;
      }
      var outcome := fetch(userId, query);
      match outcome {
        case Failed =>
          text, isHtml := ServiceErrorText, false;
        case Reply(aiResponse, sourceContent) =>
          text, isHtml := ResponseHtml(aiResponse, sourceContent), true;
      }
    }
  }

  /** The bot message `sendQuery` adds after the user's: the configuration notice, the error text or the answer. */
  function BotReply(apiUrl: string, outcome: FetchOutcome): string
  {
    if apiUrl == "" then NotConfiguredText
    else match outcome
      case Failed => ServiceErrorText
      case Reply(a, s) => ResponseHtml(a, s)
  }

  /** Only a received answer is rendered as HTML. */
  function BotReplyIsHtml(apiUrl: string, outcome: FetchOutcome): bool
  {
    apiUrl != "" && outcome.Reply?
  }

  /**
   * The stored history after a send: the user's entry is pushed when its write is accepted, then the bot's
   * entry is pushed onto what storage then holds when that write is accepted.
   */
  function AfterSend(stored: seq<Entry>, user: Entry, bot: Entry, acceptedUser: bool, acceptedBot: bool): seq<Entry>
  {
    var afterUser := if acceptedUser then LastN(stored + [user], MaxMessages) else stored;
    if acceptedBot then LastN(afterUser + [bot], MaxMessages) else afterUser
  }

  /**
   * After a send the history ends with the bot's entry when its write was accepted; when only the
   * user's write was accepted it ends with the user's entry, no reply after it; when neither was, it is
   * unchanged. It never holds more than 60 entries when it held at most 60 before.
   */
  lemma AfterSendLast(stored: seq<Entry>, user: Entry, bot: Entry, acceptedUser: bool, acceptedBot: bool)
    requires |stored| <= MaxMessages
    ensures var h := AfterSend(stored, user, bot, acceptedUser, acceptedBot);
            |h| <= MaxMessages
            && (acceptedBot ==> |h| > 0 && h[|h| - 1] == bot)
            && (acceptedUser && !acceptedBot ==> |h| > 0 && h[|h| - 1] == user)
            && (!acceptedUser && !acceptedBot ==> h == stored)
            && (acceptedUser && acceptedBot ==> |h| >= 2 && h[|h| - 2] == user)
  {
    if acceptedUser {
      PushBounded(stored, user);
      var afterUser := LastN(stored + [user], MaxMessages);
      if acceptedBot {
        PushBounded(afterUser, bot);
        var h := LastN(afterUser + [bot], MaxMessages);
        assert |h| >= 2 && h[|h| - 2] == afterUser[|afterUser| - 1];
      }
    } else if acceptedBot {
      PushBounded(stored, bot);
    }
  }
}
