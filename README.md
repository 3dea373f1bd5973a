# The CCS intelligent-search backend, modelled in Dafny

This project models the sequential logic of Crown Commercial Service's RAG chat and search backend.
It covers the logic that sits between the hosted services. Every language-model, embedding, vector-search, HTTP,
blob-storage and file-system call is a function-typed parameter (an oracle), so each property holds
whatever those services answer.

Modules follow the repository's files:

- `MultiturnUtils` (`src/multiturn_utils.py`) covers one conversational turn:
  - the retrieval tool (`retrieve_bound`), k = 5, with its serialisation;
  - the `generate` node, with its trailing-tool context and history filter;
  - the three-node graph `query_or_respond → tools? → generate → END`;
  - `answer_once`'s answer and provenance scan;
  - `format_sources`.
- `ConvertHistory` (`src/convert_langchain_history_to_pydantic.py`) is the filter-map from LangChain to PydanticAI messages.
- `ChatbotApi` (`chatbot_api.py`) is the `/results` endpoint. It holds the per-user graph cache (a class whose map
  field is updated get-or-create), the thread configuration, and `load_files_for_links` with its empty-table fallback.
- `CcsChat` (`static/ccs_chat.js`) is the browser widget, modelled as a class:
  - local storage is a map from key to stored text;
  - the history is bounded to the last 60 entries;
  - the hydration flag suppresses writes;
  - `appendMessage`, `hydrateChat` and `sendQuery` are methods.
- `AiSearchApi` (`ai_search_api.py`) covers the vector query, the status filter and the `seen_titles` de-duplication loop with its cap.
- `Reranker` (`reranker.py`) holds the Yes/No partition, with one model call per result.
- `SystemPrompt` (`system_prompt.py`) holds the two prompt templates.
- `LlmUtils` (`src/llm_utils.py`) holds the index-schema check, the context join and `generate_response`'s source columns.
- `CcsWebsiteData` (`ccs_website_data.py`) holds the page loop of `fetch_all_ccs_frameworks` and the per-column HTML cleaning rule.
- `Evaluate` (`scripts/evaluate.py`) holds the "RM directory": the fetched table as a data frame, and one line per row.
- `RmPageData` (`rm_page_data.py`) holds:
  - the ZIP check;
  - the keep, recurse and descend rules of `extract_recursive`, over a tree of extracted entries;
  - `agreement_docs`;
  - the skip guard and the two loops of `get_rm_page_data`, producing the ordered list of blob uploads.
- Shared modules:
  - `Base`: Option / Result, and a left-to-right traversal that stops at the first error;
  - `Strings`: join, split, containment, Python `strip` and JS `trim`, ASCII case mapping;
  - `Lists`: order-preserving de-duplication, filter, map, flat-map;
  - `Messages`: LangChain messages and documents.

Errors that the source raises, quoted as the text of the Python exception, become `Err` values of a `Result`:

- a `KeyError` for a missing `metadata['title']`;
- a missing `File Name` or `File URL` column;
- an `AttributeError` for a missing column in the directory.

An error that the source catches becomes the value it falls back to.

Where a loop in the source updates variables, the model is a method with that loop. Each such method is proved equal to a
reference function, and the properties are proved about that function as lemmas. Examples:

- `answer_once`'s backward scan;
- the reranker's two lists;
- the page loop;
- `generate`'s reversed walk;
- the upload loops.

## Model

| member | source | states |
|---|---|---|
| MultiturnUtils.RetrieveBound | src/multiturn_utils.py:23-34 | The vector store is asked for exactly k = 5 documents. Those documents are the artifact, and the text is their serialisation. A search failure propagates. |
| MultiturnUtils.SerializeSnoc | src/multiturn_utils.py:29-32 | Each document adds one `Source: …\nContent: …` block after a blank line, in retrieval order. |
| MultiturnUtils.TrailingCount | src/multiturn_utils.py:39-44 | The count is of the tool messages that end the history. It stops at the first message that is not a tool message. |
| MultiturnUtils.TrailingCountUnique | src/multiturn_utils.py:39-46 | Any suffix of tool messages that a non-tool message (or the start) precedes has exactly that length. |
| MultiturnUtils.TrailingToolsUnique | src/multiturn_utils.py:39-46 | Such a suffix is exactly the context run, in original order. |
| MultiturnUtils.TrailingToolsIgnoresEarlier | src/multiturn_utils.py:39-48 | Tool messages before any non-tool message never reach `generate`'s context. |
| MultiturnUtils.GeneratePromptShape | src/multiturn_utils.py:49-64 | The prompt is one new system message starting with the grounding instruction. The rest are exactly the history's human, system and no-tool-call AI messages, as many times as each occurs. Tool messages and tool-calling AI messages never appear. |
| MultiturnUtils.Generate | src/multiturn_utils.py:36-66 | The reversed walk is proved equal to the reference prompt (trailing tool contents joined by a blank line, then the filtered history). The model is asked once, and its reply becomes an AI message. |
| MultiturnUtils.Next | src/multiturn_utils.py:182-189 | `query_or_respond` goes to `tools` iff a tool call was emitted, and otherwise to END. `tools` goes to `generate`, which goes to END. Every edge goes strictly forward. |
| MultiturnUtils.RouteFacts | src/multiturn_utils.py:182-189 | The route from the entry point visits `generate` iff it visits `tools`, iff a tool call was emitted. It visits `tools` at most once and ends at END. |
| MultiturnUtils.ToolNodeMessage | src/multiturn_utils.py:174 | The `tools` node always appends a tool message. On success its content is the serialised documents and its artifact reads back as exactly the retrieved documents. On a search failure its content is the error text and it has no artifact. |
| MultiturnUtils.ToolTurnShape | src/multiturn_utils.py:16-21 | A turn with a tool call streams four states. The third ends with the tool message for the last call. The fourth adds `generate`'s reply to the third. |
| MultiturnUtils.DirectTurnStates | src/multiturn_utils.py:182-187 | A turn without a tool call streams only the input and the model's reply. |
| MultiturnUtils.LastAnswerFacts | src/multiturn_utils.py:102-115 | The answer is "" when no step had messages. When the last message of the last non-empty step is an object, the answer is its content. |
| MultiturnUtils.LastToolIndex | src/multiturn_utils.py:130-140 | It returns the position of the most recent tool message (by `type`, or by a dict's `type`/`role`), and None iff there is none. |
| MultiturnUtils.DocsOf | src/multiturn_utils.py:149-155 | Each `Document` of the artifact gives its `metadata['title']` and `page_content`, index-aligned and in artifact order. Other entries are skipped. It is Ok iff every document has a title. |
| MultiturnUtils.NoToolNoSources | src/multiturn_utils.py:127-159 | With no tool message, both provenance lists are empty. |
| MultiturnUtils.OnlyMostRecentTool | src/multiturn_utils.py:133-146 | Only the single most recent tool message is read, whatever precedes it. A falsy artifact gives empty provenance. |
| MultiturnUtils.DocumentsOfArtifact | src/multiturn_utils.py:33 | Reading back the retrieval's artifact gives its documents. |
| MultiturnUtils.DocsOfArtifact | src/multiturn_utils.py:149-155 | The stored artifact of titled documents reads back as their titles and page contents, in retrieval order. |
| MultiturnUtils.AnswerOnce | src/multiturn_utils.py:88-165 | The answer loop and the `while i >= 0` scan with its found flag are proved equal to `AnswerOf`. It gives the last answer and the most recent tool message's provenance, or the `KeyError`. |
| MultiturnUtils.ReadArtifact | src/multiturn_utils.py:149-155 | The artifact loop computes `DocsOf`. |
| MultiturnUtils.DocsErrPersists | src/multiturn_utils.py:151-153 | The first document without a title fails the reading, whatever follows it. |
| MultiturnUtils.AnswerAfterTool | src/multiturn_utils.py:102-165 | A last step ending in a tool message with titled documents, then a reply, answers with the reply's text and exactly those documents. |
| MultiturnUtils.ToolThenReply | src/multiturn_utils.py:130-159 | A tool message followed by a reply reads back that tool message's documents. |
| MultiturnUtils.ProvenanceExample | src/multiturn_utils.py:102-165 | `[…, tool(artifact=[A, B]), answer]` gives names `[A.title, B.title]` in that order and the answer's content. |
| MultiturnUtils.AsSteps | src/multiturn_utils.py:82-86 | The streamed steps are the graph's state values, one per state, with each message an object. |
| MultiturnUtils.ToolTurnProvenance | src/multiturn_utils.py:88-189 | A tool turn whose last call finds titled documents answers with `generate`'s reply and reports exactly those documents, in order. |
| MultiturnUtils.StreamedToolAnswer | src/multiturn_utils.py:105-159 | The four streamed states of a tool turn read as the final reply and the tool's documents. |
| MultiturnUtils.StaleProvenanceOnDirectAnswer | src/multiturn_utils.py:103-159 | A directly answered turn reports the sources of an earlier turn's tool message, because the final messages are the whole thread. |
| MultiturnUtils.StaleMessages | src/multiturn_utils.py:130-159 | Messages whose most recent tool message carries titled documents read back those documents. |
| MultiturnUtils.ColumnIndex | src/multiturn_utils.py:206 | It finds the first column with the label, and None iff no column has it. |
| MultiturnUtils.FirstRowWith | src/multiturn_utils.py:206-209 | It finds the first row whose cell matches, and None iff no row matches. |
| MultiturnUtils.LinkFor | src/multiturn_utils.py:206-213 | A missing `File Name` column fails. A name that no row holds is shown plain. |
| MultiturnUtils.LinkForSpec | src/multiturn_utils.py:206-210 | A name that some row holds is `[name](url)`, with the `File URL` of the first such row. It fails iff `File URL` is missing. |
| MultiturnUtils.Links | src/multiturn_utils.py:204-213 | One link per name, in order. |
| MultiturnUtils.LinksOk | src/multiturn_utils.py:204-213 | The links succeed iff every name's link does. |
| MultiturnUtils.LinksStep | src/multiturn_utils.py:204-213 | One more name extends the links, or fails the whole list with its error. |
| MultiturnUtils.LinksErrPersists | src/multiturn_utils.py:204-213 | After the first failing name, nothing later changes the result. |
| MultiturnUtils.Bullets | src/multiturn_utils.py:218 | Each link becomes `- link`, in order. |
| MultiturnUtils.SourcesBlockLines | src/multiturn_utils.py:216-218 | Line by line, the block is the "Most Relevant Document" heading and the first link. Only for at least two links does it continue with an empty line, the "Other Related Documents" heading and one bullet per further link. |
| MultiturnUtils.BlockJoin | src/multiturn_utils.py:216 | With one link, the block's lines join back to the block. |
| MultiturnUtils.BlockJoinMany | src/multiturn_utils.py:216-218 | With several links, the block's lines join back to the block. |
| MultiturnUtils.CollectLinks | src/multiturn_utils.py:204-213 | The loop over the de-duplicated names computes `Links`. |
| MultiturnUtils.FormatSources | src/multiturn_utils.py:195-220 | The result is None iff there are no names. Otherwise it is the block over the names, de-duplicated in first-occurrence order. |
| ConvertHistory.ConvertHistoryForPydantic | src/convert_langchain_history_to_pydantic.py:4-12 | The loop computes the message-by-message conversion. |
| ConvertHistory.ConvertedIsFilterMap | src/convert_langchain_history_to_pydantic.py:6-12 | The conversion keeps human and non-empty AI messages in order and converts each. The output is no longer than the input. |
| ConvertHistory.RequestCount | src/convert_langchain_history_to_pydantic.py:8-9 | Every human message, empty content included, becomes one request with the same content. |
| ConvertHistory.ResponseCount | src/convert_langchain_history_to_pydantic.py:10-11 | An AI message becomes a response iff its content is non-empty. Tool and system messages leave nothing. |
| ChatbotApi.ConfigFor | chatbot_api.py:89 | The thread id is the user id. |
| ChatbotApi.LoadFilesForLinks | chatbot_api.py:61-74 | `FileName` and `AzureURL` are renamed to `File Name` and `File URL`, and other columns and the rows are kept. Any failure gives the empty table. |
| ChatbotApi.LoadKeepsRectangular | chatbot_api.py:68-70 | The renamed table still has one cell per column in every row. |
| ChatbotApi.FallbackTableFails | chatbot_api.py:71-74 | On the fallback table, `format_sources` fails for any non-empty list of names. |
| ChatbotApi.App.AiSearchApi | chatbot_api.py:76-93 | A user id not seen before gets a new graph stored under it. A known id reuses its graph, and nothing is rebuilt. Other ids are unchanged. The response is `answer_once`'s result on the user's thread. |
| ChatbotApi.SameUserReusesGraph | chatbot_api.py:85-87 | Two requests of one user use the same graph and build at most one. |
| CcsChat.StorageKeyInjective | static/ccs_chat.js:33 | Distinct users have distinct storage keys. |
| CcsChat.LastN | static/ccs_chat.js:44 | `slice(-n)` gives the last n entries, or all entries when there are fewer. |
| CcsChat.LoadFrom | static/ccs_chat.js:15-21 | The result is `[]` when the key is absent, the text is empty or unparsable, or the value is not an array. Otherwise it is the stored array. |
| CcsChat.SaveLoadRoundTrip | static/ccs_chat.js:36-44 | Reading back what was saved gives the last 60 entries: at most 60, and the whole history when it is shorter. |
| CcsChat.SaveIsolated | static/ccs_chat.js:44 | Saving under one key leaves every other key's history unchanged. |
| CcsChat.PushBounded | static/ccs_chat.js:50-55 | A push appends at the end, dropping the oldest entry only when 60 are stored. |
| CcsChat.ResponseHtmlHead | static/ccs_chat.js:134-149 | The answer's HTML starts with the response container. It has more iff `source_content` is non-empty. |
| CcsChat.ResponseHtmlButtons | static/ccs_chat.js:136-146 | Every listed source occurs in the HTML as its own download button. |
| CcsChat.ChatClient.SaveHistory | static/ccs_chat.js:42-48 | The last 60 entries are stored. A refused write changes nothing. |
| CcsChat.ChatClient.PushMessageToHistory | static/ccs_chat.js:50-55 | Nothing happens while hydrating. Otherwise the stored history is saved with the entry appended. |
| CcsChat.ChatClient.AppendMessage | static/ccs_chat.js:57-83 | The message is shown. `{sender, content, isHtml}` is stored when `skipStore` is false, the widget is not hydrating and the write is accepted, and then reads back as the last 60 entries. Otherwise storage is unchanged. |
| CcsChat.ChatClient.HydrateChat | static/ccs_chat.js:85-96 | Storage is unchanged. The greeting is shown first, then every stored entry in order, and `isHydrating` ends false. |
| CcsChat.ChatClient.SendQuery | static/ccs_chat.js:114-155 | An input that trims to nothing changes nothing. Otherwise the input is cleared, and the user message and then exactly one bot message are shown. The user entry and the bot entry are two separate writes, each accepted or refused on its own, and the stored history is `AfterSend` of the old one. Other storage keys are untouched. |
| CcsChat.ChatClient.SubmitQuery | static/ccs_chat.js:118-119 | The user message is shown, it is stored when its write is accepted, and the input is cleared. |
| CcsChat.ChatClient.BotResponse | static/ccs_chat.js:121-154 | With no API URL the "not configured" text is shown, without a request. A failed request gives the error text. An answer gives its HTML. |
| CcsChat.ChatClient.Submit | static/ccs_chat.js:118-154 | A non-blank query shows the user message, then exactly one bot message. Each of the two writes is accepted or refused separately, giving `AfterSend`. |
| CcsChat.AfterSendLast | static/ccs_chat.js:44-55 | After a send, at most 60 entries are stored. The history ends with the bot entry when its write was accepted, with the user entry when only that write was accepted, and is unchanged when neither was. |
| AiSearchApi.FilterExprShape | ai_search_api.py:45 | The filter is `status eq '<status>'`, with the status verbatim, and None iff the status is empty. |
| AiSearchApi.FilterExprInjective | ai_search_api.py:45 | Different statuses give different filters. |
| AiSearchApi.RequestShape | ai_search_api.py:39-52 | It is a pure vector search over the upper-cased query: 40 neighbours, top 40, on the `embedding` field, with the status filter and four selected fields. |
| AiSearchApi.SelectTopResults | ai_search_api.py:54-67 | The loop, with its seen set and early break, computes the first hit of each title, cut at `total_results`. |
| AiSearchApi.TopResultsDistinct | ai_search_api.py:57-63 | The kept titles are pairwise distinct. The kept hits are a prefix of the de-duplicated search, in search order. |
| AiSearchApi.TopResultsFirsts | ai_search_api.py:57-67 | Each kept hit is the first with its title. The number kept is `total_results` when 1 ≤ total ≤ the number of distinct titles, and all distinct titles otherwise. |
| AiSearchApi.TopResultsCoverAll | ai_search_api.py:66-67 | When the stop test cannot fire (total ≤ 0, or more than the number of distinct titles), every title of the search is kept. |
| AiSearchApi.StopAt | ai_search_api.py:66-67 | Stopping once `total_results` titles are kept gives the endpoint's results. |
| AiSearchApi.AiSearch | ai_search_api.py:36-70 | The response is the reranking, with the query as typed, of the de-duplicated top results of the search for the upper-cased query. |
| Reranker.RerankList | reranker.py:23-43 | The loop computes all "Yes" results in input order followed by all "No" results in input order. |
| Reranker.RerankedCount | reranker.py:36-43 | A result occurs once per word its reply contains: twice with both, never with neither. |
| Reranker.RerankedLength | reranker.py:43 | The output is at most twice as long as the input. |
| Reranker.RerankedParts | reranker.py:29-43 | The first part holds only "Yes" results and the rest only "No" results. |
| Reranker.LowerCaseYesDropped | reranker.py:36-40 | The test is case-sensitive: a reply of "yes" drops the result. |
| Reranker.PromptHoldsResult | reranker.py:32-34 | The prompt holds the query, and `title + " " + description`, verbatim. |
| SystemPrompt.PromptEmbeds | system_prompt.py:1-8 | The query follows `user query: ` and the title follows `title: `, verbatim, inside fixed text. |
| SystemPrompt.PromptInjective | system_prompt.py:1-8 | Equal prompts with equal-length queries come from the same query and title. |
| SystemPrompt.PromptV2Embeds | system_prompt.py:10-25 | The three arguments follow `User Query:`, `Document Title:` and `Document Content:`, verbatim, inside fixed text. |
| LlmUtils.CheckIndexNaming | src/llm_utils.py:7-28 | The flag loop returns true iff some field is `content_vector` and some field is `content`. |
| LlmUtils.HasNamingSameNames | src/llm_utils.py:20-28 | The result depends only on which names occur, not on their order or repeats. |
| LlmUtils.HasNamingExamples | src/llm_utils.py:20-28 | No fields gives false, and the two names in either order give true. |
| LlmUtils.DocsContentSnoc | src/llm_utils.py:47 | The context is the page contents joined by a blank line, in context order. |
| LlmUtils.DocsContentHasEach | src/llm_utils.py:47 | Every document's page content occurs verbatim in the context. |
| LlmUtils.MetadataColumn | src/llm_utils.py:69-70 | There is one value per document, in order, or the `KeyError` when a document lacks the key. |
| LlmUtils.GenerateResponseSpec | src/llm_utils.py:52-72 | `source_names` are the `title` and `source_contents` the `chunk` metadata (not the page content), one per retrieved document, in order. The answer comes from those same documents. |
| CcsWebsiteData.IsMissing | ccs_website_data.py:10 | A scalar is missing iff it is None or NaN. For a list, `pd.isna` is an array: a list of one element is missing iff that element is, and any other list raises `ValueError`. |
| CcsWebsiteData.CleanHtml | ccs_website_data.py:8-15 | It raises iff the missingness test does. A missing value stays missing (None), and anything else is cleaned from its `str()`. |
| CcsWebsiteData.CleanHtmlList | ccs_website_data.py:10-15 | A list of two or more elements, or none, raises `ValueError`. `[None]` and `[NaN]` become None. A one-element list of a text or scalar is cleaned from its `str()`. |
| CcsWebsiteData.CleanedRecordSpec | ccs_website_data.py:52-59 | Cleaning a record raises iff one of the five columns holds a value whose missingness has no truth value. Otherwise it keeps the fields and copies every field outside the five columns, and every None. A missing value in a cleaned column becomes None and any other is cleaned from its `str()`. |
| CcsWebsiteData.CleanRecord | ccs_website_data.py:53-57 | The column-by-column loop computes the cleaned copy, or stops at the `ValueError`. |
| CcsWebsiteData.CleanStep | ccs_website_data.py:54-57 | Cleaning one more, distinct column extends the cleaned columns by it. |
| CcsWebsiteData.CleanResults | ccs_website_data.py:51-59 | There is one cleaned copy per record, in order, or the `ValueError` of the first record that raises. |
| CcsWebsiteData.RunSpec | ccs_website_data.py:32-78 | Pages 1, 2, 3, … are requested in order. Every page before the last was cleaned and had results and a larger `last_page`. The run raised iff cleaning the last page raised. Otherwise the last page failed, was empty, or reached `last_page` (which defaults to the page itself), and the records are those of all requested pages, in order. |
| CcsWebsiteData.RunStep | ccs_website_data.py:45-73 | The three stop tests, the escaping `ValueError`, and what one page adds. |
| CcsWebsiteData.CollectedCons | ccs_website_data.py:62 | Records accumulate in page order, then record order. |
| CcsWebsiteData.FetchAllCcsFrameworks | ccs_website_data.py:19-91 | With the cleaning of `CleanResults`, the fetch raises `ValueError` iff the run raised. Otherwise it returns the collected records, or None iff nothing was collected. The requests it makes are for status, limit 300 and pages 1, 2, … in order. |
| CcsWebsiteData.FetchPages | ccs_website_data.py:32-91 | The `while True` loop, for any page cleaning that either succeeds or raises `ValueError` (empty results are never cleaned), computes `Run`. |
| CcsWebsiteData.ErrorKeepsEarlierPages | ccs_website_data.py:76-78 | A request error ends the loop without raising and keeps the earlier pages' records. |
| CcsWebsiteData.ListAbortsFetch | ccs_website_data.py:51-78 | A record whose cleaned column holds a list of two or more elements aborts the whole fetch with `ValueError`, whatever the earlier pages gave. No `except` catches it. |
| CcsWebsiteData.MissingLastPageStops | ccs_website_data.py:66-71 | A first page without `last_page` (a body without `meta` included) ends the fetch after it, with its records, unless cleaning it raises. |
| Evaluate.Attr | scripts/evaluate.py:66-69 | It is Ok iff the row has the column. |
| Evaluate.LinesSpec | scripts/evaluate.py:65-71 | It is Ok iff every row has the four read columns, with one line per row in iteration order. Otherwise the error is the first failing row's. |
| Evaluate.RmDescriptionsLines | scripts/evaluate.py:65-71 | Splitting the directory at line breaks gives back one line per row, with no trailing empty line, when values are single-line. |
| Evaluate.LineSingle | scripts/evaluate.py:66-69 | A row with single-line values gives a single-line line. |
| Evaluate.FormatLineSingle | scripts/evaluate.py:66-69 | The fixed parts of a line have no line break. |
| Evaluate.FormatLineEnds | scripts/evaluate.py:66-69 | A line starts with `RM: {rm} | ` and ends with ` ({category})`. |
| Evaluate.LineEnds | scripts/evaluate.py:66-69 | Each line starts with its RM number and ends with its category in parentheses. |
| Evaluate.KeywordsFieldSpec | scripts/evaluate.py:67 | Keywords is `N/A` iff the column is absent, its string form is blank, or it is literally `N/A`. Otherwise it is the value's string form, which is never blank. |
| Evaluate.MissingKeywordsShown | scripts/evaluate.py:67 | NaN shows as `nan` and None as `None`, not as `N/A`. |
| Evaluate.FrameRow | ccs_website_data.py:80-82 | A data-frame row has exactly the fields some record has, each the record's value or NaN where the record lacks it. |
| Evaluate.Frame | ccs_website_data.py:80-82 | The data frame has one row per record, in record order. |
| Evaluate.RmDirectorySpec | scripts/evaluate.py:64-71 | When the fetch returned None, `iterrows` raises `AttributeError`. For a table, the directory is built iff the table has no rows or each of the four read fields is held by some record. |
| Evaluate.AbsentKeywordsShowNan | scripts/evaluate.py:67 | A record without `keywords`, in a table where another record has that field, shows `nan`, not `N/A`: the `in` test looks at the row's columns. |
| RmPageData.SkipProcessed | rm_page_data.py:15 | `[149:]` gives the rows from position 149 on, and is empty for a shorter table. |
| RmPageData.SuffixShape | rm_page_data.py:28 | A suffix is empty, or a final dot followed by at least one non-dot character. |
| RmPageData.ZipCheckerSpec | rm_page_data.py:25-34 | It is true iff the suffix is not `.odt`/`.docx`/`.xlsx`, there are at least 4 bytes, and they are `50 4B 03 04`. The undotted `pdf` entry never matches. |
| RmPageData.PdfZipIsZip | rm_page_data.py:25-34 | A `.pdf` URL whose data starts like a ZIP is treated as a ZIP. |
| RmPageData.ExtractRecursive | rm_page_data.py:60-85 | The scan loop with its recursion computes `Extracted`. |
| RmPageData.Extracted | rm_page_data.py:60-85 | Every returned file is one the keep rule lists. |
| RmPageData.ScanIgnoresDirs | rm_page_data.py:74-83 | Directories beside other items are not descended into. |
| RmPageData.SoleDirDescends | rm_page_data.py:69-73 | A sole extracted directory is scanned inside. |
| RmPageData.UnpackedReplaced | rm_page_data.py:76-81 | An unpacked archive is replaced by its own files and never listed itself. |
| RmPageData.DsStoreNeverExcluded | rm_page_data.py:60 | A lower-cased name never equals `.DS_Store`. |
| RmPageData.DsStoreListed | rm_page_data.py:60-83 | A plain `.DS_Store` file is therefore kept. |
| RmPageData.OfficeFileListedWhole | rm_page_data.py:76-83 | A `.docx` (a ZIP inside) is listed whole, not unpacked. |
| RmPageData.AgreementDocs | rm_page_data.py:99-108 | It returns None iff something raises: no base URL, an RM number that is not a string, a failed request or body, or a missing `documents` key. Otherwise it returns the documents. |
| RmPageData.ProcessDoc | rm_page_data.py:125-157 | One document: the download uploaded under its URL's name, or one upload per extracted file. |
| RmPageData.ProcessDocs | rm_page_data.py:124-160 | The documents are processed in order. |
| RmPageData.GetRmPageData | rm_page_data.py:111-160 | The row loop with its `continue` guard computes `Run`. |
| RmPageData.DocSkipped | rm_page_data.py:125-160 | A missing title or url, or a failed download, is caught and adds nothing. |
| RmPageData.NonZipUploadedWhole | rm_page_data.py:130-137 | A non-ZIP download is uploaded whole, under its URL's file name. |
| RmPageData.ArchiveUploads | rm_page_data.py:139-151 | A failed extraction adds nothing. Otherwise there is one upload per extracted file, under its name, and none is `.xml`/`.rdf` or has an excluded name. |
| RmPageData.SkipGuard | rm_page_data.py:115-124 | A framework with None or empty documents adds nothing. A framework adds uploads only when it lists a titled document whose download succeeds. |
| RmPageData.RunSpec | rm_page_data.py:111-115 | The run crashes iff there is no table, or rows remain and there is no `rm_number` column, and it then uploads nothing. Every upload belongs to a framework at position 149 or later. |
| RmPageData.StoreHas | rm_page_data.py:137-151 | A blob exists iff some upload had its name. |
| RmPageData.StoreLast | rm_page_data.py:137-151 | A blob holds the data of the last upload with its name (`overwrite=True`). |
| Messages.TypeTags | src/multiturn_utils.py:58-63 | The four `type` tags are distinct. |
| Lists.DedupBy | src/multiturn_utils.py:201 | The kept keys are distinct, every key occurs, and nothing new appears. |
| Lists.DedupByIsFirsts | ai_search_api.py:57-63 | De-duplication keeps exactly the first occurrence of each key, in order. |
| Strings.SplitJoin | scripts/evaluate.py:65 | Splitting a join of line-break-free texts at the separator gives back the texts. |
| Strings.StripIsSlice | scripts/evaluate.py:67 | `strip()` keeps a slice and removes only whitespace characters (the given set), from both ends. |
| Strings.StripEmpty | static/ccs_chat.js:115-116 | A text trims to nothing iff all its characters are whitespace characters (the given set). |

## Left out

- **Oracles.** Language models (`query_or_respond`'s tool-call decision, `generate`'s and the reranker's `llm.invoke`), embeddings, vector and Azure search, blob storage, Cosmos DB and `requests` are function parameters. The model proves nothing about what they answer.
- **LangGraph runtime.** `ToolNode`, `tools_condition` and the checkpointers are not modelled. The graph's streamed states are modelled as the current thread history plus the turn's new messages.
- **ToolNode errors.** A failed retrieval becomes a tool message with the error text and no artifact. This assumes `ToolNode`'s default `handle_tool_errors`, which catches every exception the tool raises; that default depends on the LangGraph version, and that code is not part of this model.
- **MultiturnUtils.ToolNodeMessage:** the tool call's name is ignored and every call searches. `ToolNode` answers a call naming an unknown tool with an error message and does not search; the model does not capture that case.
- **ChatbotApi.App.AiSearchApi:** the graph is a serial number standing for `build_graph`'s result. The in-process map has no eviction or locking (concurrency is out of scope).
- **ChatbotApi.LoadFilesForLinks:** CSV parsing is an oracle giving a table or an error. The `print` on failure is omitted.
- **JSON.** The JSON round-trip in `ccs_chat.js` is taken as given: a saved array of `{sender, content, isHtml}` parses back to the same entries.
- **CcsChat storage writes.** Whether storage refuses a write (quota, blocked storage) is a boolean parameter, one per `setItem` call.
- **CcsChat.ChatClient.SendQuery:** each send runs to completion before the next one starts. In the widget, `sendQuery` awaits `fetch` and `resp.json()` and the input stays enabled, so a second Enter can start another send. Two sends can then interleave their messages (user 1, user 2, bot 2, bot 1). The model does not capture that ordering.
- **CcsChat.LoadFrom / CcsChat.ChatClient.HydrateChat:** a stored array is modelled as an array of `{sender, content, isHtml}` entries. An array with other elements is not modelled. For a `null` element, `m.content` throws inside `hydrateChat` before `isHydrating` is reset, so the flag stays up and later pushes are dropped.
- **CcsChat rendering.** DOM rendering, styles, scrolling, `downloadSource` and `fetch` are not modelled. The server answer is a parameter: failed, or fields that may be missing (a missing `AI_response` renders as `undefined`).
- **Text functions.** Python `str.upper`/`lower`/`strip` and JavaScript `trim` use ASCII case mapping and an explicit set of whitespace characters. There is no Unicode case folding.
- **Python `str()`.** `str()` of a metadata dict (the retrieval tool's `Source:` line) is a parameter. `str()` of a table value is the text for strings, `None`/`nan` for missing values, the given `repr` for lists, and an opaque text otherwise.
- **HTML cleaning.** The BeautifulSoup extraction in `clean_html_from_text` is an oracle. Only its missing-value rule is modelled.
- **CcsWebsiteData.FetchAllCcsFrameworks:** the API is a finite sequence of page answers, and a page past them answers with no results, so the loop terminates. `time.sleep` and `print` are omitted. A missing `meta` or `last_page` is modelled. Not modelled: a body that is not a JSON object, `"meta": null` (where `.get` raises an uncaught `AttributeError`), and a non-integer `last_page`. The page loop takes the page cleaning as a function; `CleanResults` is the method with the source's inner loops, proved to compute that function.
- **CcsWebsiteData.IsMissing:** an empty list raises `ValueError`, as NumPy 2.2 and later do. Earlier NumPy versions take an empty array as false, and there `[]` would be cleaned from its `str()`. `str()` of a list is given with the value, not computed from its elements.
- **Evaluate.** Only the directory (lines 64-71) is modelled. The LLM labelling, `pd.read_tsv` and the script's broken imports are not part of this model. The rows are data-frame rows (`Frame`): every row has every field that some record has, and an absent field is NaN. Column order and pandas' type coercion of columns are not modelled. A `ValueError` raised by the fetch itself stops the script before these lines and is not repeated here.
- **RmPageData file system.** Archive extraction is an oracle, over a tree of extracted entries with their `is_zipfile` verdicts and members.
  - `iterdir` order is taken as the tree's order.
  - A nested archive that fails to extract is not modelled: the oracle's failure stands for the outer archive.
  - This includes a nested ZIP whose name has no suffix. `with_suffix('')` is then the file's own path, so `mkdir` raises `FileExistsError` and the whole document uploads nothing, whereas `Unpacked` unpacks it.
  - `mkdir`, `unlink`, `rmtree`, file reads and `print` are omitted.
- **RmPageData uploads.** Blob uploads always succeed. The run's effect is the ordered list of uploads, and `Store` gives the resulting container.
- **RmPageData.AgreementDocs:** a `documents` value that is not a list of dicts (a string, say) is not modelled.
- **RmPageData.Name:** `PurePath.name` is the last non-empty `/`-separated component. Query strings and URL encoding are kept as text.
- **Per-row `rm_number`.** A row lacking the field (NaN in the frame) gives a non-text value, so `agreement_docs` returns None.
- **Other files.** `ai_docs_filterer_for_RAG.py` (prompt text and an agent call), `embed_for_simple_ai_search.py`, the dummy Flask apps and the module-level client construction are not modelled.
- **Tests vs code.** `tests/test_ccs_website_data.py` passes `sleep_seconds` and patches `requests.Session`, which `fetch_all_ccs_frameworks` neither accepts nor uses. The code is modelled, not the test.
- **MultiturnUtils.LinkFor:** its own contract states only the failure and plain-name cases. The linked case is `LinkForSpec`.
- **MultiturnUtils.LastAnswerFacts:** it states the object-message case. For a dict the answer is its `content`, or the previous answer when it has none; this holds by the definition that `AnswerOnce` is proved against.

Behaviours of the code that a reader might not expect, and that the model keeps:

- **Answer text.** The answer is the content of the last message of the last step that had messages. A dict message without `content` keeps the previous value.
- **Provenance scan.** Provenance is read from the single most recent tool message, not from a contiguous run of tool messages. The scan stops on the iteration after that message is found.
- **Whole-thread provenance.** The final messages are the whole thread state, so a turn answered without retrieval reports the sources of an earlier turn's tool message (`StaleProvenanceOnDirectAnswer`).
- **Non-empty answer.** An answer is not guaranteed to be non-empty when there is no tool message.
- **Response fields.** The endpoint returns `answer`, `source_names` and `source_contents`, while the widget reads `AI_response` and `source_content`. Both are modelled as written.
- **Name order.** `format_sources` keeps names in first-occurrence order, not set order.
