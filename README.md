# A sales-assistant chatbot, modelled in Dafny

The chatbot answers shoppers of a phone retailer. Its core logic is modelled here.

- **Routing graph (`App`).** A question first goes to a language-detection node. A manager node then picks a route: product, shop information or no answer. Next comes one handler. Only after the product or shop handler does the formatting node run; `no_answer` leads straight to the end. Each node returns a partial update of the agent state. The graph framework merges that update into the state.
- **Console loop (`App`).** It reads lines until an exit word and keeps the conversation history.
- **Index builders (`BuildVectorSearch`, `LegacyBuildVectorSearch`).** They normalise collection names and metadata. They build a product's searchable text from its CSV fields, select the rows to index and cut the insertion into batches of ten.
- **Retrieval formatter (`Rag`).** It renders the metadata returned by a vector search as numbered text blocks. A separate function returns the constant table of the three shops.
- **Web front end (`StreamlitApp`).** It keeps session state: the chat lists, the four statistics counters, the workflow tracker's step counter, and the clear, reset and export actions.
- **Demo agent (`SimpleReactAgent`).** Its tool functions, its environment check and the event counter of its lifecycle hooks.

`Text` models the Python string operations these files rely on: `lower`, `strip`, `replace`, `join` and `str(n)`. None of the files calls `split`. `Text.Split` is a reference inverse of `join`, used to state that the chat export can be split back into its lines. `Wrappers` holds `Option`, `Result` and `Outcome`.

Foreign services become parameters:

- The language model is a total function from prompt records to reply strings, in `App.Env`.
- The vector store is a function from a query to the `metadatas` its search returns.
- `ast.literal_eval` is a partial parse function.
- A random draw is a natural number.
- The process environment is a map.
- A graph run, as the web front end sees it, is a `GraphOutcome`: a raise or a returned dict.

Two index builders exist: build_vector_search.py and the older data/build-vector-search.py. The older script's `sanitize_collection_name` and `sanitize_metadata` (data/build-vector-search.py:35-46) are the same code as the current ones (only docstrings and comments differ), and the `BuildVectorSearch` members model both. Only the two `join_string` functions differ; `LegacyBuildVectorSearch` models the older one.

Two behaviours of the code are worth noting, and the model keeps both:

- The web front end adds one to `successful_responses` as soon as the graph returns. That happens even when, right afterwards, `routing_decision.lower()` raises on a `None` value and the error reply is sent (streamlit_app.py:332-333). The success counter therefore can grow on that error path. The invariant that still holds is `product + shop <= successful <= total`.
- The older `join_string` in data/build-vector-search.py never falls back when the colours value does not parse: it raises. An empty tuple makes it fail on an unbound variable.

## Model

| member | source | states |
|---|---|---|
| Text.LowerChar | app.py:71 | an upper-case ASCII letter becomes its lower-case letter (code point plus 32); every other character is kept; the result is never an upper-case ASCII letter |
| Text.Lower | app.py:71 | lowering keeps the length and leaves no upper-case ASCII letter; each upper-case letter becomes its lower-case letter in place, and every other character is kept |
| Text.LowerIdempotent | app.py:71 | lowering a lowered text changes nothing |
| Text.LeadLen | build_vector_search.py:38 | the leading run of characters to strip is never longer than the text |
| Text.StripBy | build_vector_search.py:38 | the stripped text is never longer than the original |
| Text.StripBySpec | build_vector_search.py:38 | the result of stripping is the slice after the leading run; it starts and ends with a character outside the set; only characters from the set come before and after it |
| Text.StripKeepsWords | app.py:71-77 | `Strip` (`str.strip()` over white space): for a word that starts and ends with a non-space character, stripping neither hides nor reveals an occurrence |
| Text.StripFindsWord | app.py:71-77 | such a word, found in the original text, is still found after stripping |
| Text.StrippedWordOccurs | app.py:71-77 | a word found in the stripped text occurs in the original |
| Text.ReplaceCharRemoves | build_vector_search.py:63 | `ReplaceAll` (`str.replace`): replacing a character by a text without it leaves no occurrence of it |
| Text.ReplaceAbsent | build_vector_search.py:63 | replacing a pattern that does not occur changes nothing |
| Text.ReplaceCharPointwise | build_vector_search.py:63 | replacing one character by another keeps the length and changes exactly the positions that held it |
| Text.ReplaceCharKeepsAbsent | build_vector_search.py:63 | replacing a character by one outside a pattern cannot create that pattern |
| Text.ReplaceLeavesNoPattern | build_vector_search.py:63 | replacing a pattern by a text sharing no character with it leaves no occurrence of the pattern |
| Text.ReplaceAtFirst | build_vector_search.py:63 | `str.replace` copies the text before the first occurrence of the pattern, puts the replacement in its place, and continues after it; so each "<br>" that `CleanMarkup` meets becomes one space |
| Text.Split | streamlit_app.py:197-200 | the reference inverse of the export's `join`: splitting yields at least one piece |
| Text.SplitJoin | streamlit_app.py:197-200 | `Join` is undone by `Split`: splitting a join at its one-character separator gives the parts back, when no part holds the separator |
| Text.JoinStartsWithFirst | app.py:136 | a join of one or more parts starts with the first part |
| Text.Decimal | rag.py:46 | `str(n)` of a natural number is a non-empty string of decimal digits, with no leading '0' unless n is 0 |
| Text.DecimalValue | rag.py:46 | the digits of `str(n)` denote n |
| Text.DecimalInjective | rag.py:46 | different numbers have different decimal texts |
| App.Merge | app.py:17-29 | a merged state takes every key the node returned and keeps every other key, the query and the messages |
| App.ProcessQuery | app.py:32-46 | `process_query` returns exactly the `language` key, set to a reply with no white space at either end |
| App.RoutingDecision | app.py:71-79 | the route is always one of the three labels; "product" exactly when the lowered reply contains "product"; "shop_information" exactly when it does not but contains "shop_information" |
| App.DetermineAgent | app.py:48-86 | `determine_agent` always sets `routing_decision`, to one of the three labels |
| App.HandleProductQuery | app.py:88-118 | the product handler returns exactly the retrieved text and the response; the text is the formatted search results for the query; the response is the model's answer to a product prompt holding that query, that text and the state's language |
| App.HandleShopInformationQuery | app.py:120-150 | the shop handler returns exactly the shop table and the response; the response is the model's answer to a shop prompt holding the query, the printed table and the state's language |
| App.FormatResponse | app.py:152-157 | `format_response` returns no key, so merging its update leaves the state as it was |
| App.RouteQuery | app.py:160-167 | the edge label is one of the three labels; "product" or "shop_information" exactly when the decision is that label; "no_answer" for every other value, `None` included |
| App.NoAnswer | app.py:169-179 | the Vietnamese apology exactly when the language is "vi", the English one otherwise |
| App.EdgeRaisesRank | app.py:194-212 | every edge of the graph leads to a node of higher rank |
| App.Next | app.py:194-212 | the node run after a node is always one of its successors in the graph |
| App.PathRanks | app.py:194-212 | along a path, rank grows by at least one per step |
| App.PathNodesDistinct | app.py:194-212 | the graph has no cycle: no node occurs twice on a path |
| App.PathIsShort | app.py:194-212 | every path has at most six nodes, START and END included |
| App.Execute | app.py:194-212 | a run from a node visits nothing exactly when it starts at END; otherwise it starts at that node and follows the graph's edges to END. It always leaves `language` set and keeps the query and the messages |
| App.Invoke | app.py:243 | `compiled_graph.invoke` starts with `process_query`, follows the edges from START to END through at most four nodes, and leaves `language` set |
| App.NodeChangesOnlyOwnKeys | app.py:44-179 | each node returns exactly its own keys: language (app.py:44-46); routing decision (84-86); retrieved products and response (115-118); shop table and response (147-150); nothing (157); response (173-179). After the merge every other field is unchanged |
| App.Routed | app.py:44-86 | after the first two nodes the language is the stripped detection reply and the route is the parsed decision; everything else is as in the input |
| App.InvokeStartsWithRouting | app.py:194-206 | every run starts with `process_query` then `determine_agent`, then continues from the handler the route picks |
| App.HandlerForIsBranchTarget | app.py:198-206 | the handler a route leads to is the node the conditional edge's path map gives for that label |
| App.HandlerRun | app.py:208-212 | from the product or shop handler the run goes on to `format_response` and ends; from `no_answer` it ends at once |
| App.FormatResponseRun | app.py:152-157 | `format_response` leaves the state unchanged and the run ends |
| App.InvokeFollowsOnePath | app.py:194-212 | every run visits the fixed node sequence of its route, a path of the graph with at most four nodes. It always leaves a response, and keeps the query and messages |
| App.PathForSplits | app.py:198-212 | the node sequence of a route is the two routing nodes, then the handler, then `format_response` unless the handler is `no_answer` |
| App.PathForIsPath | app.py:194-212 | the node sequence of every route, with START and END, follows the graph's edges and has at most four nodes |
| App.InvokeKeepsLanguage | app.py:92-139 | the detected language is the language given in every answer prompt of the run |
| App.HandlerPromptsUseLanguage | app.py:92-139 | a handler's answer prompt carries the state's language |
| App.NoAnswerRunReplies | app.py:169-179 | on the no-answer route the response is the apology for the detected language; the retrieval fields are left as they were |
| App.ProductRunReplies | app.py:88-118 | on the product route the state holds the formatted search results and the model's answer to the product prompt; the shop field is untouched |
| App.ShopRunReplies | app.py:120-150 | on the shop route the state holds the shop table and the model's answer to the shop prompt; the product field is untouched |
| App.InvokeResponds | app.py:243-246 | `result["response"]` is always set after a run |
| App.GraphReplyIsResponse | app.py:243-246 | the reply the console loop records is the response the run leaves |
| App.ConversationShape | app.py:233-246 | `Conversation`: the history holds two entries per line: the line as a user message, then the graph's reply to the history before it |
| App.ConversationSnoc | app.py:246 | each line extends the history by its user message and its reply |
| App.ExitCommandIgnoresCase | app.py:228 | `IsExitCommand` ignores ASCII case: a lowered line is an exit word exactly when the line is; exit words are three or four characters long |
| App.ChatTurns | app.py:221-246 | the loop stops on the first exit word, or when input runs out. The history then covers exactly the lines before that point |
| App.ChatLoop | app.py:217-249 | the console loop over this graph: exits iff an exit word is read, and then the last line read is the first exit word; otherwise every line is read. The history is the conversation of the lines before the exit word |
| BuildVectorSearch.SanitizedIsClean | build_vector_search.py:35-39 | `SanitizeCollectionName`: a sanitised name holds only `[a-z0-9_]` and neither starts nor ends with `_` |
| BuildVectorSearch.SanitizeFixesExactlyClean | build_vector_search.py:35-39 | sanitising leaves a name unchanged exactly when it is already clean |
| BuildVectorSearch.SanitizeIdempotent | build_vector_search.py:35-39 | sanitising twice is sanitising once |
| BuildVectorSearch.ProductsNameKept | build_vector_search.py:152 | the collection "products" keeps its name |
| BuildVectorSearch.SanitizeMetadataValues | build_vector_search.py:41-47 | `SanitizeMetadata` drops "embedding" and keeps every other key; a value becomes "" exactly when it was `None` or already "" |
| BuildVectorSearch.SanitizeMetadataIdempotent | build_vector_search.py:41-47 | sanitising a sanitised record changes nothing |
| BuildVectorSearch.CleanMarkupRemovesBreaks | build_vector_search.py:63-67 | `CleanMarkup`: the cleaned promotion and specs hold no "<br>" and no line break |
| BuildVectorSearch.JoinString | build_vector_search.py:49-84 | the guarded `+=` steps build the product text `ProductText`: title, promotion, specs, price and colours segments, in that order, each only when its field is non-empty |
| BuildVectorSearch.ProductTextOrder | build_vector_search.py:57-84 | the product text starts with the title; it ends with the colours segment (`ColorText`) when there are colours, and with the price segment when there is a price and no colours |
| BuildVectorSearch.ProductTextEmptyIff | build_vector_search.py:57-84 | the product text is empty exactly when every field is |
| BuildVectorSearch.KeepInformativeExact | build_vector_search.py:108 | `KeepInformative` keeps exactly the rows whose text is longer than 10 characters |
| BuildVectorSearch.SelectRecordsSpec | build_vector_search.py:108-112 | `SelectRecords`: the indexed rows are the first min(50, kept) informative rows, in input order |
| BuildVectorSearch.RowMetadataShape | build_vector_search.py:139-144 | `RowMetadata`: the stored metadata has exactly four keys; its text is the row's; its specs are a prefix of the row's specs, at most 500 long, and equal to them when they fit |
| BuildVectorSearch.BuildMetadatas | build_vector_search.py:137-145 | one metadata dict per selected row, in order |
| BuildVectorSearch.FlattenSnoc | build_vector_search.py:168-178 | concatenating one more batch appends its items |
| BuildVectorSearch.Batches | build_vector_search.py:166-178 | there are (n+9)//10 batches; batch k is the slice [10k, min(10k+10, n)); their concatenation is the whole list, in order |
| BuildVectorSearch.BatchOfIndex | build_vector_search.py:168-172 | each index falls in exactly one batch, batch i//10 |
| LegacyBuildVectorSearch.LegacyJoinString | data/build-vector-search.py:52-78 | the loop's result is that of a single pass over the five-tuple; an empty tuple, a tuple of another size and a colours value that does not parse are errors |
| LegacyBuildVectorSearch.LegacyAgreesWithCurrent | data/build-vector-search.py:52-78 | where the old script succeeds on a list value or on no colours, its text equals the current script's; on an unparsable value the old one fails where the current one appends the raw value |
| LegacyBuildVectorSearch.LegacyFailsIff | data/build-vector-search.py:52-78 | the old script fails exactly on a malformed tuple or an unparsable colours value |
| Rag.NumberedBlocks | rag.py:42-47 | one block per dict of an entry |
| Rag.NumberedBlocksAt | rag.py:40-47 | block k of entry j carries number j+k and the stripped `information` text of dict k (`BlockText`), or "No text available" |
| Rag.FormatSearchResults | rag.py:35-48 | the nested loop renders exactly the blocks of every entry, in input order: its result is `Formatted` |
| Rag.AppendRecords | rag.py:42-47 | the inner loop appends one block per dict, numbered from the counter, and advances the counter by the number of dicts |
| Rag.AppendRecord | rag.py:43-47 | one inner pass over a dict renders one block and counts it |
| Rag.FormattedEmptyIff | data/rag.py:40-53 | the result is empty exactly when no list entry holds a dict, so empty `metadatas` give "" |
| Rag.OneBlockPerRecord | data/rag.py:45-52 | exactly one block per dict; non-list entries and non-dict items yield none |
| Rag.BlocksInInputOrder | rag.py:46 | the blocks of earlier entries come first, unchanged, whatever follows |
| Rag.SingleQueryNumbering | rag.py:30-33 | a single query of n results numbers its blocks 0, 1, ... below n |
| Rag.RecordsAtMost | rag.py:42-43 | an entry yields no more dicts than it has items |
| Rag.NumbersRepeatAcrossEntries | data/rag.py:45-52 | because `enumerate` rebinds the counter, numbers repeat across entries: two dicts then one are numbered 0, 1, 1 |
| Rag.RenderNonEmpty | rag.py:46 | every block `Render` prints is non-empty |
| Rag.ShopInformation | rag.py:51-68 | exactly three records, each with the keys address, maps_url and opening_hours in that order, all open 8:30 AM–9:30 PM |
| Rag.DictListText | app.py:136 | the f-string's text of the shop table is bracketed; it is "[]" exactly for an empty list, and starts "[{" otherwise |
| Rag.DictListTextHoldsEntries | app.py:136 | the printed shop table holds every key and value of every dict, quoted, as `'key': 'value'` |
| StreamlitApp.ReplyOnEachPath | streamlit_app.py:328-349 | `Reply`: a failed run answers with the error apology; a successful one with the state's `final_response`, or the default text |
| StreamlitApp.CategoriesExclusive | streamlit_app.py:333-336 | at most one category counts a run, and only a successful one |
| StreamlitApp.WorkflowTracker.constructor | streamlit_app.py:276-287 | the step counter starts at 0 and the step list is the eight fixed steps |
| StreamlitApp.WorkflowTracker.UpdateStep | streamlit_app.py:303-306 | "completed" sets the step to the number of steps; any other name adds one |
| StreamlitApp.TrackWorkflow | streamlit_app.py:308-325 | the tracker stands at step 3 when the graph raises, and at 8 when it returns |
| StreamlitApp.ExportLinesShape | streamlit_app.py:197-200 | one export line per message, in order; line i starts "User: " exactly when message i is the user's, "Assistant: " otherwise, and ends with that message's content |
| StreamlitApp.ExportLinePrefix | streamlit_app.py:198 | a line starts "User: " exactly when the role is 'user', and "Assistant: " otherwise; it ends with the message's content |
| StreamlitApp.ChatExportSplits | streamlit_app.py:196-200 | `ChatExport` is the lines joined by line breaks. When no message content holds a line break, splitting the export gives the lines back. A message whose content holds a line break, such as the error reply of streamlit_app.py:349 or a multi-line answer, spans several export lines, and the lemma says nothing about those chats |
| StreamlitApp.SessionState.constructor | streamlit_app.py:107 | a fresh session holds no keys |
| StreamlitApp.SessionState.InitializeSessionState | streamlit_app.py:107-120 | every missing key gets its default (the counters at 0); present keys keep their values; a second call changes nothing; the counter invariant is kept |
| StreamlitApp.SessionState.ProcessQueryWithWorkflow | streamlit_app.py:230-349 | total grows by exactly 1; successes grow by 1 when the graph returns; product or shop grows by 1 as the lowered route says; the reply is the one for the outcome; `product + shop <= successful <= total` is kept |
| StreamlitApp.SessionState.SubmitForm | streamlit_app.py:383-408 | a blank submission changes nothing. Otherwise the user message and the reply are appended and the history becomes exactly those two |
| StreamlitApp.SessionState.QuickAction | streamlit_app.py:423-438 | the query and its reply are appended to the messages and to the end of the existing history |
| StreamlitApp.SessionState.ClearChat | streamlit_app.py:179-183 | both chat lists are emptied; nothing else changes |
| StreamlitApp.SessionState.ResetStatistics | streamlit_app.py:185-193 | all four counters are zeroed; nothing else changes |
| SimpleReactAgent.IsEvenIffDouble | data/simple-react-agent.py:67-76 | `IsEven`: a number is even exactly when it is twice some integer |
| SimpleReactAgent.DoubledIsEven | data/simple-react-agent.py:67-76 | `MultiplyByTwo` gives an even number, and halving undoes it |
| SimpleReactAgent.RandomNumber | data/simple-react-agent.py:59-64 | `randint(0, max)` draws from the inclusive range, and fails exactly when max is negative |
| SimpleReactAgent.RandomNumberCoversRange | data/simple-react-agent.py:64 | every value of the inclusive range can be drawn |
| SimpleReactAgent.LoadEnv | data/simple-react-agent.py:10-17 | passes exactly when every required variable is set and non-empty; otherwise it fails naming a missing one |
| SimpleReactAgent.LoadEnvNeedsApiKey | data/simple-react-agent.py:14-17 | the check passes exactly when OPENAI_API_KEY is set and non-empty |
| SimpleReactAgent.EventLineNumber | data/simple-react-agent.py:25-53 | `EventLine`: a hook's line determines its event number; lines for different numbers differ, whatever the events |
| SimpleReactAgent.CustomAgentHooks.constructor | data/simple-react-agent.py:21-23 | the event counter starts at 0 |
| SimpleReactAgent.CustomAgentHooks.OnStart | data/simple-react-agent.py:25-27 | the counter grows by one; the line carries the new count |
| SimpleReactAgent.CustomAgentHooks.OnEnd | data/simple-react-agent.py:29-33 | the counter grows by one; the line carries the new count |
| SimpleReactAgent.CustomAgentHooks.OnHandoff | data/simple-react-agent.py:35-39 | the counter grows by one; the line carries the new count |
| SimpleReactAgent.CustomAgentHooks.OnToolStart | data/simple-react-agent.py:41-45 | the counter grows by one; the line carries the new count |
| SimpleReactAgent.CustomAgentHooks.OnToolEnd | data/simple-react-agent.py:47-53 | the counter grows by one; the line carries the new count |

## Left out

- Language-model calls, embeddings, the vector store, numpy normalisation and the hash-based embedding fallback. These are foreign services and floating point; replies and search results are inputs.
- How prompts are worded. A prompt is a record of the values its template interpolates. The instruction texts in prompt.py are constant prose.
- pandas CSV loading, `df.apply`, `iterrows`, uuid generation, the embedding loop with its rate-limit sleep, and the `collection.add` calls. The batch boundaries are modelled; the store writes are not.
- Each CSV cell is modelled as the text `row.get(k, '') or ''` yields. Values that are not strings (NaN, numbers) are not modelled.
- `ast.literal_eval` is the abstract `parse` function, together with the check that every element is a string.
- The graph library itself: only its merge of returned keys and its edge-following order are modelled.
- The streamlit `input_state` and the graph's `AgentState` do not match. Which dict a real graph run would return to the front end is therefore not modelled: the outcome is a parameter.
- Streamlit rendering, CSS and HTML, spinners, `time.sleep`, `st.rerun`, the float success rate and the tracker's HTML step marking.
- The front end's system-message and workflow check boxes and the iteration slider: nothing in the modelled code reads them.
- Printing: terminal banners (utils.py), system prints and the hook's `print`. Each hook returns its line instead.
- The agents framework's async `Runner`, handoffs and the demo's `main`.
- data/rag-agent.py: a single framework call, with no logic of its own.
- `load_dotenv`: the environment is passed in already loaded.
- Text.Lower, Text.LowerChar: lower-case ASCII letters only. Python also lowers non-ASCII capitals; their lower-case forms are non-ASCII, except for two characters that map to ASCII letters: the Kelvin sign to 'k', and the dotted capital I to 'i' followed by a combining dot. None of these can make a substring test for "product", "shop" or "shop_information", or an exit-word test, come out differently. The sanitised collection name is pure ASCII after its replacement step.
- Rag.QuotedText: prints a string between single quotes, without the escaping and quote switching Python's `repr` does for quotes, backslashes and unprintable characters. The shop table holds none of these.
- BuildVectorSearch.SanitizeMetadata: a map has no order, so the insertion order of the returned dict's keys is not modelled.
- BuildVectorSearch.RowMetadata: takes `str(row.get(...))` of a string field to be the field itself.
- App.ChatLoop, App.ChatTurns: running out of input ends the loop; in Python `input()` would raise at end of file.
- SimpleReactAgent.RandomNumber: the text of the error `randint` raises on an empty range is not modelled.
- StreamlitApp.TrackWorkflow: it stands for the tracker object that `process_query_with_workflow` creates. The tracker is discarded when the call returns.
