# SciMuse core in Dafny

SciMuse answers questions about scientific papers with a chain of language-model agents.

- **Ingestion.** A PDF goes through the MinerU service. The returned archive becomes text chunks and figures. Each figure is described by a vision model, and everything is embedded into a Chroma collection.
- **Question answering.** A planner turns the question into search queries. The retriever tool runs one vector search per query, and the results are concatenated into a context. Then at most three reason/review rounds run:
  - the reasoner drafts an answer from the context;
  - the reviewer ACCEPTs or REJECTs it;
  - a rejection feeds the reviewer's critique into the next query, and may trigger a supplemental search whose result is appended to the context.

This project models that core and proves its properties. Every language model, HTTP service, embedding endpoint, Chroma query and `json.loads` is a function parameter (an oracle). Where the source may get different answers on different calls, the oracle is indexed by call number, round or attempt. Python exceptions become `Err` values carrying the exception's message.

Modules, one per source file:

| module | source |
|---|---|
| `Schema` | `schema.py`: the records and enums |
| `Codec` | `_clean_json_output`, which appears identically in the planner, reasoner and reviewer |
| `Planner`, `Reasoner`, `Reviewer` | the three text agents |
| `Vision` | `agents/vl_agent.py`: class `VisionAgent` and its attempt loop |
| `AgentTools` | `retriever_tool` |
| `VectorDb` | `tools/vector_db.py`: embedding generation, and class `VectorStore` over a map-valued collection |
| `PdfParser` | `tools/pdf_parser.py` |
| `Controller` | the plan/retrieve/reason/review controller shared by both front ends |
| `Cli` | `main.py` `run_chat_pipeline` |
| `Web` | `app.py` `chat_pipeline` |

`Wrappers`, `Text` and `Json` are helpers: `Option`/`Result`, Python string operations, and decoded JSON values.

Imperative source code is modelled as methods with loops. Each method's `ensures` ties its result, or the new state of its object, to a specification function, and lemmas state what the source promises about that function.

Behaviour of the code worth noting:

- **Empty query list.** `PlannerOutput.search_queries` (schema.py:51) has no length constraint, and the planner passes an explicitly empty list from the model through unchanged (agents/planner_agent.py:88-93, `Planner.PlanKeepsModelQueries`). A plan may therefore have no queries, and then the context holds no retrieval at all.
- **Supplemental search after the last round.** A supplemental search runs in every rejected round whose `feedback_for_retriever` is truthy (main.py:133-136), including the third, whose evidence nothing reads afterwards (`Controller.RoundsOfController`).
- **Reviewer failure text.** When the review fails, the reviewer returns feedback_for_retriever "System error, please retry aggregation." (agents/reviewer_agent.py:108). That text is truthy, so the controller runs a supplemental search for exactly that text.
- **Score range.** The reviewer's `confidence_score` is described as lying between 0.0 and 1.0 (schema.py:85), but no validator checks it, and the decision never reads it.
- **Front-end wordings.** `main.py` and `app.py` word the critique note and the supplemental segment differently. The model carries both as `Controller.Dialect`.

## Model

| member | source | states |
|---|---|---|
| Schema.DecisionRoundTrip | schema.py:10-12 | `AgentDecision(s)` succeeds exactly for "ACCEPT" and "REJECT" and inverts `.value` |
| Schema.ContentTypeRoundTrip | schema.py:14-17 | `ContentType(s)` succeeds exactly for "text", "image" and "table" and inverts `.value` |
| Codec.CleanJsonOutput | agents/planner_agent.py:29-38 | the cleaned text never has leading or trailing whitespace |
| Codec.UnwrapsJsonFence | agents/planner_agent.py:32-38 | for any x not starting with "```", cleaning "```json" + x + "```" gives strip(x) |
| Codec.KeepsUnfenced | agents/planner_agent.py:30-38 | a stripped text with no fence at either end is returned unchanged |
| Codec.CleanIdempotentUnfenced | agents/reviewer_agent.py:26-35 | on text with no fence once stripped, cleaning is strip and is idempotent |
| Planner.ModelIdForLitellm | agents/planner_agent.py:15-19 | the id is the raw id or the raw id with "openai/" in front |
| Planner.ModelIdRewrite | agents/planner_agent.py:15-19 | the prefix is added iff the id lacks it and its lowercase contains "deepseek" (A to Z and the Kelvin sign folded); rewriting twice equals rewriting once |
| Planner.KelvinSignNamesDeepSeek | agents/planner_agent.py:16 | "DEEPSEE" followed by a Kelvin sign lowercases to "deepseek" and gets the prefix |
| Planner.PlanQueriesOrigin | agents/planner_agent.py:85-92 | the queries are [user_query] unless the decoded JSON object lists them; the visual flag is true only if the object says true |
| Planner.FromObjectOrigin | agents/planner_agent.py:88-92 | a validated object yields its own query list, or [user_query] when the key is missing; the visual flag iff it is true in the object |
| Planner.PlanOnCallFailure | agents/planner_agent.py:104-110 | a failed model call gives reasoning "System error: " + message, queries [user_query], no visuals |
| Planner.PlanOnJsonError | agents/planner_agent.py:95-102 | undecodable JSON gives "JSON parsing failed, using original query.", [user_query], no visuals |
| Planner.PlanOnNonObject | agents/planner_agent.py:104-110 | JSON that is not an object fails on `.get` and takes the system-error fallback with that message |
| Planner.PlanDefaults | agents/planner_agent.py:88-92 | an empty object gives "No reasoning provided.", [user_query], False |
| Planner.PlanKeepsModelQueries | agents/planner_agent.py:85-93 | a well-typed object is taken as is, so an explicit empty query list passes through |
| Planner.PlanNotJsonExample | agents/planner_agent.py:95-102 | for query "X" and reply "not json" the plan searches ["X"] without visuals |
| Reasoner.NormaliseVlResults | agents/reasoner_agent.py:75-82 | normalisation keeps length and order, each result read through its dict view |
| Reasoner.RecordAsDict | agents/reasoner_agent.py:77-78 | a pydantic `VLOutput` keeps description and insights under their own names |
| Reasoner.FormatContext | agents/reasoner_agent.py:32-48 | the loop builds exactly the specified context string |
| Reasoner.ContextLayout | agents/reasoner_agent.py:36-46 | the context starts with the text section, contains block j+1 for every figure j, and with no figures ends in "No visual evidence provided." |
| Reasoner.BlocksShowEveryFigure | agents/reasoner_agent.py:40-44 | every vision result appears under its own number |
| Reasoner.FigureBlockShowsDescription | agents/reasoner_agent.py:42-44 | a block shows the description and insights, or "N/A" for a missing one |
| Reasoner.Run | agents/reasoner_agent.py:64-167 | `run` returns the specified answer: the model sees only the query and the formatted context |
| Reasoner.FromObjectCitations | agents/reasoner_agent.py:145-149 | a validated object yields its own citations, or [] when the key is missing |
| Reasoner.CitationsComeFromModel | agents/reasoner_agent.py:141-167 | citations are [] unless the decoded object lists exactly them |
| Reasoner.DraftOnCallFailure | agents/reasoner_agent.py:161-167 | a failed call gives "An error occurred while generating the answer: " + message, [], "System Error" |
| Reasoner.DraftOnJsonError | agents/reasoner_agent.py:152-159 | undecodable JSON gives the uncleaned content as draft, [], "JSON Parse Error" |
| Reasoner.DraftOnInvalidObject | agents/reasoner_agent.py:161-167 | a non-object or ill-typed object takes the "System Error" path with no citations |
| Reasoner.DraftDefaults | agents/reasoner_agent.py:145-149 | an empty object gives "No answer provided.", [], "No trace provided." |
| Reasoner.DraftKeepsModelFields | agents/reasoner_agent.py:142-150 | a well-typed object is taken field by field |
| Reviewer.AcceptIff | agents/reviewer_agent.py:91-109 | ACCEPT iff the reply decodes to an object whose decision is "ACCEPT" and whose fields convert; the score plays no part |
| Reviewer.RejectsOnFailure | agents/reviewer_agent.py:101-109 | any failure before an object is decoded gives score 0.0, REJECT, the system-error critique and the retry feedback |
| Reviewer.RejectsOnCallFailure | agents/reviewer_agent.py:101-109 | a failed call is reported verbatim after "System error during review: " |
| Reviewer.ReviewDefaults | agents/reviewer_agent.py:94-99 | an empty object gives 0.0, REJECT, "No critique provided.", no feedback |
| Reviewer.AcceptsAtAnyScore | agents/reviewer_agent.py:94-99 | an explicit ACCEPT is kept at any score, and an explicit null critique stays None |
| Reviewer.UnknownDecisionRejects | agents/reviewer_agent.py:94-109 | for every decoded object whose decision is a string other than the two values, the review is the rejection (REJECT, 0.0, the error feedback, the error-critique prefix); when the score converts, the critique names the invalid decision |
| Reviewer.ReviewIgnoresTrace | agents/reviewer_agent.py:66-76 | drafts with equal answer and citations get equal reviews, whatever their traces |
| Vision.VisionAgent.constructor | agents/vl_agent.py:22-40 | the client is ready exactly when the config was found |
| Vision.VisionAgent.AnalyzeImage | agents/vl_agent.py:73-146 | returns the specified record and the number of model calls made |
| Vision.VisionAgent.Attempts | agents/vl_agent.py:102-146 | the attempt loop returns what the recursive attempt specification returns, never running out |
| Vision.AttemptStep | agents/vl_agent.py:104-144 | one attempt: a parsed reply returns; a failure retries, or on the third attempt returns its fallback |
| Vision.NeverFallsThrough | agents/vl_agent.py:138-146 | the last attempt always returns, so "Unknown Error." is unreachable |
| Vision.EarlyExitsMakeNoCall | agents/vl_agent.py:77-88 | a missing image, an uninitialised client or an unreadable file each return their fixed record after zero calls |
| Vision.CallBounds | agents/vl_agent.py:102-146 | at most three calls, and at least one when the image is read and the client ready |
| Vision.StopsAtFirstParse | agents/vl_agent.py:104-134 | the agent returns the first parsed reply, after exactly that many calls |
| Vision.LastAttemptFallbacks | agents/vl_agent.py:136-144 | a third parse failure returns the cleaned text; a third exception returns "Error calling VL model." with its message |
| Vision.VlCleanUnwraps | agents/vl_agent.py:122-127 | a "```json … ```" reply is unwrapped to its body |
| Vision.VlCleanKeepsBareFence | agents/vl_agent.py:122-127 | a bare leading "```" is kept |
| Vision.AttemptDefaults | agents/vl_agent.py:129-134 | missing keys give "No description provided." and "No insights provided." |
| AgentTools.Truncate | tools/agent_tools.py:79-82 | text of at most 400 characters is kept; longer text becomes its first 400 characters + "...(truncated)" |
| AgentTools.RetrieverTool | tools/agent_tools.py:44-121 | the tool returns the specified result |
| AgentTools.RenderHits | tools/agent_tools.py:101-121 | classification followed by rendering gives the specified text |
| AgentTools.Classify | tools/agent_tools.py:71-99 | the loop yields exactly the text evidence and the image evidence |
| AgentTools.NumberTextLines | tools/agent_tools.py:107-110 | numbering succeeds iff every text hit has a score, and then yields the numbered text lines |
| AgentTools.ListFigures | tools/agent_tools.py:112-115 | one line per figure, in order |
| AgentTools.TextEvidenceConcat | tools/agent_tools.py:75-90 | text classification distributes over concatenation, so order is kept |
| AgentTools.FiguresConcat | tools/agent_tools.py:92-99 | image classification distributes over concatenation, so order is kept |
| AgentTools.ClassifyOne | tools/agent_tools.py:75-99 | a text hit is kept truncated, an image hit becomes a figure, a "table" or other hit is dropped |
| AgentTools.ImageDefaults | tools/agent_tools.py:93-98 | an image hit without metadata gets page 0, path "" and its content as caption |
| AgentTools.IntegralFloatPage | tools/agent_tools.py:93-98 | a float page_number with no fractional part validates as that integer page |
| AgentTools.TextEvidenceNonEmpty | tools/agent_tools.py:75-90 | a text hit anywhere makes the text evidence non-empty |
| AgentTools.FiguresNonEmpty | tools/agent_tools.py:92-99 | an image hit anywhere makes the image evidence non-empty |
| AgentTools.NothingClassified | tools/agent_tools.py:75-99 | hits of other types only leave both lists empty |
| AgentTools.NoResultsIff | tools/agent_tools.py:103-118 | "No relevant information found." iff no hit is text or image; otherwise the output starts with the results header |
| AgentTools.TextLinesNumbered | tools/agent_tools.py:107-110 | the k-th text line is numbered k+1 |
| AgentTools.FigureLinesLength | tools/agent_tools.py:112-115 | one figure line per figure |
| AgentTools.TextBeforeImages | tools/agent_tools.py:103-115 | the header, the text section title, the numbered text lines, then the image section |
| AgentTools.ScoredTexts | tools/agent_tools.py:84-90 | when every text hit has a score, so does every item of the text evidence |
| AgentTools.ValidFigures | tools/agent_tools.py:92-99 | when every image hit converts to a figure, image classification does not fail |
| AgentTools.ToolAlwaysAnswers | tools/agent_tools.py:55-69 | when every text hit has a score and every image hit converts, the tool returns a string; without a store it is the fixed message, and a failed search is reported after "Search Error: " |
| VectorDb.CleanSingle | tools/vector_db.py:28 | single mode sends a non-empty stripped text |
| VectorDb.CleanBatched | tools/vector_db.py:63 | batch mode never sends an empty text |
| VectorDb.CleaningDiffers | tools/vector_db.py:28-63 | single mode strips a non-blank text, batch mode sends it as is; a blank text becomes "empty_node" in both |
| VectorDb.EmbedAll | tools/vector_db.py:27-55 | one outcome per text, the i-th being that text's retry loop |
| VectorDb.EmbedFromOutcome | tools/vector_db.py:33-52 | a text is embedded iff one of its five attempts gets a non-empty reply, and then with the first such reply's first vector |
| VectorDb.GiveUpQuotesText | tools/vector_db.py:54-55 | five failures raise with at most 20 characters of the cleaned text |
| VectorDb.CollectSpec | tools/vector_db.py:54-55 | single mode succeeds iff every text does, keeping every vector in order; otherwise the first failure is raised |
| VectorDb.CollectErr | tools/vector_db.py:54-55 | once a text fails, the whole call fails the same way |
| VectorDb.SingleModeSpec | tools/vector_db.py:25-57 | single mode yields one vector per text, the i-th from the i-th text, or raises |
| VectorDb.BatchesPartition | tools/vector_db.py:61-63 | the batches concatenate to the input; each holds 1 to batch_size texts, and all but the last exactly batch_size |
| VectorDb.InsertPerm | tools/vector_db.py:68 | insertion keeps the multiset and adds one element |
| VectorDb.InsertSorted | tools/vector_db.py:68 | insertion into an index-sorted list keeps it sorted; the new head is the inserted item or the old head |
| VectorDb.SortByIndexCorrect | tools/vector_db.py:68-70 | each batch reply is sorted by index and is a permutation of the reply |
| VectorDb.InsertKeepsTies | tools/vector_db.py:68 | insertion places the new item ahead of every item sharing its index |
| VectorDb.SortByIndexStable | tools/vector_db.py:68 | the sort is stable: for every index value, the items carrying it keep their order |
| VectorDb.EmbeddingsLength | tools/vector_db.py:69 | one vector per reply element |
| VectorDb.BatchesFromLength | tools/vector_db.py:61-70 | when every batch reply has one element per text, batch mode succeeds with one vector per input text |
| VectorDb.EmbedWithRetry | tools/vector_db.py:28-55 | the retry loop computes the specified outcome for one text |
| VectorDb.GenerateEmbeddings | tools/vector_db.py:12-76 | the vectors, or the exception raised (including a zero batch size) |
| VectorDb.EmbedEach | tools/vector_db.py:25-57 | the single-mode loop collects the per-text outcomes |
| VectorDb.EmbedBatches | tools/vector_db.py:58-74 | the batch loop returns the sorted vectors of each batch in batch order |
| VectorDb.Contents | tools/vector_db.py:170 | the texts embedded are the items' contents, in order |
| VectorDb.TextItemsSpec | tools/vector_db.py:105-117 | a chunk is indexed iff its content has at least 5 characters; no more items than chunks |
| VectorDb.ImageItemsSpec | tools/vector_db.py:124-159 | a figure is indexed iff its image exists, with that figure's own description; no more items than figures |
| VectorDb.TextItemsTagged | tools/vector_db.py:108-117 | text items carry type "text" |
| VectorDb.ImageItemsTagged | tools/vector_db.py:142-159 | image items carry type "image" and content starting "Image Caption: " |
| VectorDb.TextsBeforeImages | tools/vector_db.py:99-159 | every text item precedes every image item |
| VectorDb.UpsertKeys | tools/vector_db.py:179-184 | upsert adds exactly the items' ids |
| VectorDb.UpsertKeepsOthers | tools/vector_db.py:179-184 | ids no item carries keep their records |
| VectorDb.UpsertStoresLast | tools/vector_db.py:179-184 | an item whose id no later item of the batch repeats is stored with its vector, text and metadata (a validated batch has no repeats, so that is every item) |
| VectorDb.StoredOutcome | tools/vector_db.py:161-189 | nothing to index leaves the collection unchanged without error; any error leaves it unchanged; an embedding failure is reported; a batch that repeats an id raises the duplicate-id error; success means one vector per item and distinct ids, the collection gains exactly the items' ids, and every item is stored with its vector, text and metadata |
| VectorDb.SingleModeNoMismatch | tools/vector_db.py:175-184 | in single mode the count check never fires; with distinct ids the batch is stored without error |
| VectorDb.HitsSpec | tools/vector_db.py:200-213 | no ids gives no hits; otherwise one hit per id, in order, with its document, metadata and distance (0.0 without distances); a failure means some column is shorter than the ids |
| VectorDb.GatherTexts | tools/vector_db.py:105-117 | the text loop yields the specified text items |
| VectorDb.GatherImages | tools/vector_db.py:124-159 | the figure loop yields the specified image items |
| VectorDb.ZipHits | tools/vector_db.py:200-213 | the zip loop yields the specified hits |
| VectorDb.VectorStore.constructor | tools/vector_db.py:79-88 | the store opens on the given collection |
| VectorDb.VectorStore.AddDocuments | tools/vector_db.py:95-189 | the new collection and the error are the specified outcome on the old collection, including the duplicate-id error |
| VectorDb.VectorStore.Search | tools/vector_db.py:191-214 | embed the query, query the collection, zip the hits |
| Text.PathNameSkipsDot | tools/pdf_parser.py:183 | as with `Path(p).name`, a trailing "." component or "/" is ignored, so "images/a/." names "a" and "." names nothing |
| PdfParser.UploadSucceeds | tools/pdf_parser.py:73-86 | status 200, code 0 and non-empty file_urls give (batch_id, first URL) |
| PdfParser.UploadRejects | tools/pdf_parser.py:73-84 | a bad status, a non-zero code and an empty file_urls each raise |
| PdfParser.Handled | tools/pdf_parser.py:155-160 | the generic handler either polls again or re-raises the same message |
| PdfParser.FindIn | tools/pdf_parser.py:119-120 | a found task is the first element whose file_name is the target; every element before it has a file_name that differs; no task means every element has a differing file_name; an error is the lookup error of the first element without one |
| PdfParser.PollBatchTask | tools/pdf_parser.py:96-160 | the polling loop returns the specified outcome |
| PdfParser.PollOutcome | tools/pdf_parser.py:103-160 | a returned task was found done by a poll within the deadline; an error is the timeout or a message naming a server-side failure |
| PdfParser.PollTimesOut | tools/pdf_parser.py:103-105 | polls that all continue end in "解析任务超时" |
| PdfParser.FatalNamesFailure | tools/pdf_parser.py:155-159 | only a message naming a server-side failure ends polling |
| PdfParser.FailedIsFatal | tools/pdf_parser.py:134-136 | state "failed" raises with the server's err_msg, or "未知错误" |
| PdfParser.OtherStatesContinue | tools/pdf_parser.py:138-151 | any state but done or failed keeps polling |
| PdfParser.CodeErrorKeepsPolling | tools/pdf_parser.py:115-160 | a non-zero code whose message holds no string naming a server-side failure is swallowed and polling continues |
| PdfParser.CodeErrorMentioningFails | tools/pdf_parser.py:115-159 | a non-zero code whose message holds such a string anywhere, in a list or dict too, ends polling with the code-error message |
| PdfParser.CodeErrorIsHandled | tools/pdf_parser.py:115-159 | for a None, boolean, integer or string message the decision is the generic handler's on the exception text |
| PdfParser.Filter | tools/pdf_parser.py:177-179 | a filter never adds names |
| PdfParser.FilterSpec | tools/pdf_parser.py:177-179 | a name is kept iff it is in the list and satisfies the suffix or prefix test |
| PdfParser.SameFileNameSameId | tools/pdf_parser.py:183-185 | two images with the same file name in different directories of the archive both get the id stem_name, so indexing both raises the duplicate-id error (`VectorDb.StoredOutcome`) |
| Text.PathNameOfFile | tools/pdf_parser.py:183 | as with `Path(p).name`, the name of dir/name is name for a name without "/" that is neither empty nor "." |
| PdfParser.NewFigures | tools/pdf_parser.py:182-199 | one figure per image file |
| PdfParser.NewFiguresSpec | tools/pdf_parser.py:182-199 | the i-th image becomes figure stem_name, page 0, no caption |
| PdfParser.ExtractFigures | tools/pdf_parser.py:182-199 | the figure loop yields the specified figures |
| PdfParser.RelabelFigures | tools/pdf_parser.py:216-225 | the inner loop yields the specified relabelling |
| PdfParser.RelabelKeepsFigures | tools/pdf_parser.py:220-225 | relabelling keeps ids, paths and non-matching figures, and fails only on a bad page of a matching item |
| PdfParser.RelabelSetsMatching | tools/pdf_parser.py:216-225 | a matching figure gets the item's page, and the item's caption when it has one |
| PdfParser.HandleItem | tools/pdf_parser.py:206-225 | one content-list item is handled as specified |
| PdfParser.ItemStepKeepsFigures | tools/pdf_parser.py:206-225 | an item keeps the figures and adds at most one chunk |
| PdfParser.TextItemAddsChunk | tools/pdf_parser.py:209-213 | a text item adds its stripped text on page page_idx + 1 |
| PdfParser.MissingPageIsOne | tools/pdf_parser.py:211 | a missing page_idx means page 1 |
| PdfParser.ReadContentList | tools/pdf_parser.py:204-225 | the item loop yields the specified chunks and figures |
| PdfParser.ContentErrPersists | tools/pdf_parser.py:206-225 | an item that raises makes the whole list raise the same way |
| PdfParser.ContentKeepsFigures | tools/pdf_parser.py:205-225 | the content list keeps the extracted figures' ids and paths |
| PdfParser.ReadMarkdown | tools/pdf_parser.py:227-238 | the Markdown loop yields the specified paragraphs |
| PdfParser.KeptShape | tools/pdf_parser.py:233-238 | every kept paragraph is a non-empty input paragraph on page 1 |
| PdfParser.KeptHas | tools/pdf_parser.py:233-238 | every non-empty paragraph is kept |
| PdfParser.ParagraphsSpec | tools/pdf_parser.py:227-238 | exactly the non-blank paragraphs, stripped, on page 1 |
| PdfParser.JsonPreferred | tools/pdf_parser.py:202-227 | with a content list present, the result depends only on its first content list, so the Markdown files are never read |
| PdfParser.ProcessZipResult | tools/pdf_parser.py:162-244 | the archive becomes the specified chunks and figures |
| PdfParser.ParsePdf | tools/pdf_parser.py:33-60 | check, upload link, upload, poll, convert |
| Controller.Searches | main.py:86-89 | the i-th retriever call asks the i-th planned query |
| Controller.Gather | main.py:81-89 | the retrieval loop makes those calls and builds their context |
| Controller.ContextExtends | main.py:86-89 | the context of the first i searches is a prefix of the full context |
| Controller.ContextShowsSearch | main.py:89 | every query and result appears in the context |
| Controller.NoteShowsCritique | main.py:104-105 | the feedback note quotes the critique |
| Controller.RefinedForm | main.py:103-105 | the effective query starts with the user query, equals it iff the critique is not truthy, and otherwise quotes the critique |
| Controller.StoppedStays | main.py:98-138 | a stopped loop stays stopped |
| Controller.NextAccepts | main.py:124-127 | an ACCEPT records the draft and stops the loop |
| Controller.NextRejects | main.py:128-138 | a REJECT carries the critique forward, appends the round's evidence, adds its supplemental call and moves to the next attempt |
| Controller.RunAttempt | main.py:103-137 | one attempt runs the specified round |
| Controller.Pass | main.py:99-138 | one pass of the loop body is the specified step |
| Controller.RunRounds | main.py:92-138 | the loop computes the specified deliberation |
| Controller.Unroll | main.py:92-138 | the three rounds written out, with the final state for each verdict pattern |
| Controller.StopsAtFirstAccept | main.py:98-138 | 1 to 3 rounds; all but the last rejected; a final answer iff the last was accepted, and then its draft; none iff three rejections |
| Controller.RoundAt | main.py:98-138 | round i runs on attempt i, the previous critique, the previous context plus its evidence, and the calls so far |
| Controller.FinalState | main.py:124-138 | the final context and call count |
| Controller.ContextsRecorded | main.py:110-114 | each round records the context it was given |
| Controller.ContextOnlyGrows | main.py:89-136 | each round's context is a prefix of every later one and of the final one |
| Controller.FirstRound | main.py:97-127 | at least one round runs; the first asks the user query itself on the initial context, and if accepted it is the only round |
| Controller.RoundsOfController | main.py:103-137 | each round's query is the refined user query, its context the previous context plus evidence, the reviewer gets the user query, and a supplemental search happens iff the round is rejected with truthy feedback |
| Controller.PlanThenSearchesThenReason | main.py:73-114 | the planner first and once, then one retrieval per planned query in order, then the reasoner on the user query and the gathered context |
| Controller.RetrievalCount | main.py:86-138 | retrievals equal the planned queries plus the supplemental searches; exactly len(search_queries) when the first verdict is ACCEPT |
| Controller.EventsRetrievals | main.py:86-136 | a log's retrievals are its planned and supplemental searches |
| Controller.CallsCounted | main.py:124-138 | the call counter ends at its start plus the supplemental searches, each made in a rejected round |
| Controller.Bullets | main.py:146-147 | one "- c" line per citation, in order |
| Cli.Render | main.py:140-152 | prints the specified final section |
| Cli.RunChatPipeline | main.py:59-152 | plan, gather, loop, then print |
| Cli.AcceptedOutput | main.py:124-147 | the accepted draft, then the sources heading and bullets iff it cites anything |
| Cli.ExhaustedOutput | main.py:148-152 | three rejections print the failure notice and the third draft |
| Cli.RetryQueries | main.py:103-130 | the query is the user's on round 0 and after a non-truthy critique, else it quotes the previous round's critique in PREVIOUS FEEDBACK; the reviewer always gets the user query |
| Cli.SupplementalSegments | main.py:133-136 | the next context adds a "Supplemental Evidence" segment exactly after a supplemental search |
| Web.ChatPipeline | app.py:74-168 | the pipeline's last yield is the specified outcome |
| Web.EmptyMessage | app.py:78-80 | an empty message gets "请输入问题。" and calls nothing |
| Web.PlannerFailure | app.py:89-98 | a planner exception is reported after "系统错误: " and nothing else is called |
| Web.PlannedRun | app.py:89-157 | the reply comes from the controller run on the plan |
| Web.RealPlannerNeverRaises | app.py:89-98 | with the real planner, which catches every exception (agents/planner_agent.py:104-110), a non-empty message always reaches the controller |
| Web.ContextSegments | app.py:102-154 | the searches follow the plan; round 0 sees their context, each later round the previous context plus a "Supplemental" segment exactly after a supplemental search |
| Web.RetryQueries | app.py:127-139 | the message itself, or the message with the previous round's truthy critique quoted; the reviewer always gets the message |
| Web.AcceptedReply | app.py:142-165 | the first accepted round's draft alone when it cites nothing, otherwise the draft, the sources heading and one bullet per citation |
| Web.ExhaustedReply | app.py:166-168 | three rejections give the apology and the third draft |

## Left out

- **User interfaces.** Console and Gradio output, logs, progress yields and argparse dispatch are presentation only. `Web.Chat` keeps only the last yield.
- **Prompts.** Prompt texts are not behaviour. The oracles receive only the values the prompts interpolate.
- **Foreign calls.** LiteLLM, OpenAI, MinerU HTTP, `requests`, chromadb and `json.loads` are oracles.
- **The retriever agent.** `agents/retriever_agent.py` is not part of this model: `retriever.run` is the `retrieve` oracle. `agents/research_agents.py` is not part of this model.
- **File and zip I/O.** Zip reading, image writes, base64 encoding and `os.path.exists` are given as parameters: the archive's names and reader, the image directory, and existence flags.
- **Sleeps and backoff.** `time.sleep` backoff, including the 429 cooldown, only changes timing.
- **Floats.** Floats are `real`. Embedding vectors and distances are opaque values. The `:.2f` score formatting is a parameter.
- **Configuration.** Config and environment loading, including the vl `base_url` fallback chain, become flags and settings.
- **Global store.** The lazy global `_vector_store` is a `storeReady` flag with a `search` oracle.
- **Ids.** uuid chunk ids are drawn from an `ids` parameter.
- **Ingestion entry points.** `ingest_document` and `process_pdf` only chain the modelled operations.
- **Exception texts.** Python exception messages (pydantic ValidationError, AttributeError, TypeError, chromadb's DuplicateIDError) are stand-in texts. So is the rendering of a float, list or dict inside a message (`Json.Show`). Properties rely only on the prefixes the source fixes. Whether polling stops on a code error is decided on the strings inside its `msg` (`Json.Mentions`), not on the stand-in.
- Planner.ModelIdForLitellm: `Text.Lower` folds only the characters whose lowercase is a single ASCII letter (A to Z and the Kelvin sign) and keeps every other character. The lowercase of any other character contains no letter of "deepseek", so the DeepSeek test agrees with Python's full `str.lower()`. `Text.Lower` is not a full Unicode lowercasing.
- AgentTools.RetrieverTool: the page_number of an image hit is validated as pydantic's lax mode does for an int, a float or a bool. A numeric string such as "3", which lax mode would also parse, is reported as a validation error here.
- Planner.ModelIdRewrite: its "lowercase" is `Text.Lower`, which agrees with `str.lower()` on whether "deepseek" occurs, for the reason given on the line above. It is not a statement about Unicode lowercasing in general.
- Planner.Plan: pydantic's lax coercions are not modelled. A value of another JSON type than the field's (such as "true" or 1 for a bool) takes the system-error path here.
- Reasoner.Run: vision results are taken to be string-valued dicts. Other attribute values of arbitrary objects are not modelled.
- Reviewer.Review: the same lax coercions are not modelled for the critique and feedback fields.
- PdfParser.PollBatchTask: the wall-clock deadline is a number of polls, `budget`. When a code error's list or dict `msg` names a server-side failure, polling stops as in the source. The raised message is then the code-error prefix followed by a stand-in naming the type, not Python's rendering of `msg`.
- PdfParser.RelabelFigures: a fractional float `page_idx` is reported as a validation error. The source's unvalidated assignment would store it. A string caption from the content list is stored as it is. A caption of any other type is replaced by a stand-in naming its type. The source would store the raw value.
- VectorDb.VectorStore.AddDocuments: the vision agent is the `describe` oracle rather than `Vision.VisionAgent.AnalyzeImage` itself. The collection is a map from id to record; persistence and `count()` are not modelled.
- Vision.VisionAgent.constructor: config and client set-up collapse into one `configFound` flag.
