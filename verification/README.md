# rag_news_extractor — a Dafny model of the retrieval-augmented news chatbot

The repository is a Streamlit chatbot. A user enters a news topic. The app then:

1. fetches the latest Google News links for the topic;
2. downloads each article's paragraphs into a `description` column;
3. splits the descriptions into chunks and embeds them into a FAISS index;
4. encodes the request with the same embedding model;
5. concatenates the nearest chunks into a context;
6. builds a two-message prompt and streams a model's answer.

The answer is shown piece by piece and saved as the first chat turn. Each follow-up question runs the same pipeline again, with the question as the request and the task "Answer the question using the context.". The answer is appended as a further turn.

The model has one module per source file:

- `Seqs` (`seqs.dfy`): in-order concatenation of lists, the shared shape of every `+=`/`extend` loop in the source.
- `Text` (`text.dfy`): Python's `str.strip()` with Python's whitespace set, `" ".join`, and `re.split(pat, s)[0]` for a literal pattern.
- `Prompt` (`setup_prompt.dfy`): `get_prompt` and its fixed system instruction.
- `Retrieval` (`extract_document.dfy`): `extract_documents`, the context built from a search row.
- `Chunking` (`chunking.dfy`): `chunk_doc`.
- `News` (`extract_news.dfy`): `download_latest_news`. The news table is a class whose `description` column the method assigns.
- `Pipeline` (`inference_pipeline.dfy`): `run_pipeline`, its stage order and dataflow, and the `if content: yield content` filter.
- `App` (`app.dfy`): the session state of `app.py` as a class with one method per event. Each method is tied to a pure transition function `Step`, which carries the invariant and monotonicity lemmas.

Code the repository does not own is a parameter of the model: a field of `Pipeline.Env`, or a function argument. This covers Google News search, HTTP with HTML parsing, the text splitter, sentence-transformers, FAISS search and the chat-completion stream. The types of the index, the embedding model and the query vector are type parameters. A model value can therefore only come from `embed`.

## Model

| member | source | states |
|---|---|---|
| Seqs.Flatten | app.py:89-95 | the concatenation of the pieces has as many elements as the pieces' lengths add up to |
| Seqs.FlattenAppend | utils/chunking.py:18-21 | concatenating two runs of lists is concatenating their concatenations: order is kept across any split |
| Seqs.FlattenBlock | utils/chunking.py:19-21 | each list's elements sit contiguously, in their own order, right after those of the lists before it |
| Text.IsSpaceReference | app.py:78 | `IsSpace` is Python's `str.isspace` on one character: on ASCII exactly space, `\t`, `\n`, `\r`, `\x0b`, `\x0c` and `\x1c`-`\x1f`; the zero-width space, the byte-order mark and U+180E are not whitespace |
| Text.TrimStart | app.py:78 | removes a whitespace-only prefix and leaves a result that does not start with whitespace |
| Text.TrimEnd | app.py:78 | removes a whitespace-only suffix and leaves a result that does not end with whitespace |
| Text.Strip | app.py:78 | `str.strip()`: the result neither starts nor ends with whitespace |
| Text.StripIsPadded | app.py:78 | the input is the stripped result with a whitespace run before it and another after it |
| Text.StripOfPadded | utils/setup_prompt.py:5-10 | stripping whitespace padding from a text that has no whitespace at its ends gives that text back: the characterisation is unique |
| Text.StripOfSurrounded | utils/setup_prompt.py:5-10 | whitespace put on both sides of a text with no whitespace at its ends is exactly what stripping removes |
| Text.TrimEndOfPadded | app.py:78 | trimming the end of a text that does not itself end in whitespace, followed only by whitespace, gives that text back |
| Text.StripEmptyIff | app.py:138 | `s.strip() == ""` holds exactly when `s` is whitespace only, in both directions |
| Text.StripIdempotent | app.py:78 | stripping a stripped string changes nothing |
| Text.Join | utils/extract_news.py:29 | `" ".join`: "" for no parts, the part itself for one; otherwise the parts' lengths plus one separator length per gap |
| Text.JoinPartAt | utils/extract_news.py:29 | each part appears verbatim, starting after all earlier parts and one separator per earlier part |
| Text.JoinSeparatorAfter | utils/extract_news.py:29 | each part but the last is followed by exactly one separator |
| Text.JoinSnoc | utils/extract_news.py:29 | joining one more part adds exactly one separator and that part at the end |
| Text.PrefixBefore | utils/extract_news.py:8 | `re.split(pat, s)[0]`: a prefix of `s`, followed in `s` by `pat` unless it is all of `s`, with no occurrence of `pat` starting inside it |
| Text.PrefixBeforeAbsent | utils/extract_news.py:8 | a string without the pattern is returned whole |
| Text.PrefixBeforeIdempotent | utils/extract_news.py:8 | cutting a cut string again changes nothing |
| Prompt.SystemPromptIsText | utils/setup_prompt.py:5-10 | `.strip()` of the triple-quoted literal removes exactly its outer line break and indentation; the instruction is left intact, inner line breaks included |
| Prompt.GetPrompt | utils/setup_prompt.py:3-25 | exactly two messages: the system role with the stripped instruction, whatever the arguments, then the user role with the header, `context: <context>` and `task: <task>` |
| Prompt.UserContentRecoversArguments | utils/setup_prompt.py:13-19 | context and task appear verbatim in the user message at fixed offsets: nothing is escaped or truncated |
| Prompt.GetPromptInjective | utils/setup_prompt.py:13-19 | equal prompts for contexts of equal length come from equal contexts and equal tasks |
| Retrieval.Context | utils/extract_document.py:7-12 | the context's length is the sum of the selected chunks' lengths |
| Retrieval.SelectedPrefix | utils/extract_document.py:10-11 | the chunks selected by a prefix of the search row are the prefix of the selected chunks |
| Retrieval.ExtractDocuments | utils/extract_document.py:7-12 | the loop returns the chunks named by the first search row, concatenated in row order |
| Retrieval.ContextAppend | utils/extract_document.py:10-11 | the context of a row split in two is the two contexts in order |
| Retrieval.ContextBlock | utils/extract_document.py:10-11 | each row entry contributes its chunk verbatim, right after the text of the entries before it |
| Retrieval.RepeatedIndexRepeatsChunk | utils/extract_document.py:10-11 | no deduplication: a chunk named twice appears twice |
| Chunking.ChunksOf | utils/chunking.py:6-23 | the number of chunks is the sum of the per-document piece counts; no documents give no chunks |
| Chunking.ChunkDoc | utils/chunking.py:6-23 | the loop returns every description's pieces, split with size 1600 and overlap 200, in document order |
| Chunking.ChunksAppend | utils/chunking.py:19-21 | the chunks of two runs of documents are the first run's chunks followed by the second's |
| Chunking.DocumentPiecesContiguous | utils/chunking.py:19-21 | the pieces of document `i` appear together, in splitter order, right after those of the documents before it |
| News.NewsFrame.constructor | utils/extract_news.py:7 | a table with the given links and no descriptions yet |
| News.TrimLink | utils/extract_news.py:8 | the link up to its first `&ved`; the whole link when there is none |
| News.TrimLinks | utils/extract_news.py:8 | one trimmed link per link, in order, each a prefix of its original |
| News.TrimLinksIdempotent | utils/extract_news.py:8 | trimming trimmed links changes nothing |
| News.Describe | utils/extract_news.py:15-37 | a request exception or a status other than 200 gives the placeholder, so any other description comes from a 200 response |
| News.Descriptions | utils/extract_news.py:13-37 | one description per link |
| News.SuccessfulDescription | utils/extract_news.py:18-30 | a 200 page is described by its paragraphs joined by single spaces, and by "" when it has none (not by the placeholder) |
| News.DownloadLatestNews | utils/extract_news.py:7-44 | the same table comes back; its links are unchanged; its description column holds, for each trimmed link in order, the joined paragraphs on status 200 and the failure placeholder on any other status or a request exception |
| Pipeline.Yielded | inference_pipeline.py:47-50 | the forwarded pieces are never more than the deltas, and none of them is empty |
| Pipeline.YieldedAppend | inference_pipeline.py:47-50 | filtering keeps delivery order across any split of the stream |
| Pipeline.YieldedKeepsText | inference_pipeline.py:47-50 | no text is lost or reordered: the forwarded pieces spell the same text as all delta contents, with a missing content read as "" |
| Pipeline.ForwardDeltas | inference_pipeline.py:47-50 | the `async for` loop yields exactly the non-empty contents, in order |
| Pipeline.Corpus | inference_pipeline.py:25-31 | the chunks built for a request: as many as the pieces of the downloaded descriptions; none when the news search finds no links |
| Pipeline.RetrievedContext | inference_pipeline.py:34-41 | the context for a request comes from its own corpus, index and query encoding; the run raises (`None`) exactly when the corpus is empty, where FAISS pads the row with -1 and `all_chunks[-1]` raises `IndexError` (utils/extract_document.py:11) |
| Pipeline.PipelineOutputSpellsStream | inference_pipeline.py:34-50 | `PipelineOutput`, what a run yields, is `None` (the run raises) exactly for an empty corpus; otherwise it spells out exactly the text of the generation stream for the prompt built from the retrieved context and the task |
| Pipeline.Retrieve | inference_pipeline.py:24-41 | the retrieval stages in dataflow order: the downloaded descriptions are those of the trimmed links the search returned; the chunks are those of the descriptions; the query is encoded with the model returned with the index; for a non-empty corpus the context is that of the search in that index over those chunks; the extraction raises (`None`) exactly on an empty corpus; in both cases the result is `RetrievedContext` of the request |
| Pipeline.RunPipeline | inference_pipeline.py:20-50 | the call trace: each stage consumes the previous stage's output, and these data dependencies fix the order fetch, download, chunk, embed, encode, extract, prompt, generate. The query is encoded with the model returned with the index. The search uses that index over the same call's chunks and finds only chunk positions. The prompt carries the context of that search over the chunks and query encoding that `Retrieve` produced (and `Retrieve` states that context is `RetrievedContext` of the request). The output is the filtered stream. On an empty corpus the run raises at the extraction: six calls, nothing yielded |
| App.Step | app.py:76-157 | the effect of one event on the session; from the chat stage every event stays in chat, keeps the topic and only extends the history |
| App.InitialStateValid | app.py:55-61 | the first-load state (input stage, topic "", no messages, not summarized) satisfies the session invariant and has whole turns |
| App.BlankFollowUpIgnored | app.py:137-139 | a follow-up that is whitespace only leaves the session unchanged |
| App.FollowUpAppendsTurn | app.py:140-157 | any other follow-up in the chat stage appends the question as typed and then the accumulated answer; it keeps earlier messages, the stage and the topic |
| App.AppendTurnAlternates | app.py:142-157 | appending one user/assistant turn to an even, alternating history keeps the roles alternating |
| App.SubmitKeepsInv | app.py:76-79 | submitting a topic keeps the session invariant |
| App.SummaryKeepsInv | app.py:85-109 | finishing the summary keeps the session invariant |
| App.AppendKeepsAnswers | app.py:142-157 | appending a question, with or without its answer, keeps every answer right after a question |
| App.FollowUpKeepsInv | app.py:137-157 | a follow-up whose stream completes keeps the session invariant |
| App.FailedFollowUpKeepsInv | app.py:137-148 | a follow-up whose stream raises keeps the session invariant |
| App.StepKeepsInv | app.py:55-157 | every event keeps the invariant: `summarized` exactly in the chat stage; topic "" on the input page; no messages before the chat stage; in chat, a history that opens with the topic and its summary, with only user and assistant messages and every answer right after a question |
| App.RunKeepsInv | app.py:55-157 | every state reachable by any sequence of events satisfies the invariant |
| App.StepKeepsComplete | app.py:89-157 | every event except a follow-up whose stream raises keeps the chat history in whole alternating user/assistant turns |
| App.RunKeepsComplete | app.py:89-157 | a session in which no stream raises has its history in whole alternating user/assistant turns in every reachable state |
| App.FailedFollowUpLeavesQuestion | app.py:140-150 | a follow-up whose stream raises leaves the question as the last message, unanswered, and the history no longer in whole turns |
| App.StepAdvancesStage | app.py:56 | one event moves the stage at most one page forward, never back |
| App.RunNeverGoesBack | app.py:56 | no sequence of events moves the stage back or leaves the chat stage, and the topic never changes once submitted |
| App.Accumulate | app.py:89-95 | the `+=` loop ends with all pieces concatenated in order |
| App.IsBlank | app.py:138 | the blank test `user_question.strip() == ""` answers true exactly for a whitespace-only question |
| App.StreamedAnswer | app.py:146-150 | a pipeline run read to its end gives the concatenation of everything the run yields; a run that raises gives no text |
| App.Session.constructor | app.py:55-61 | first load: stage input, topic "", no messages, not summarized; the invariant holds |
| App.Session.SubmitTopic | app.py:76-79 | on the input page: the topic becomes the stripped input and the stage becomes summarizing; the invariant is kept |
| App.Session.Summarize | app.py:85-109 | on the summarizing page, when the run completes (no collaborator raises and the corpus is not empty): the pipeline runs on the topic with the default task; the messages become the topic and the accumulated summary; summarized is set; the stage becomes chat. When the run raises, nothing changes. The invariant is kept |
| App.Session.SendFollowUp | app.py:137-157 | in the chat stage, a non-blank question is appended, then, when the run completes (no collaborator raises and the corpus is not empty), the answer of a pipeline run on it with the follow-up task; when the run raises, the question stays unanswered; a blank question changes nothing; the invariant is kept |

## Left out

- Rendering is not modelled: titles, `st.write`, the streaming placeholders, the warning text and `st.experimental_rerun`. Only the session fields and the three events that change them are modelled.
- A widget's value is a method argument: the text inputs `topic_input` and `followup_input`. Clearing `followup_input` after a follow-up is not modelled.
- The stream glue in `app.py` is not modelled as written. `asyncio.run` is applied to an async generator, and `.choices[0].delta.content` is read from pieces that `run_pipeline` already yields as strings. The model accumulates the yielded strings, as the surrounding code evidently intends.
- The collaborators are deterministic functions in `Pipeline.Env`: Google News search (`utils/google_news`, imported under a module name that is not present), the HTTP request with HTML parsing (outcome `fetch(idx, link)`), `RecursiveCharacterTextSplitter`, `embed_documents`, `encode_query`, FAISS search and `get_model_response`. Their own guarantees are not modelled, e.g. chunk size and overlap bounds or nearest-first order. `utils/embedding.py`, `utils/encode_query.py`, `utils/model.py`, `utils/news_fetcher.py` and `utils/save_news.py` are not part of this model.
- `main.py` is not part of this model. It drives a `NewsPipeline` class and a `run_follow_up` operation that `inference_pipeline.py` does not define.
- Retrieval.ExtractDocuments: requires every index in the first search row to name a chunk. This rules out FAISS's `-1` padding when there are fewer than `k` chunks. With between one and `k - 1` chunks, Python's negative indexing then silently picks the last chunk. With no chunks at all, `all_chunks[-1]` raises `IndexError`. `Pipeline.SearchInRange` states the same assumption of the search function for every non-empty corpus; the empty corpus is the raising run of `Pipeline.RetrievedContext`.
- App.Session.SendFollowUp: whether a collaborator raises is the parameter `streamCompletes`, not derived from its causes. Those causes are a failed news search or page request and an error from the generation service mid-stream. The empty corpus is derived: the run raises on it (`App.RunCompletes`). The text already shown from a stream that raises is not recorded. In the code such a failure leaves the question at app.py:142-143 without an answer; the model records this as the event `FollowUpFailed`. The session invariant allows it. Whole alternating turns hold only while every stream completes (`App.RunKeepsComplete`).
- App.Session.Summarize: a summary stream that raises is modelled as leaving the session unchanged, because the assignments at app.py:100-109 come after the loop. That the next rerun of the page tries again is not modelled.
- News.DownloadLatestNews: `time.sleep(random.uniform(1, 3))`, the `print` calls and the `summary_details` list, which is built and never used, are left out. Exceptions other than `RequestException`, such as parser errors, are not modelled.
- Pipeline.RetrievedContext: on an empty corpus the run raises. The model places the raise at the extraction, where `all_chunks[-1]` fails. `embed_documents` on no chunks (utils/embedding.py, not part of this model) may already raise one stage earlier; the model does not distinguish the two.
- Pipeline.RunPipeline: the logging, the two `print` calls and the asynchronous suspension points are left out. The yielded pieces are returned as one sequence.
- Default parameter values (`k=3`, `task="Summarize this context"`) are the constants `Retrieval.DefaultK` and `Pipeline.DefaultTask`, passed explicitly.
- Every follow-up runs the whole pipeline again, with the question as the request (app.py:26-37, app.py:148), and the model does the same. Reusing the original corpus, which `main.py`'s `NewsPipeline.run_follow_up` expects, is not defined in `inference_pipeline.py` and is not modelled.
