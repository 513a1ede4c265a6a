# Resume chatbot: chunking, conversation state and request handling

This project models the core of a resume-screening chatbot in Dafny:

- **Ingestion** (`dataset_praser.py`): a resume's text is tokenised and cut into
  overlapping windows of `chunk_size` tokens. The cursor advances by
  `chunk_size - overlap`. Each window becomes a numbered chunk record.
- **Conversation state** (`RAG_chatbot.py`): the `ConversationManager` keeps a
  history bounded to `2 * max_history` messages. It formats that history as a
  transcript and holds an `initial_context` slot.
- **Answering** (`RAG_chatbot.py`): `answer_with_rag` either searches (top 5
  hits, formatted into a prompt context) or reuses the cached context. It writes
  the cache only when it is empty, then asks the generative model.
- **The web API** (`metadata_api.py`):
  - `analyze` keeps a table of sessions and decides per request whether to search.
  - It answers backslash metadata commands (`\skills=python min_exp=5`) from the
    database, with parsing and error text exactly as the code does it.
  - It sanitises chatbot answers and records both the question and the answer.
  - `upload_resume` chunks an uploaded resume and numbers its records.

Files:
- `strings.dfy` holds the Python `str` operations the code relies on.
- `vector_index.dfy` is the similarity search as seen by its callers.
- `chunking.dfy`, `conversation.dfy` and `metadata_api.dfy` follow the three
  source files.

What stays abstract, and how it enters the model:
- The tokenizer, the embedder, the ranking done by the database, the `:.4f`
  score formatting, the generative model, Python's `float()` and the metadata
  database query are function-valued parameters.
- Fresh identifiers are parameters: the session uuid, and the random resume id
  (with its range as a precondition).

Behaviour of the code worth noting:
- `format_chunks_for_prompt([])` returns the empty string, not a distinct
  sentinel. The answer path never reaches it with an empty list, because it
  returns the no-match message first.
- A forced new search does not overwrite a cached context. `initial_context` is
  written only while it is `None`, so it is write-once. The forced search's hits
  are used for that turn only.
- `initial_context or "No previous context available"` also falls back when the
  cached context is the empty string. A cached context is never empty
  (`FirstFoundNonEmpty`), so the fallback is only ever taken for `None`.
- A search that finds nothing leaves the cache empty, but only the command line
  retries on the next question, because it searches while nothing is cached. In
  `analyze` the no-match answer is recorded as an `assistant` message. After it,
  the next question searches only for a backslash command or "new search"
  (`FollowUpDecision`), and otherwise answers from "No previous context available".

## Model

| member | source | states |
|---|---|---|
| Strings.Take | RAG_chatbot.py:50 | `s[:k]` has length exactly `min(|s|, k)` and is a prefix of `s`, so it is the whole of `s` when that is short |
| Strings.IsSpace | metadata_api.py:105 | `str.isspace()` for one character: space, tab to carriage return, 0x1C to 0x1F, 0x85 and 0xA0 |
| Strings.Strip | RAG_chatbot.py:50 | `str.strip()`: the result neither starts nor ends with whitespace |
| Strings.StripKeepsChars | metadata_api.py:155 | stripping only removes characters: every character of the result comes from the input |
| Strings.StripIsLStripRStrip | metadata_api.py:105 | `strip` is `lstrip` followed by `rstrip` |
| Strings.LStrip | metadata_api.py:105 | `lstrip` leaves a suffix of the input that does not start with whitespace |
| Strings.LStripDropsOnlySpace | metadata_api.py:105 | every character `lstrip` drops is whitespace |
| Strings.RStrip | metadata_api.py:105 | `rstrip` leaves a prefix of the input that does not end with whitespace |
| Strings.RStripDropsOnlySpace | metadata_api.py:105 | every character `rstrip` drops is whitespace |
| Strings.StripSlice | metadata_api.py:105 | `strip` leaves a slice `s[a:b]` of the input and every character outside it is whitespace: only leading and trailing whitespace is removed |
| Strings.Lower | metadata_api.py:98 | `str.lower()` maps each ASCII upper-case letter to its lower-case letter, character by character |
| Strings.LowerShape | metadata_api.py:98 | the lowered string has the same length, no upper-case letter, and every character that was not an upper-case letter unchanged |
| Strings.Capitalize | RAG_chatbot.py:34 | `str.capitalize()`: the first character upper-cased, the rest lower-cased |
| Strings.CapitalizeShape | RAG_chatbot.py:34 | the capitalised string has the same length, no lower-case letter first and no upper-case letter after it |
| Strings.ReplaceChar | metadata_api.py:155 | `str.replace(a, b)` for single characters: every `a` becomes `b` |
| Strings.ReplaceCharShape | metadata_api.py:155 | replacing keeps the length, leaves no `a` when `b` differs, and keeps every other character |
| Strings.FindFrom | metadata_api.py:109-116 | the leftmost occurrence of a substring at or after a position, or none at all |
| Strings.Find | metadata_api.py:109-116 | the leftmost occurrence of a substring in the whole string, or none |
| Strings.Contains | metadata_api.py:109-116 | `sub in s`: some occurrence of `sub` exists |
| Strings.StartsWith | metadata_api.py:97 | `s.startswith(p)`: `p` is a prefix of `s` |
| Strings.AfterFirst | metadata_api.py:110 | `s.split(sep, 1)[1]`: the text from the end of the first occurrence of `sep` to the end of `s`; `FieldOf` cuts it at the next occurrence with `BeforeFirst`, which gives `s.split(sep)[1]` |
| Strings.BeforeFirst | metadata_api.py:110 | `s.split(sep)[0]`: the prefix of `s` up to the first occurrence of `sep`, with no occurrence starting inside it, or all of `s` |
| Strings.TakeWord | metadata_api.py:110 | the leading run of non-whitespace characters, ending at whitespace or at the end |
| Strings.FirstWord | metadata_api.py:110 | `s.split()[0]`: absent exactly when `s` is all whitespace (Python's `IndexError`); otherwise a non-empty word without whitespace |
| Strings.FirstWordAt | metadata_api.py:110 | the first word sits in the input preceded only by whitespace and followed by whitespace or the end |
| Strings.Split | metadata_api.py:110 | `s.split(',')` is never empty and no piece contains the separator |
| Strings.JoinSplit | metadata_api.py:110 | joining the pieces of `s.split(c)` with `c` gives back `s` |
| Strings.SplitJoin | metadata_api.py:141-145 | joining separator-free pieces and splitting again gives back the pieces |
| Strings.JoinAppend | RAG_chatbot.py:33-36 | joining one more piece appends the separator and the piece |
| Strings.Join | RAG_chatbot.py:33-36 | `sep.join(xs)`: the pieces in order with `sep` between neighbours, `""` for no pieces |
| Strings.NatToString | metadata_api.py:142 | `str(n)` for a natural: at least one character, all of them decimal digits |
| Strings.IntToString | metadata_api.py:142 | `str(i)`: at least one character, a leading `-` exactly for a negative number, digits after the first character |
| VectorIndex.SimilaritySearch.Search | RAG_chatbot.py:67 | the search returns the `top_k` best-ranked chunks for the query and logs that the query was asked |
| Chunking.StartIsProduct | dataset_praser.py:85-89 | after `k` advances of the cursor by `step` it stands at `k * step` |
| Chunking.Start | dataset_praser.py:85-89 | the cursor after `k` executions of `i += chunk_size - overlap`, starting from 0 |
| Chunking.WindowCount | dataset_praser.py:85-89 | how many cursor positions the loop visits below the token count |
| Chunking.Window | dataset_praser.py:87 | `tokens[i:i + chunk_size]` at the cursor position of window `k`, cut at the end of the list |
| Chunking.WindowStartBound | dataset_praser.py:86-89 | window `k` exists exactly when the cursor position after `k` advances is below the token count |
| Chunking.WindowCountIsCeiling | dataset_praser.py:85-90 | the number of chunks is `ceil(n / (chunk_size - overlap))` |
| Chunking.Chunks | dataset_praser.py:82-90 | the chunk list: window `k` is the tokens from cursor position `k * step`, at most `chunk_size` of them, joined by spaces, one window per position below the token count |
| Chunking.ChunksEmpty | dataset_praser.py:84-86 | no chunks exactly when there are no tokens |
| Chunking.WindowShape | dataset_praser.py:87 | each window has between 1 and `chunk_size` tokens; it has exactly `chunk_size` when it fits; its tokens are the token list from the cursor position of window `k` |
| Chunking.WindowsCover | dataset_praser.py:86-89 | every token lies in some window, at its offset from that window's cursor position |
| Chunking.ConsecutiveWindowsOverlap | dataset_praser.py:87-89 | a full window's last `overlap` tokens are the next window's first tokens |
| Chunking.WindowAt | dataset_praser.py:87 | window `k` is the token slice from the cursor position `i` to `min(i + size, n)`, and `i < n` |
| Chunking.TextChunker.constructor | dataset_praser.py:77-79 | the chunker keeps its window size, overlap and tokenizer |
| Chunking.TextChunker.ChunkText | dataset_praser.py:82-90 | the cursor loop emits the space-joined windows in start order, given `overlap < chunk_size` |
| Chunking.BuildRecords | dataset_praser.py:127-134 | the `enumerate(zip(...))` loop yields one record per chunk and embedding pair, numbered from 0, as many as the shorter list |
| Chunking.RecordsFor | dataset_praser.py:127-134 | the records of `enumerate(zip(chunks, embeddings))` for one resume, numbered from 0 |
| Chunking.RecordsFrom | dataset_praser.py:127-134 | the records of the chunk and embedding pairs numbered from `start`, until either list runs out |
| Chunking.ResumeRecords | dataset_praser.py:121-134 | one resume's records: none when it has no chunks, else its chunks paired with their embeddings |
| Chunking.AllRecords | dataset_praser.py:116-136 | the records of all resumes, resume after resume |
| Chunking.RecordsFromShape | dataset_praser.py:127-134 | numbering from `start` yields as many records as the shorter list, record `i` holding chunk `i`, embedding `i` and number `start + i` |
| Chunking.AllRecordsAppend | dataset_praser.py:120-134 | resume order is kept: the records of concatenated inputs are concatenated |
| Chunking.EmptyResumeSkipped | dataset_praser.py:122-123 | a resume without tokens contributes nothing wherever it stands |
| Chunking.RecordOrigin | dataset_praser.py:127-134 | every record carries the id and category of an input resume and the text of that resume's chunk at its `chunk_id` |
| Chunking.ResumeProcessor.constructor | dataset_praser.py:113-114 | the processor uses the default chunker: 300-token windows with 100 tokens of overlap |
| Chunking.ResumeProcessor.Process | dataset_praser.py:116-136 | the nested loops produce the records of all resumes in order, skipping the ones without chunks |
| Conversation.KeepLast | RAG_chatbot.py:29-30 | eviction keeps the newest `min(|h|, 2m)` messages in their order |
| Conversation.EvictAsWritten | RAG_chatbot.py:29-30 | the slice as written: `h[-2m:]` once `h` is longer than `2m`, where `h[-0:]` is all of `h` |
| Conversation.EvictAsWrittenExceedsZeroBound | RAG_chatbot.py:29-30 | with `max_history = 0`, the slice `h[-0:]` keeps a message the bound says to evict |
| Conversation.EvictAsWrittenAgrees | RAG_chatbot.py:29-30 | for every positive `max_history`, the slice as written is `KeepLast` |
| Conversation.KeepLastAppend | RAG_chatbot.py:27-30 | trimming before an append does not change the trimmed result |
| Conversation.KeepLastConcat | RAG_chatbot.py:27-30 | trimming before appending several messages does not change the final trim |
| Conversation.ReplayKeepsNewest | RAG_chatbot.py:27-30 | after any run of `add_message` calls, the history is the newest `2m` messages of all, in order |
| Conversation.TranscriptAppend | RAG_chatbot.py:32-36 | adding a message adds its `Role: content` line at the end of the transcript, after a newline |
| Conversation.Transcript | RAG_chatbot.py:32-36 | the history as `Role: content` lines, role capitalised, oldest first, joined by newlines |
| Conversation.Line | RAG_chatbot.py:34 | one history line: the capitalised role, `: `, the content |
| Conversation.Lines | RAG_chatbot.py:33-35 | one line per message, in history order |
| Conversation.ConversationManager.FormattedHistory | RAG_chatbot.py:32-36 | `get_formatted_history` is the transcript of the current history |
| Conversation.ConversationManager.constructor | RAG_chatbot.py:22-25 | a new manager has an empty history and no cached context |
| Conversation.ConversationManager.AddMessage | RAG_chatbot.py:27-30 | the history becomes the newest `2 * max_history` messages of the old history plus the new one, so it stays bounded |
| Conversation.ConversationManager.SetInitialContext | RAG_chatbot.py:38-40 | stores the context |
| Conversation.Excerpt | RAG_chatbot.py:50 | the excerpt has exactly `min(|strip(text)|, 400)` characters and is a prefix of the stripped text: its first 400 characters, or all of it when that is short |
| Conversation.Header | RAG_chatbot.py:48 | the hit's header line: resume id, category, and the similarity `1 - distance` in four decimals |
| Conversation.Block | RAG_chatbot.py:48-50 | one hit's text in the context: its header, its excerpt and `...\n---\n` |
| Conversation.PromptContext | RAG_chatbot.py:45-51 | the prompt context: each hit's header, excerpt and `...\n---\n`, in ranking order |
| Conversation.PromptContextEmpty | RAG_chatbot.py:45-51 | the context is empty exactly for no hits; otherwise it ends in `...\n---\n` |
| Conversation.BlockEndsWith | RAG_chatbot.py:49-50 | every chunk's block ends in `...\n---\n` |
| Conversation.PromptContextSingle | RAG_chatbot.py:47-50 | the context of one hit is its header, excerpt and separator |
| Conversation.PromptContextAppend | RAG_chatbot.py:47-51 | blocks follow the ranking: the context of concatenated hits is the concatenated contexts |
| Conversation.FormatStep | RAG_chatbot.py:47-50 | formatting one more hit appends its header line, then its excerpt and the separator |
| Conversation.FormatChunksForPrompt | RAG_chatbot.py:45-51 | the accumulation loop yields the in-order concatenation of the blocks |
| Conversation.CacheWriteOnce | RAG_chatbot.py:72-73 | once the cached context is set, no later turn replaces it |
| Conversation.CacheAfterTurn | RAG_chatbot.py:66-73 | the cache after one turn: a search with hits writes its context only into an empty slot; every other turn leaves it |
| Conversation.ReusedContext | RAG_chatbot.py:76 | `initial_context or "No previous context available"`: the cached context unless it is absent or empty |
| Conversation.TurnContext | RAG_chatbot.py:66-76 | the context a turn answers from: the reused one without a search, none for a search without hits, else the formatted hits |
| Conversation.RagAnswer | RAG_chatbot.py:66-107 | a turn's answer: the no-match message for a search without hits, else the reply to the prompt from the turn's context |
| Conversation.CacheIsFirstFound | RAG_chatbot.py:66-76 | starting empty, the cache holds the context of the first search that found anything; empty searches leave it empty |
| Conversation.FollowUpsUseFirstContext | RAG_chatbot.py:66-76 | after the first successful search, a turn without a search answers from that context, and even a forced search leaves the cache on it |
| Conversation.FirstFoundPrefix | RAG_chatbot.py:72-73 | later turns do not change which search found context first |
| Conversation.FirstFoundNonEmpty | RAG_chatbot.py:70-76 | a cached context is never empty, so the `or` fallback applies only to `None` |
| Conversation.AnswerWithRag | RAG_chatbot.py:53-107 | the index is queried exactly when a search is asked for; the cache is written only by a search with hits into an empty slot; the answer is the no-match message for an empty search, else the model's reply to the prompt from the turn's context |
| Conversation.Prompt | RAG_chatbot.py:80-99 | the prompt template with the transcript, the job description and the context in their places |
| Conversation.ReplyText | RAG_chatbot.py:103-107 | the reply's text, the invalid-format message for a reply without text, or the API error message |
| Conversation.CliTurn | RAG_chatbot.py:123-133 | one command-line turn: the question is recorded, a search runs when nothing is cached or "new search" is asked for, and the answer is recorded after it |
| Conversation.CliSearchNew | RAG_chatbot.py:127-130 | the command line searches when nothing is cached or the question contains "new search" in any case |
| MetadataApi.FollowUpDecision | metadata_api.py:95-100 | in a session whose last message is an answer, the next question searches exactly when it is a metadata command or asks for a "new search" |
| MetadataApi.SearchNew | metadata_api.py:95-100 | `search_new`: a new session, a metadata command, "new search" in any case, or no answer in the history |
| MetadataApi.IsMetadataCommand | metadata_api.py:97 | a metadata command starts with a backslash |
| MetadataApi.AsksNewSearch | metadata_api.py:98 | the lower-cased input contains "new search" |
| MetadataApi.HasAssistantMessage | metadata_api.py:99 | some message of the history has the role `assistant` |
| MetadataApi.RequestTurn | metadata_api.py:95-100 | the chatbot retrieval of a request: it searches when the request is no metadata command and `search_new` holds, keeping the first five hits |
| MetadataApi.FirstQuestionSearches | metadata_api.py:92-100 | in a session whose history holds no answer, recording the question and evicting keeps it that way, so the request always searches |
| MetadataApi.FieldOf | metadata_api.py:109-116 | a key's field is absent exactly when the key does not occur; a word found after it is non-empty and has no whitespace |
| MetadataApi.FieldOfWordAt | metadata_api.py:109-116 | a present key's field is read between the key's first occurrence and its next one: blank exactly when that text is all whitespace, otherwise the text's first word |
| MetadataApi.ParseQueryOutcome | metadata_api.py:108-116 | parsing succeeds exactly when every present key has a word and `min_exp` is a number; a filter is set exactly when its key occurs; skills have no commas; any other error is `float()`'s |
| MetadataApi.ParseTitleOnly | metadata_api.py:113-114 | `title=w` sets the title filter to `w` and nothing else |
| MetadataApi.ParseSkillsOnly | metadata_api.py:109-110 | `skills=w` sets the skills filter to the comma-pieces of `w` and nothing else |
| MetadataApi.BlankSkillsFail | metadata_api.py:109-110 | any command whose first `skills=` is followed by only whitespace fails with `list index out of range` |
| MetadataApi.ParseFilters | metadata_api.py:108-116 | filling the filters key by key, stopping at the first exception, gives the parse |
| MetadataApi.ParseQuery | metadata_api.py:108-116 | the filters of a command, read key by key: skills, minimum experience, title, location |
| MetadataApi.ParseFields | metadata_api.py:108-116 | a blank field raises `IndexError`, a minimum experience that is no number raises `float()`'s error, checked in the order of the source's four `if` lines; else the present keys set their filters |
| MetadataApi.RowLineShape | metadata_api.py:142-143 | a line starts with the title, has a `|` after the years followed by `| Skills: ` and the first five skills joined by `, `, and ends with the location exactly when the row has one |
| MetadataApi.RowLine | metadata_api.py:142-143 | one result line: title, years, the first five skills, and the location when it is non-empty |
| MetadataApi.RowHead | metadata_api.py:142 | the part of a line before its `| Skills: ` bar: the title, then the years in parentheses |
| MetadataApi.RowLines | metadata_api.py:141-145 | one line per row, in the database's order |
| MetadataApi.FormatRows | metadata_api.py:138-145 | the rows' lines joined by newlines, or the no-rows message for no rows |
| MetadataApi.FormatRowsHasBar | metadata_api.py:141-145 | a non-empty result always contains a `|` |
| MetadataApi.FormatRowsEmpty | metadata_api.py:138-145 | "No matching resumes found in database." is the answer exactly for no rows |
| MetadataApi.FormatRowsLines | metadata_api.py:141-145 | with newline-free fields, the answer splits into one line per row, in order |
| MetadataApi.MetadataFailureReported | metadata_api.py:147-148 | a command that fails to parse is answered with the error prefix |
| MetadataApi.MetadataErrorText | metadata_api.py:148 | the failure text: the error prefix, the exception's message and the format hint |
| MetadataApi.MetadataAnswer | metadata_api.py:102-148 | a metadata command's answer: the error text of a failed parse, else the formatted first twenty rows of the query |
| MetadataApi.Sanitize | metadata_api.py:155 | the sanitised answer has no newline, no double quote and no surrounding whitespace |
| MetadataApi.SanitizeIdempotent | metadata_api.py:155 | sanitising twice is sanitising once |
| MetadataApi.ResponseShape | metadata_api.py:95-155 | chatbot answers are sanitised; a follow-up in an ongoing session answers from the cached context without searching |
| MetadataApi.Response | metadata_api.py:102-155 | a request's answer: the metadata answer for a backslash command, else the sanitised chatbot answer with the session's search decision |
| MetadataApi.IsNewSession | metadata_api.py:84 | a request starts a session when its id is missing, empty or unknown |
| MetadataApi.SessionStore.constructor | metadata_api.py:79 | the server starts without sessions |
| MetadataApi.SessionStore.OpenSession | metadata_api.py:84-91 | an absent, empty or unknown id starts a fresh session with `max_history = 3` under a new key; a known id reuses its session; no other key changes |
| MetadataApi.SessionStore.Analyze | metadata_api.py:81-158 | one request: the session is found or started; its history gains the question and then the answer; metadata commands never query the index or touch the cache; other sessions are unchanged |
| MetadataApi.AnswerTurn | metadata_api.py:92-157 | inside the session: the question is recorded; the answer comes from the database or the sanitised chatbot; the answer is recorded |
| MetadataApi.UploadResume | metadata_api.py:161-193 | no tokens gives the error and stores nothing; otherwise the records share the drawn id and category "Uploaded", are numbered from 0, and `num_chunks` is their count |

## Left out

- I/O and outside services are parameters and are not modelled:
  - file reading and UTF-8 decoding;
  - the dataset loaders;
  - the tokenizer and the embedding model;
  - the database's ranking and its metadata filtering (`any_`, `>=`, `ilike`);
  - storing the records;
  - the generative model.
- Floating point: distances are reals and `1 - distance` is computed exactly. The rounding of the float subtraction and the four-decimal formatting are left to the formatter parameter. `float()` is a parameter.
- Concurrency: requests to the API are sequential calls on one session table.
- Identifiers: the session uuid is taken as fresh, so a collision with an existing key is not modelled. The resume id is a parameter within `randint`'s range.
- Unicode: case mapping is ASCII-only. Whitespace is the ASCII and Latin-1 part of Python's `isspace`.
- Negative `chunk_size`, `overlap` or `max_history` are not modelled; these are naturals.
- `ChunkText` requires `overlap < chunk_size`. Otherwise the source's loop never ends on a text with at least one token. The model also excludes the token-free text with such settings, on which the source returns `[]`.
- Exceptions raised by the database inside the metadata branch are not modelled. Only parsing failures are.
- `NULL` database columns are not modelled.
- Exceptions the command-line loop catches around a turn are not modelled.
- The command-line loop's reading of input lines and its `exit`/`quit` test are I/O and are not modelled.
- Failures of the embedding model or the database during the chatbot's search are not modelled: the search is total. In the source they escape `analyze` after the question is recorded and before the answer is. That leaves a session whose last question has no answer.
- The `/metadata` GET route and the root route are not part of this model.
- `integration.py`, `metadata_extraction.py` and `generate_resumes.py` are not part of this model.
- The `print` progress messages are not modelled.
- The choice of loader in `ResumeProcessor.__init__` and its `ValueError` are not modelled.

## Findings

| source | as written | input that shows it | evidently intended | confidence | as-written member | corrected member |
|---|---|---|---|---|---|---|
| RAG_chatbot.py:29-30 | `self.history[-self.max_history * 2:]` | `max_history = 0`, one message: `h[-0:]` is all of `h`, so the message stays although the bound is 0 | keep the last `2 * max_history` messages, none for 0 | not executed | Conversation.EvictAsWrittenExceedsZeroBound | Conversation.KeepLast |

`ConversationManager.AddMessage` uses the corrected `KeepLast`. `EvictAsWrittenAgrees` shows the two coincide for every positive `max_history`; both callers pass 3.
