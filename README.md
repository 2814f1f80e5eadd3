# InfLLM chat and word-cloud components, modelled in Dafny

InfLLM is a chat front end and back end around a long-context language
model, with listeners that observe the model's key/value cache. This project
models the sequential components around that system whose behaviour can be
stated exactly, and proves properties of them:

- **The chat pane** (`ChatPane`, chat_pane.dfy). `chatPaneReducer` is modelled
  as a datatype of actions with a pure `Reduce` function. The store of
  `useChatPane` is a class whose handlers dispatch into the live state. Each
  handler also reads the state of the render that created it, passed in as a
  separate `snapshot`. The backend's outcomes are parameters: the stream's
  tokens and failure, the debug-mode reply, and whether new-chat and
  file-read succeeded.
- **Word preprocessing** (`Preprocess`, preprocess.dfy). The text passes and
  filters of `preprocess` are functions on sequences of `{text, value}`
  records. `dedup` is a grouping loop over a map, a push loop and a sort,
  each proved against a specification. From these, `dedup` is shown to
  throw exactly on an empty text. Otherwise it returns:
  - one word per lower-case text;
  - values that are the means of each group;
  - the display spelling the entry loop picks;
  - words in non-increasing order of value.
- **The stand-alone browser client** (`LegacyClient`, legacy_client.dfy).
  - The submit handler's read loop keeps a line buffer across chunks, splits
    on `\r?\n` and collects the text of `data: ` lines.
  - The page state (history, bubbles, buttons, abort controller) is a class.
  - The server's frames read back to exactly the deltas when no delta holds
    a line break. A delta holding one line feed loses the text after it,
    unless that text itself starts with `data: `. In that case the text
    after the prefix is read and joined on without the line break.
- **The stand-alone server** (`Serve`, serve.dfy).
  - `/status` and `/chat` with their guards.
  - The chat-model test.
  - The history mapped to chat messages, or written as a plain transcript.
  - `token_stream`'s frames.
  - The non-streaming branch.
- **The suffix-delta loop** (`DeltaStream`, deltas.dfy). It is shared by the
  server and by both back-end generators (`BackendChat`, backend_chat.dfy),
  whose conversation is a class updated in place. For texts that only ever
  extend each other, the deltas concatenate to the final text.
- **The cache-event listeners** (`CacheListener`, cache_listener.dfy).
  - The log-file line layout and the dispatch on the event name.
  - The word-cloud listener: character cleanup, stop-word and digit
    filtering, the word-frequency loop and the five-word threshold.
- **Small extras.**
  - The layer lookup `extract_ctx_manager` (`ContextUtils`,
    context_utils.dfy), including Python's negative indices.
  - The word cloud's string hash with its 32-bit wrap-around, the rotation
    and colour derived from it, and the font-size domain (`WordCloud`,
    word_cloud.dfy).
- **Shared text helpers.** `Strings`, `JsText` and `PyText` give the string
  operations each language's code relies on: JavaScript `trim` and `\s`,
  Python `strip`, `split`, `isdigit`, `str(int)`, `02d` and `>5`
  formatting, and list slicing. `Wrappers` holds `Option` and `Result`.

## Model

| member | source | states |
|---|---|---|
| ChatPane.LastModelIndex | frontend/lib/components/ChatPane.tsx:48 | the index is -1 or a model message, and no model message follows it |
| ChatPane.ActionsTouchOnlyTheirField | frontend/lib/components/ChatPane.tsx:39-75 | only the three message actions change `messages`; every `SET_*` action changes at most its own field; an unrecognised action returns the state unchanged |
| ChatPane.AddMessageAppendsOne | frontend/lib/components/ChatPane.tsx:45-46 | `ADD_MESSAGE` appends exactly the given message at the end and changes nothing else |
| ChatPane.UpdateReplacesLastModelContent | frontend/lib/components/ChatPane.tsx:47-52 | `UPDATE_LAST_MODEL_MESSAGE` replaces only the content of the last model message, keeping its role and files, every other message and every other field |
| ChatPane.UpdateWithoutModelMessageIsNoOp | frontend/lib/components/ChatPane.tsx:48-49 | with no model message present the update returns the state unchanged |
| ChatPane.UpdateTrailingModelMessage | frontend/lib/components/ChatPane.tsx:47-52 | when the last message is a model message, the update rewrites that message's content |
| ChatPane.StreamedContentIsConcatenation | frontend/lib/components/ChatPane.tsx:141-146 | after the token callbacks, the trailing model message holds the in-order concatenation of every token so far, and nothing else in the state has changed |
| ChatPane.FileRefs | frontend/lib/components/ChatPane.tsx:129 | one file reference per pending file, in order, each with that file's name |
| ChatPane.RemoveAt | frontend/lib/components/ChatPane.tsx:262 | pill removal deletes exactly index `idx` and keeps the rest in order; an index out of range removes nothing |
| ChatPane.Store.constructor | frontend/lib/components/ChatPane.tsx:78-90 | the reducer starts from the initial state |
| ChatPane.Store.Dispatch | frontend/lib/components/ChatPane.tsx:78 | a dispatch replaces the state with the reducer's result |
| ChatPane.Store.SetLoading | frontend/lib/components/ChatPane.tsx:93-95 | only `isLoading` changes, to the given value |
| ChatPane.Store.BeginPolling | frontend/lib/components/ChatPane.tsx:100-101 | checking and loading are set before the poller starts |
| ChatPane.Store.OnReady | frontend/lib/components/ChatPane.tsx:103-108 | ready, not checking, not loading, no error; nothing else changes |
| ChatPane.Store.OnError | frontend/lib/components/ChatPane.tsx:109-114 | not ready, the not-ready error text, checking and loading; nothing else changes |
| ChatPane.Store.OnChecking | frontend/lib/components/ChatPane.tsx:115-118 | checking and loading are set; nothing else changes |
| ChatPane.Store.BeginSend | frontend/lib/components/ChatPane.tsx:127-133 | error cleared; the user message with the input and file names, then an empty model message, appended; input and files emptied; loading set |
| ChatPane.Store.ReceiveTokens | frontend/lib/components/ChatPane.tsx:141-146 | the accumulating `modelReply` loop leaves the trailing model message holding the concatenation of the tokens, and nothing else changed |
| ChatPane.Store.SimulatedCallback | frontend/lib/components/ChatPane.tsx:135-138 | the simulated reply replaces the trailing model message's content, and loading ends |
| ChatPane.Store.StreamReply | frontend/lib/components/ChatPane.tsx:141-151 | the placeholder keeps the concatenated (possibly partial) tokens; a failure appends a separate `[Error: …]` model message; loading ends either way |
| ChatPane.Store.SendMessage | frontend/lib/components/ChatPane.tsx:125-152 | a no-op without a request when the snapshot's trimmed input is empty or it is loading, checking, creating a chat or not ready; otherwise it sends the snapshot's input and files, appends the user message and the reply (plus an error message on failure), clears input, files and error, and ends not loading |
| ChatPane.Store.HandleNewChat | frontend/lib/components/ChatPane.tsx:155-168 | success empties `messages` and clears the error; failure keeps `messages` and sets the error text; input and files are untouched; `isCreatingChat` and `isLoading` end false |
| ChatPane.Store.HandleDragOver | frontend/lib/components/ChatPane.tsx:171-175 | only `isDragActive` is set |
| ChatPane.Store.HandleDragLeave | frontend/lib/components/ChatPane.tsx:176-180 | only `isDragActive` is cleared |
| ChatPane.Store.HandleDrop | frontend/lib/components/ChatPane.tsx:181-197 | success sets the files to the snapshot's files followed by the results; failure keeps the live files and sets the error; drag, reading and loading end false |
| ChatPane.Store.RemoveUploadedFile | frontend/lib/components/ChatPane.tsx:262 | the files become the snapshot's files without index `idx` |
| ChatPane.Store.ChangeInput | frontend/lib/components/ChatPane.tsx:360 | only `input` changes |
| ChatPane.Store.ToggleDebugMode | frontend/lib/components/ChatPane.tsx:290 | only `debugMode` changes, to the negation of the snapshot's flag |
| JsText.TrimStartSpec | frontend/lib/components/ChatPane.tsx:126 | `trimStart` removes a prefix made only of white space and leaves no leading white space |
| JsText.TrimEndSpec | frontend/lib/components/ChatPane.tsx:126 | `trimEnd` removes a suffix made only of white space and leaves no trailing white space |
| JsText.TrimEmptyIffBlank | frontend/lib/components/ChatPane.tsx:126 | `input.trim()` is empty exactly when every character is white space |
| Strings.ToLower | frontend/lib/api/preprocess.ts:67 | same length, each character mapped to lower case |
| Preprocess.StripPunctuationSpec | frontend/lib/api/preprocess.ts:29 | exactly the word and white-space characters survive; a text without punctuation is unchanged; a single character is kept exactly when it is a word or white-space character |
| Preprocess.StripPunctuationAppend | frontend/lib/api/preprocess.ts:29 | the pass works character by character: a concatenation is stripped part by part |
| Preprocess.NormaliseSpaceSpec | frontend/lib/api/preprocess.ts:36 | only single spaces remain as white space, none at either end, and the other characters are kept in order |
| Preprocess.CollapseAppend | frontend/lib/api/preprocess.ts:36 | no run of white space crosses the end of a text that ends with another character, so the two parts collapse separately |
| Preprocess.CollapseJoin | frontend/lib/api/preprocess.ts:36 | any non-empty run of white space between two texts becomes exactly one space, and each side collapses on its own |
| Preprocess.NormaliseSpaceJoin | frontend/lib/api/preprocess.ts:36 | two texts without white space at their ends, joined by any run of white space, come out joined by one space |
| Preprocess.NewlinesToSpaces | frontend/lib/api/preprocess.ts:43 | same length; every line feed becomes a space and nothing else changes |
| Preprocess.NewlinesAlreadyGone | frontend/lib/api/preprocess.ts:34-46 | after the white-space pass the newline pass changes nothing |
| Preprocess.StripDigitsSpec | frontend/lib/api/preprocess.ts:50 | exactly the non-digit characters survive; no digit is left; a single character is dropped exactly when it is a digit |
| Preprocess.StripDigitsAppend | frontend/lib/api/preprocess.ts:50 | the pass works character by character: a concatenation is stripped part by part |
| Preprocess.MapText | frontend/lib/api/preprocess.ts:28-31 | a text pass keeps the number of words, their order and their values, and rewrites each text |
| Preprocess.TextPassesSpec | frontend/lib/api/preprocess.ts:27-53 | the four text passes preserve length and values; after `removeNumbers` no text holds `0`-`9` |
| Preprocess.RemoveStopWords | frontend/lib/api/preprocess.ts:22-25 | keeps exactly the words whose lower-case text is not in the fixed stop set |
| Preprocess.RemoveNonAlphabetic | frontend/lib/api/preprocess.ts:55-57 | keeps exactly the words whose text is a non-empty run of ASCII letters |
| Preprocess.RemoveEmptyWords | frontend/lib/api/preprocess.ts:59-61 | keeps exactly the words with a character that is not white space |
| Preprocess.FiltersKeepOrder | frontend/lib/api/preprocess.ts:22-61 | each of the three filters distributes over concatenation, so survivors keep their order |
| Preprocess.KeysSpec | frontend/lib/api/preprocess.ts:64-74 | the map's keys, in insertion order, are the distinct lower-case texts, each once |
| Preprocess.SpellingSpec | frontend/lib/api/preprocess.ts:68-83 | an entry's spelling is the last spelling with an upper-case initial, else the first spelling seen |
| Preprocess.FirstEmpty | frontend/lib/api/preprocess.ts:81 | the index of the first word with an empty text, on which the first-character test throws |
| Preprocess.UpdateEntry | frontend/lib/api/preprocess.ts:76-83 | the loop body's update of an entry: add the value, count the word, take an upper-case-initial spelling |
| Preprocess.AddWord | frontend/lib/api/preprocess.ts:66-83 | one loop turn: a new key is created with an empty entry and queued, then updated; the map and key order are those of one more word |
| Preprocess.TableSpec | frontend/lib/api/preprocess.ts:64-84 | the map holds one entry per lower-case text, with the sum of values, the count and the spelling of that group |
| Preprocess.GroupWords | frontend/lib/api/preprocess.ts:64-84 | the grouping loop throws at the first empty text; otherwise it yields the map and its key order |
| Preprocess.PushRows | frontend/lib/api/preprocess.ts:86-92 | the push loop yields, per key in order, the entry's spelling with total divided by count |
| Preprocess.RowLower | frontend/lib/api/preprocess.ts:86-92 | each pushed word's lower-case text is its key |
| Preprocess.MergedDistinct | frontend/lib/api/preprocess.ts:86-92 | before sorting no two pushed words share a lower-case text |
| Preprocess.MergedMembers | frontend/lib/api/preprocess.ts:86-92 | the pushed words are exactly the rows of the keys |
| Preprocess.SortByValue | frontend/lib/api/preprocess.ts:94 | the sort is a permutation of its input |
| Preprocess.SortByValueSorted | frontend/lib/api/preprocess.ts:94 | the sort yields non-increasing values |
| Preprocess.SortKeepsDistinct | frontend/lib/api/preprocess.ts:94 | sorting keeps lower-case texts distinct |
| Preprocess.MeanBounds | frontend/lib/api/preprocess.ts:88-91 | a merged value, the mean of its group, lies within the group's range of values |
| Preprocess.DedupSpec | frontend/lib/api/preprocess.ts:63-95 | `dedup` throws exactly when some text is empty; otherwise it returns as many words as distinct lower-case texts, no two sharing one, each its group's row, in non-increasing order of value |
| Preprocess.Dedup | frontend/lib/api/preprocess.ts:63-95 | the grouping loop, push loop and sort compute the `dedup` outcome |
| Preprocess.Preprocess | frontend/lib/api/preprocess.ts:3-20 | `dedup` cannot throw after the passes; every output is a non-empty ASCII-letter run, not a stop word, case-insensitively unique, in non-increasing order of value |
| WordCloud.ToInt32 | frontend/lib/components/WordCloud.tsx:24 | the result is in the signed 32-bit range, congruent to the input modulo 2^32, and the input itself when already in range |
| WordCloud.HashStepWhileSmall | frontend/lib/components/WordCloud.tsx:23-25 | a step is `hash * 33 + c` while `hash * 32` fits in 32 bits |
| WordCloud.HashStepWraps | frontend/lib/components/WordCloud.tsx:23-25 | the shift wraps: the hash of `~~~~~` is not the product-and-sum the comment names |
| WordCloud.HashString | frontend/lib/components/WordCloud.tsx:21-27 | the loop computes the absolute value of the wrapped hash; it is never negative and 5381 for the empty string |
| WordCloud.Rotation | frontend/lib/components/WordCloud.tsx:60 | 0 degrees exactly when the hash is even, otherwise 90 |
| WordCloud.ColourKey | frontend/lib/components/WordCloud.tsx:90 | the key is in 0..9 and congruent to the hash modulo 10 |
| WordCloud.Min | frontend/lib/components/WordCloud.tsx:49 | a value of the list no larger than any other |
| WordCloud.Max | frontend/lib/components/WordCloud.tsx:50 | a value of the list no smaller than any other |
| WordCloud.FontDomain | frontend/lib/components/WordCloud.tsx:48-53 | no domain without words; otherwise from the least value to the greatest, or to least + 1 when all are equal, so never degenerate |
| LegacyClient.NewlineAtSpec | inf_llm/static/js/index.js:87 | the first line feed, or -1 exactly when there is none |
| LegacyClient.SplitLines | inf_llm/static/js/index.js:87 | splitting always yields at least one piece |
| LegacyClient.SplitLinesHaveNoNewline | inf_llm/static/js/index.js:87 | no piece of the split contains a line feed |
| LegacyClient.SplitLinesAppend | inf_llm/static/js/index.js:86-88 | after more text arrives, the complete lines stay and the new text continues the unfinished last piece |
| LegacyClient.SplitLinesRebuild | inf_llm/static/js/index.js:87-88 | the kept buffer is the part of the text after its last line feed and holds none; the complete lines, each followed by a line feed, give back the text up to there with every `\r\n` read as `\n` |
| LegacyClient.SplitJoined | inf_llm/static/js/index.js:87-88 | lines without line breaks (and no carriage return at the end), each followed by a line feed and then an unfinished piece, split back into exactly those lines, with that piece as the buffer |
| LegacyClient.DataTextAppend | inf_llm/static/js/index.js:89-94 | the text collected from lines distributes over concatenation of line lists |
| LegacyClient.ReadStep | inf_llm/static/js/index.js:86-94 | re-splitting only the kept buffer plus the new chunk advances the collected text and buffer exactly as splitting everything received |
| LegacyClient.AppendDataLines | inf_llm/static/js/index.js:89-94 | the inner loop appends, in order, the text from offset 6 of each `data: ` line and ignores all other lines |
| LegacyClient.ReadStream | inf_llm/static/js/index.js:82-122 | the read loop's reply is the data text of the complete lines of everything received, and its buffer is what follows the last line feed |
| LegacyClient.UnterminatedTextIgnored | inf_llm/static/js/index.js:82-88 | text without a line feed at the end of the stream never reaches the reply |
| LegacyClient.FramesRoundTrip | inf_llm/static/js/index.js:86-94 | the server's `data: d\n\n` frames read back to exactly the concatenated deltas, leaving an empty buffer, when no delta holds a line break |
| LegacyClient.LineBreakInDelta | inf_llm/static/js/index.js:86-94 | a delta holding one line feed is read as two lines: the client gets the first line, plus the text after a `data: ` prefix when the second line starts with one, and nothing of the second line otherwise |
| LegacyClient.TwoLineFrameSplits | inf_llm/static/js/index.js:87 | the frame of a two-line delta splits into the data line, the second line and two empty pieces |
| LegacyClient.AbortKeepsPartialReply | inf_llm/static/js/index.js:162-168 | an abort keeps the partial reply and appends the stopped note; another error replaces it with `[Network error]`; neither records the turn |
| LegacyClient.Client.constructor | inf_llm/static/js/index.js:9-10 | empty history and no abort controller |
| LegacyClient.Client.Begin | inf_llm/static/js/index.js:57-76 | the prompt and an empty bot bubble are shown, the box cleared, send disabled, stop shown and enabled, and the request carries the history before this turn |
| LegacyClient.Client.ShowReply | inf_llm/static/js/index.js:96-116 | only the last bubble's text changes |
| LegacyClient.Client.AwaitReply | inf_llm/static/js/index.js:68-168 | the bot bubble shows the reply (stream, fallback, `[No response]`, stopped note or network error); history grows by the user and bot turns exactly when nothing was thrown; the prompt box, buttons, controller and abort flag are left as they are |
| LegacyClient.Client.AwaitStream | inf_llm/static/js/index.js:77-122 | for a stream, the bot bubble shows the text of the `data: ` lines read, with the stopped note after it on abort, or the network error on any other failure; the turn is recorded only when the stream ends normally; nothing else changes |
| LegacyClient.Client.AwaitFallback | inf_llm/static/js/index.js:123-161 | for the non-streaming request, the bubble shows the JSON's `response`, or `[No response]` when it is missing or empty, or the network error when the request or its JSON fails; the turn is recorded whenever the JSON was read; nothing else changes |
| LegacyClient.Client.Submit | inf_llm/static/js/index.js:55-174 | an empty trimmed prompt changes nothing; otherwise it sends the trimmed prompt with the prior history, shows both bubbles, records the turn only on success, and restores the send and stop buttons and clears the controller and its abort flag on every path |
| LegacyClient.Client.Stop | inf_llm/static/js/index.js:176-181 | aborts and disables stop only when a controller exists |
| Serve.Status | inf_llm/serve.py:55-57 | a 200 JSON reply carrying `ready` |
| Serve.ChatModelFourNames | inf_llm/serve.py:76-78 | the chat-model test holds exactly when the lower-cased name contains one of the substrings; `llama-3-inst` adds nothing to `llama-3` |
| Serve.MappedHistoryShape | inf_llm/serve.py:80-85 | at most one message per history entry, each `user` or `assistant` |
| Serve.BuildMessages | inf_llm/serve.py:80-86 | user turns stay `user`, bot turns become `assistant`, others are dropped, order is kept, and the prompt is appended as the last user message |
| Serve.BuildTranscript | inf_llm/serve.py:99-105 | a `User:`/`Model:` line per user/bot turn in order, then `User: {prompt}\nModel:` |
| Serve.TranscriptMatchesMessages | inf_llm/serve.py:80-105 | the plain transcript is the mapped chat messages written out line by line |
| Serve.FramesSpec | inf_llm/serve.py:129 | one `data: d\n\n` frame per delta, in order |
| Serve.StreamFrames | inf_llm/serve.py:122-130 | the loop frames each non-empty suffix delta |
| Serve.TokenStream | inf_llm/serve.py:122-133 | the delta frames, then one `[Error: …]` frame when the generator raises |
| Serve.FinalOutput | inf_llm/serve.py:149-152 | the non-streaming loop keeps the newest text |
| Serve.ChatApi | inf_llm/serve.py:66-155 | 503 before reading the body when not ready; 400 for a missing or empty prompt; the chat prompt or the plain transcript; a frame stream, or for `stream=false` the last text or a 500 error; the plain path fails on the unbound stop-token list |
| Serve.FrameShape | inf_llm/serve.py:129 | every frame starts with `data: ` and is eight characters longer than its delta |
| Serve.StreamCarriesFinalText | inf_llm/serve.py:122-130 | for prefix-extending texts the frames are well formed and their deltas concatenate to the final text |
| DeltaStream.Suffix | backend/routers/model/chat_utils.py:51-52 | `text[len(last):]`: the text after a prefix of the previous text's length, empty when the text is no longer |
| DeltaStream.Deltas | backend/routers/model/chat_utils.py:48-54 | at most one delta per text, none of them empty |
| DeltaStream.DeltasConcat | backend/routers/model/chat_utils.py:48-54 | for prefix-extending texts the deltas concatenate to the final text |
| DeltaStream.StreamDeltas | backend/endpoints/chat.py:68-75 | the loop yields exactly the non-empty suffixes, and `last_text` ends as the newest text |
| BackendChat.Conversation.constructor | backend/routers/model/chat_utils.py:9 | a new conversation has the template's roles and messages |
| BackendChat.Conversation.AppendMessage | backend/routers/model/chat_utils.py:21-22 | appends exactly one message |
| BackendChat.Conversation.UpdateLastMessage | backend/routers/model/chat_utils.py:56 | sets the content of the last message only |
| BackendChat.Converse | backend/routers/model/chat_utils.py:21-59 | the user message and an empty assistant placeholder are appended before the prompt is built; the deltas are yielded; completion stores the stripped final text, and failure yields one error item and skips the update |
| BackendChat.ChatStream | backend/routers/model/chat_utils.py:11-59 | without model or tokenizer it yields only the not-loaded message and changes nothing; the conversation is created from the template only when absent and reused otherwise |
| BackendChat.ChatEndpoint.ChatStream | backend/endpoints/chat.py:31-80 | the same generator over the module-level conversation |
| BackendChat.CompletedExchange | backend/routers/model/chat_utils.py:48-56 | a completed, prefix-extending generation yields non-empty pieces that concatenate to the reply, which is stored stripped |
| BackendChat.FailedExchange | backend/endpoints/chat.py:77-80 | a failed generation ends with exactly one `[Error: …]` item after the pieces so far, and the placeholder stays empty |
| PyText.StripSpec | backend/routers/model/chat_utils.py:56 | `strip()` keeps a contiguous middle part and removes only white space, leaving none at either end |
| PyText.Split | inf_llm/attention/context_manager_listener.py:115 | `split()` yields non-empty words without white space |
| PyText.SplitGaps | inf_llm/attention/context_manager_listener.py:115 | the text is its words with runs of white space around them (`g0 + w0 + g1 + ... + gn`); the runs between two words are not empty |
| PyText.SplitInterleave | inf_llm/attention/context_manager_listener.py:115 | conversely, words separated by non-empty runs of white space, with any runs at the ends, split back into exactly those words |
| PyText.NatToStringRoundTrip | inf_llm/attention/context_manager_listener.py:40 | the decimal digits of `str(n)` read back as `n` |
| PyText.Format02d | inf_llm/attention/context_manager_listener.py:40 | `02d` is `str(n)` filled with zeros to a width of two: `str(n)` itself for negatives and for 10 and above, `0` before the digit for 0..9; always at least two characters, two digits for 0..99 |
| PyText.RightAlign | inf_llm/attention/context_manager_listener.py:40 | `>5` pads with spaces on the left to the width, keeping the text at the end |
| PyText.Slice | inf_llm/attention/context_manager_listener.py:105 | a Python slice is never longer than the list and is the plain subsequence for in-range bounds |
| CacheListener.Show02d | inf_llm/attention/context_manager_listener.py:40 | `02d` succeeds exactly on integers, giving `Format02d` of the integer; on a string it raises `ValueError` with Python's unknown-format-code message |
| CacheListener.BlockSlice | inf_llm/attention/context_manager_listener.py:51-52 | for integer or string bounds: the token slice exists exactly when both bounds are given as integers; a missing bound means no slice; a string bound raises `TypeError` with Python's slice-index message |
| CacheListener.UnknownEventWritesNothing | inf_llm/attention/context_manager_listener.py:48-49 | any other event writes nothing and raises `ValueError` |
| CacheListener.BlockEventLayout | inf_llm/attention/context_manager_listener.py:39-44 | `add`, `load` and `evict` write one line with the zero-padded unit, the right-aligned event and the block id, then the contents line exactly when both bounds are given as integers; a non-integer bound raises `TypeError` after the event line |
| CacheListener.TopkLines | inf_llm/attention/context_manager_listener.py:45-47 | `topk` writes its header and then `  ret=…`; without `ret` the header is written before the `KeyError` |
| CacheListener.ContentsOnlyWithBothBounds | inf_llm/attention/context_manager_listener.py:51-52 | a `block_contents` line appears only when both bounds are present |
| CacheListener.FileListener.Listen | inf_llm/attention/context_manager_listener.py:37-52 | the event's lines are appended to the file, or nothing when its directory is missing |
| CacheListener.StopWords | inf_llm/attention/context_manager_listener.py:76-82 | the stop set holds the corpus and the extra words |
| CacheListener.CleanSpec | inf_llm/attention/context_manager_listener.py:113 | the cleanup keeps length, lower-cases letters and digits, keeps white space, and turns every other character into a space |
| CacheListener.KeptSpec | inf_llm/attention/context_manager_listener.py:119-120 | the kept words are exactly the words that are neither stop words nor all digits |
| CacheListener.FreqOfSpec | inf_llm/attention/context_manager_listener.py:119-121 | the keys are exactly the kept words and each value is its number of occurrences |
| CacheListener.FreqOfTotal | inf_llm/attention/context_manager_listener.py:119-121 | the counts add up to the number of kept words |
| CacheListener.WordFreq | inf_llm/attention/context_manager_listener.py:116-121 | the counting loop builds the frequency map of the kept words |
| CacheListener.CloudWords | inf_llm/attention/context_manager_listener.py:112-121 | every counted word is a non-empty run of lower-case letters and digits, not all digits and not a stop word; counts add up to the kept words |
| CacheListener.JoinPath | inf_llm/attention/context_manager_listener.py:137 | the path starts with the directory and ends with the file name, with one `/` between them unless the directory is empty or already ends with one |
| CacheListener.WordCloudListen | inf_llm/attention/context_manager_listener.py:92-139 | only `add` is handled; a missing or string `unit_id` raises `ValueError` in the `02d` format, except that a non-integer slice bound raises `TypeError` first; a missing `block_id` or empty contents prints "no contents"; fewer than five distinct words prints "insufficient content"; otherwise the cloud of exactly these frequencies is saved at `u{unit:02d}_block_{block}.png` and the status line names that path |
| ContextUtils.Position | backend/routers/context/context_utils.py:6 | a Python index names a position exactly when it is in `-n..n-1`, and which one |
| ContextUtils.ExtractCtxManager | backend/routers/context/context_utils.py:3-11 | range check first (only from above), then a missing `self_attn`, then a missing `_past_key_value`, each raising `ValueError` with its own message; success returns that layer's cache manager; indices below `-n` raise `IndexError` |
| ContextUtils.NegativeIndexLikePositive | backend/routers/context/context_utils.py:4-10 | a negative index reaches the same layer as its non-negative counterpart |

## Left out

- The network, `fetch`, `TextDecoder` and the multi-byte decoding of chunks are outside the model. Chunks arrive as already decoded strings.
- The helpers `pollModelReady`, `readTextFiles`, `formatInputWithFiles`, `simulateModelReply` and `createNewChat` are imported by ChatPane.tsx but are not part of this model. Only their outcomes are modelled, as parameters: the callback fired, the files read or the rejection, the simulated reply, and the new-chat success.
- `streamChatResponse` (frontend/lib/api/chat.ts) is not part of this model. It never checks the response status. The pane sees only the tokens it delivers and whether it rejected.
- Timers and concurrency are not modelled:
  - the poll effect's lifecycle and clean-up;
  - the `checkReady` retry timer of the browser client;
  - the server's `MODEL_LOCK`;
  - the interleaving of React renders.
  Each handler runs to completion on its own. Its snapshot is whatever state the creating render saw.
- Aborting is modelled only as an outcome of the request (`Aborted`, `RequestFailed(true)`), not as a signal racing the read loop.
- The language model, its tokenizer and the conversation template are foreign calls: `generate_stream`, `apply_chat_template`, `encode`/`decode`, `get_prompt`, `get_context_length` and the nltk stop-word corpus. They appear as parameters:
  - the sequence of cumulative texts and a possible error;
  - a decoder function;
  - a template of role names and initial messages;
  - a corpus set.
- serve.py's stop-token collection is left out, because it reads the tokenizer's vocabulary, which this model does not have. Because the list is bound only on the chat-model path, the plain path is modelled as the failure it is: a broken stream, or an internal error for `stream=false`. It is not repaired.
- `clear_kv_cache`, sampling parameters and `context_len` are passed to the generator unchanged and have no observable effect in this model.
- Markdown rendering, DOM building, scrolling and focus are not modelled. The bubble holds the text that would be rendered.
- Word-cloud layout, image generation, file writes and `perf_counter` are not modelled. The timestamp is a pre-formatted string parameter, and the saved cloud is its frequency map and path.
- Floating point is replaced by `real`:
  - `dedup`'s mean is exact division, not double rounding;
  - font-size scaling beyond the domain is not modelled.
- WordCloud.HashString: JavaScript numbers are doubles. Beyond 2^53 the source's sum loses precision, while the model's integer does not.
- Strings.ToLower: case mapping (JavaScript `toLowerCase`/`toUpperCase`, Python `lower`, `isalnum`, `isspace`) covers the ASCII letters, plus the white-space characters the two languages name. Other Unicode letters and digits are treated as caseless symbols.
- CacheListener.Value: keyword values are modelled only as Python `int` and `str`. `None` bounds (an open slice end, so `ids[None:5]` is `ids[:5]`), `bool`, `float`, a list `ret` and objects with `__index__` are outside the model. BlockSlice, BlockEventLayout and WordCloudListen therefore promise their slice and `TypeError` outcomes only for integer or string values.
- CacheListener.CleanSpec: Python's `isalnum` also accepts non-ASCII letters and digits, which the source lower-cases and keeps. Here they count as symbols and become spaces.
- JavaScript strings are sequences of UTF-16 code units, while Dafny strings hold Unicode scalar values. `charCodeAt` and `text[0]` differ for characters outside the Basic Multilingual Plane.
- Preprocess.SortByValue is `Array.prototype.sort` with the comparator `b.value - a.value`. It is modelled as a stable insertion sort function, because the sort is a library call, not a loop of the source. Its in-place update of the array is not modelled.
- Preprocess.GroupWords keeps the `Map` as a map value, not a mutable object. The throw on an empty text is checked at the top of the loop body, rather than after that word's entry is created. The map is discarded when it throws, so nothing observable differs.
- JSON values other than strings in history entries, and entries that are not objects, are not modelled. A history turn has an optional role and an optional content string.
- The back end's request record carries sampling settings. Only its `message` field is modelled.
- `file_listener` truncates its file when the listener is made. A missing directory is modelled as a flag, and then every event fails to open the file.
