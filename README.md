# Venice AI web interface: conversation bookkeeping and prompt construction

This project models the part of the Venice AI web front-end that has its own logic
(`app.py`). It covers:

- the Mistral-style prompt formatter;
- the process-wide conversation history that the chat, clear and history endpoints
  update and read;
- the `model_loaded` guard of the chat endpoint;
- the server-sent-event framing of the reply stream.

The language model, the tokenizer and the web framework are not modelled. They are
replaced by inputs: the fragments the streamer hands over, and whether the stream
was drained to its end.

Modules:

- `Text` (text.dfy): `Join`, the end-to-end concatenation that the `+=` accumulators of
  `format_chat` and `generate` compute.
- `Prompt` (prompt.dfy): messages, the per-role rendering, the specification
  `Formatted` and the loop method `FormatChat` proved equal to it.
- `Stream` (stream.dfy): the reply stream. A `Production` is the list of fragments
  plus a flag that says whether the streamer was drained. `Events` is the event
  stream and `AssistantTurn` is what the history gains.
- `Conversation` (conversation.dfy): the request-level model. `State` is the loaded
  flag plus the history, `Next` and `Answer` give one request's effect and reply, and
  `Run` handles a sequence of requests. The history lemmas are stated here.
- `Server` (server.dfy): the class `ChatServer`. Its fields `modelLoaded` and
  `conversationHistory` are updated in place by the handlers `ChatBegin`,
  `ChatFinish`, `ClearMemory`, `GetHistory` and `Status`. `Chat` and `Handle` are
  proved to agree with `Next` and `Answer`.

Two consequences of the code's order of steps are worth stating:

- The history is not capped at 6 entries, although the comment at app.py:118 speaks
  of keeping the "last 3 exchanges (6 messages)". Truncation to the last 6 runs right
  after the user turn is appended (app.py:119-121). The assistant turn is appended
  later (app.py:179). So a completed chat can leave 7 entries. The real bound is
  proved in `HistoryBound`, and `FourChatsKeepSeven` shows 7 is reached: after four
  exchanges the history keeps 7 of the 8 messages, and it opens with an assistant
  reply whose question was evicted.
- The `[DONE]` event and the assistant append are both inside the `try` body
  (app.py:173-179). The `finally` block (app.py:181-184) only frees memory. So when
  the streamer faults, the model sends no `[DONE]` event and appends no assistant
  turn.

Replies are values of the `Reply` datatype. The `tokenizerInput` field of a chat
reply records the prompt handed to the tokenizer (app.py:128-134). It is not part of
the HTTP response, which carries only the events (app.py:186).

## Model

| member | source | states |
|---|---|---|
| Prompt.RenderFrames | app.py:85-91 | A system message renders as `[SYSTEM_PROMPT]`+content+`[/SYSTEM_PROMPT]`, a user message as `[INST]`+content+`[/INST]`, an assistant message as content+`</s>`; the content is recovered by stripping the role's delimiters; any other role renders as the empty string |
| Prompt.RenderInjective | app.py:86-91 | Two messages of the same known role render alike only if their contents are equal |
| Prompt.FormattedSnoc | app.py:84-92 | One more message appends exactly that message's rendering to the prompt |
| Prompt.FormattedAppend | app.py:84-92 | The prompt of a concatenation is the concatenation of the prompts: order is kept, nothing is inserted between messages or after the last |
| Prompt.FormattedCons | app.py:84-92 | The empty list formats to `""`; a list formats to its first message's rendering followed by the rest's prompt |
| Prompt.FormattedIgnoresUnknownRoles | app.py:85-91 | Dropping every message whose role is not system, user or assistant leaves the prompt unchanged |
| Prompt.FormatChat | app.py:82-92 | The accumulator loop returns exactly the specified prompt `Formatted(messages)` |
| Prompt.PromptStartsWithSystem | app.py:123-128 | The prompt for a history is the delimited system prompt followed by the history's own rendering |
| Prompt.PromptEndsWithUserTurn | app.py:124-128 | When the history ends with a user turn, the prompt is the system block, the earlier entries' rendering, then `[INST]`+text+`[/INST]` with nothing after it |
| Text.JoinAppend | app.py:169-170 | Accumulating fragments with `+=` distributes over splitting the fragment list |
| Stream.PayloadOfFrame | app.py:171-173 | The data line of a framed event is its payload; the terminating event is the frame of `[DONE]` |
| Stream.FrameIsDoneOnlyForDone | app.py:171-173 | A token event equals the terminating event only if its payload is `[DONE]` |
| Stream.EventsShape | app.py:168-173 | One event per fragment in arrival order; the terminating event occurs only for a drained stream, exactly once and last |
| Stream.ReceivedTokens | app.py:169-171 | Decoding the token events gives back the concatenation of the fragments |
| Stream.ClientSeesAssistantTurn | app.py:168-179 | What the client reassembles equals the concatenated fragments; a drained stream appends exactly that text as one assistant turn; a faulted stream appends nothing |
| Conversation.MessageOf | app.py:112-113 | The user text is the body's `message` field, or `""` when it is missing |
| Conversation.AfterUserTurn | app.py:115-121 | After the user append and truncation the history is the last min(6, old length + 1) entries of old + [user turn], and it ends with the new user turn |
| Conversation.ChatEffect | app.py:109-179 | Without a loaded model a chat answers 503 and changes nothing, and only then is it refused; with a model the history grows to min(old length + 1, 6) plus one for a drained stream, and it ends the old history followed by the new turns |
| Conversation.ChatPrompt | app.py:115-128 | The prompt is the system block, then the rendering of the kept earlier entries, then `[INST]`+user text+`[/INST]` |
| Conversation.ClearIdempotent | app.py:188-201 | Clearing empties the history whatever it held; clearing twice equals clearing once; the history read afterwards is `[]` |
| Conversation.HistoryReadChangesNothing | app.py:197-201 | The history endpoint returns the current history and changes no state |
| Conversation.StatusReadChangesNothing | app.py:99-102 | The status endpoint reports the loaded flag and changes no state |
| Conversation.FirstChat | app.py:113-179 | On an empty history a completed chat leaves exactly the user turn and the whole reply, and its stream ends with `[DONE]` |
| Conversation.RunKeepsLoaded | app.py:109-201 | No request handler changes the loaded flag |
| Conversation.UnloadedKeepsHistory | app.py:109-110 | While the model is not loaded, no sequence of requests other than clears changes the state |
| Conversation.HistoryBound | app.py:116-179 | Starting from at most 7 entries, every sequence of requests leaves at most 7 entries: 6 kept by truncation plus the assistant turn appended after it |
| Conversation.HistoryKeepsNewest | app.py:116-121 | At all times the history ends the log of every message added since the last clear, and it holds at least the newest min(6, log length) of them |
| Conversation.FourChatsKeepSeven | app.py:118-121 | Four completed chats from empty history leave 7 entries that begin with the first answer, so the 6-entry cap does not hold after a chat |
| Server.ChatServer.constructor | app.py:15-16 | A new process has no model loaded and an empty history |
| Server.ChatServer.LoadFinished | app.py:79 | Finishing the load sets the loaded flag and leaves the history alone |
| Server.ChatServer.Status | app.py:99-102 | Reports the loaded flag |
| Server.ChatServer.GetHistory | app.py:197-201 | Returns the current history without changing anything |
| Server.ChatServer.ClearMemory | app.py:188-195 | Sets the history to `[]`, keeps the loaded flag and replies with the cleared status |
| Server.ChatServer.ChatBegin | app.py:104-128 | Not loaded: 503 and the history untouched; loaded: the history becomes `AfterUserTurn` of the old one, and the prompt is the system message followed by that history, formatted |
| Server.ChatServer.ChatFinish | app.py:143-184 | The events are `Events(p)`: one frame per fragment, then `[DONE]` only if drained; the history gains the assistant turn holding all fragments concatenated only if drained |
| Server.ChatServer.Chat | app.py:104-186 | A chat request changes the state as `Next` says and replies as `Answer` says |
| Server.ChatServer.Handle | app.py:99-201 | Every request changes the state as `Next` says and replies as `Answer` says |

## Left out

- `load_model` (app.py:20-80): tokenizer and model loading and the quantization settings are calls into the ML runtime. Only its last effect, the loaded flag, is modelled (`LoadFinished`).
- Tokenization (app.py:134-141): the 2048-token truncation happens inside the tokenizer. The model stops at the prompt string handed to it.
- Generation (app.py:149-166, 176): the background thread, the sampling settings and `TextIteratorStreamer` are foreign code. They are replaced by a `Production`, the fragments received plus whether the streamer was drained. `thread.join()` is a no-op here.
- `json.dumps({'token': f})` is a function parameter `tokenJson`. Lemmas that need it assume only that it never yields `[DONE]` and, for decoding, that a client-side `decode` inverts it.
- `torch.cuda.empty_cache()` and `gc.collect()` (app.py:131, 183-184, 193-194): memory side effects with no state in the model.
- Flask routing, `jsonify`, `render_template`, CORS, `stream_with_context` and the HTTP status of successful replies: framework I/O.
- Request bodies are maps from strings to strings. Bodies that are not JSON objects, and `message` values that are not strings (null, numbers), are not modelled.
- Concurrency: requests are handled strictly one after another. Races on the unsynchronised history are not modelled.
- Server.ChatServer.ChatFinish: a client that disconnects abandons the generator at whichever event is being sent. Only two endings are modelled: a streamer fault after the fragments received, and a full drain. A disconnect right after `[DONE]`, which skips the append, is not modelled.
- start.py (dependency probing, GPU checks with interactive input, launcher I/O) is not part of this model.
