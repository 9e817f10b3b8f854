# Personal GPT Playground — a Dafny model of its chat logic

The system is a small browser chat front-end over a hosted chat-completion API.
This project models the logic it runs around that API call:

- the submission pre-check, which rejects an empty input and otherwise appends a pending
  turn `[user_input, None]` to the chat window's history (`fn_prehandle_user_input`);
- the request payload built from the history: the bare input while the history has at most
  one turn, otherwise one role-tagged message per present field of every turn (`fn_predict`);
- the dispatch of `MyGPT.get_response` on the type of its `messages` argument, and its choice
  between returning the stream itself or the first choice's content;
- the rendering of the reply into the last turn: streamed fragments appended in arrival order
  with the transcript shown after each, or a complete reply written once (`fn_predict`);
- the max-tokens adjustment when the model changes (`fn_update_max_tokens`).

Layout:

- `wrappers.dfy` — module `Wrappers`: `Option` and a map lookup in the manner of `dict.get`.
- `config.dfy` — module `Config`: the model list, the default model and the token-ceiling table.
- `mygpt.dfy` — module `MyGpt`: messages, requests, the client as an injected value and `GetResponse`.
- `app.dfy` — module `App`: turns, the `Transcript` class (the history list updated in place),
  the handlers and the lemmas about them.

The client is an opaque parameter: a `Client` holds one function for streamed responses (the
sequence of `choices[0].delta.content` values of the chunks) and one for complete responses
(`choices[0].message.content`). A Python generator is modelled as a method that returns the
sequence of values it yields; each yielded value is the whole transcript at that moment.

## Model

| member | source | states |
|---|---|---|
| `Config.TableCoversModels` | config.py:14-24 | every offered model has a token ceiling, every ceiling is at least 4096, and the default model is the first offered one |
| `MyGpt.Create` | MyGPT.py:40-46 | the client returns a chunk stream exactly when the request asks for streaming |
| `MyGpt.GetResponse` | MyGPT.py:35-55 | a string or list argument with streaming gives back a chunk stream; without streaming the reply is always text |
| `MyGpt.TextIsWrapped` | MyGPT.py:35-36 | a string argument is sent as exactly one user message holding that string, with the given settings |
| `MyGpt.ListIsForwarded` | MyGPT.py:40-46 | a list argument is sent unchanged, together with the given model, max_tokens, temperature and stream values |
| `MyGpt.OtherValueNeverCallsClient` | MyGPT.py:37-38 | any other argument sends no request, yields the fixed error text, and gives the same reply whichever client is used |
| `MyGpt.ReplySelection` | MyGPT.py:48-55 | with streaming the client's stream is returned untouched; without it the first choice's content is returned |
| `App.Transcript.constructor` | app.py:110 | a session's chat window starts with no turns |
| `App.PrehandleUserInput` | app.py:8-20 | an empty input warns and leaves the history unchanged; any other input appends exactly one pending turn at the end and keeps all earlier turns |
| `App.BuildMessages` | app.py:43-51 | the loop builds exactly the payload: the bare input for at most one turn, the history messages otherwise |
| `App.HistoryMessagesLength` | app.py:45-51 | the history payload has one message per present field across all turns |
| `App.HistoryMessagesAppend` | app.py:47-51 | the payload of two transcripts end to end is the first's messages followed by the second's, so transcript order is kept |
| `App.HistoryMessagesAt` | app.py:47-51 | turn i's user message sits right after all messages of earlier turns, its assistant message right after the user one, and later turns' messages after both |
| `App.ShortHistoryIgnored` | app.py:44-45 | with at most one turn the payload is the bare input and does not depend on what the history holds |
| `App.FirstTurnSendsOneUserMessage` | app.py:44-45 | on the first turn the client is sent exactly one user message holding the input |
| `App.LongHistorySent` | app.py:45-51 | with more than one turn a request is always sent, carrying the history messages, one per present field |
| `App.WithReply` | app.py:60 | writing the last turn's reply keeps the number of turns, every earlier turn and the last turn's user text |
| `App.WithReplyTwice` | app.py:68 | the last reply written wins, so overwriting the reply twice with the same text equals doing it once |
| `App.StreamSnapshots` | app.py:61-65 | there is one snapshot per fragment that carries text |
| `App.StreamSnapshotAt` | app.py:61-65 | snapshot k shows the reply made of the first k+1 text fragments, in arrival order |
| `App.StreamSnapshotsGrow` | app.py:61-65 | each snapshot's reply is a prefix of the next one's |
| `App.StreamSnapshotsKeepEarlierTurns` | app.py:60-65 | every snapshot keeps the earlier turns and the last turn's user text as they were |
| `App.StreamSnapshotsLast` | app.py:60-65 | the last snapshot shows the concatenation of all text fragments |
| `App.RenderStream` | app.py:58-65 | the final reply is the concatenation of the text fragments in arrival order, no other turn changes, and the snapshots are exactly `StreamSnapshots` |
| `App.RenderFull` | app.py:66-70 | the reply is overwritten with the response and exactly one snapshot, the new transcript, is shown |
| `App.Predict` | app.py:23-70 | an empty input shows nothing and changes nothing; otherwise the reply of `get_response` for the payload is streamed or written into the last turn |
| `App.UpdateMaxTokens` | app.py:73-89 | the ceiling is the table's for a known model and the old value otherwise; the value is kept exactly when within the ceiling and reset to 1000 otherwise, so it never exceeds the ceiling |
| `App.UpdateMaxTokensIdempotent` | app.py:85-89 | selecting the same model again leaves ceiling and value as they are |
| `App.UpdateMaxTokensExamples` | app.py:85-89 | gpt-4-turbo with 5000 gives (4096, 1000), with 500 gives (4096, 500); gpt-4 with 5000 keeps it; an unknown model keeps its value |

## Left out

- The Gradio layout, the event wiring between widgets, the Slider object itself, the clear button and the server launch (app.py:91-203): UI plumbing. `UpdateMaxTokens` returns only the slider's maximum and value.
- Logging, `print` and the `gr.Warning` pop-up (the pop-up is modelled as `PrehandleUserInput`'s `warned` result): output only.
- Loading the API key and the environment (config.py:1-8, MyGPT.py:3-6): I/O.
- The OpenAI client and its network call: modelled as the opaque `Client` value. Its failures (network, authentication, quota, a chunk or completion without choices) are not modelled; the source does not handle them either.
- Temperature is carried as a `real` and never inspected.
- Overlapping submissions through the Gradio queue: a concurrency concern outside the model.
- The `__main__` smoke test of MyGPT.py, which makes a live API call.
- `user_input` is modelled as a string, so "falsy" means the empty string; a `None` input is not modelled. The slider value is modelled as an integer.
- Python would iterate the same list object that it yields; the model records a copy of the transcript at each yield, which is what the chat window renders.
- `Predict` requires a non-empty history when the input is non-empty: with an empty history the source raises `IndexError` at `chat_history[-1]` after the request; the pre-check always appends a turn first.
- A list argument to `get_response` is modelled as a list of well-formed messages; lists of other values are not modelled.
