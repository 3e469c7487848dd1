# Chat token budget, cancellable fragment streams and entity mapping

A Dafny model of the inference core of an HTTP text-generation and
named-entity-recognition service.

- `chat_model.dfy` (module `Chat`): the `ChatModel` class. It holds a token
  budget. Construction checks it, `set_static_prompt` re-derives it, and
  `query` uses it to accept or reject a conversation. An accepted query
  becomes the decoded fragments of the generator's results. The result the
  generator marks as last is dropped.
- `chat_stub.dfy` (module `Stub`): the stub chat agent, the executable form
  of the cancellable `query(messages, cancel_event)` contract. It polls the
  cancel flag once before each message.
- `cancellation.dfy` (module `Cancellation`): the cancel flag. It is a shared
  event, seen only by polling `is_set()`. The model therefore takes the flag as
  `observed: nat -> bool`, where `observed(k)` is the result of the k-th poll.
  `UpToCancel` is what a stream that polls before each item lets through.
- `ner_model.dfy` (module `Ner`): `convert_indices_to_entity_map` and the
  batch zip of `extract`. Both are strict zips with a filter that drops
  special tokens.
- `chat_api.dfy` (module `ChatApi`): how `/chat`, `/chat/stream` and
  `/chat/benchmark` turn a query outcome into a response. An outcome is
  `None` or the list of fragments a returned stream yields. It also holds
  end-to-end lemmas that join the routes to the chat model and the stub.
- `filters.dfy` (module `Filters`): `Kept`, the increasing list of positions
  a filter keeps. It is the reference that the generator's fragments and the
  extracted entities are proved against.
- `typedefs.dfy`, `wrappers.dfy`: messages, tokens, `Option` and `Result`.

Third-party engines are carried as total functions on values: the tokeniser
(`Tokeniser.encodeMessages`, `Tokeniser.decode`) and the ctranslate2 generator
(`Generator.generateTokens`). Nothing is assumed about them. The three limits
are `const` fields, so they provably never change after construction.
`Valid()` states the budget invariant `maxQueryLength >= minQueryLength`. It
also states the identity
`maxQueryLength == maxContextLength - maxGenerationLength - |staticPrompt|`,
which holds after construction and after every `SetStaticPrompt`.

The concrete `ChatModel.query` (server/features/chat/model.py:121) departs
from the protocol's cancellable signature: it takes no cancel event and never
polls one. Two further facts of the code, which `Chat.ChatModel.Query` follows:

- `generate` drops the result marked `is_last` and keeps iterating; it does
  not stop there (model.py:162-166).
- `query` accepts an empty message list; only the encoded length is checked.

The routes call `query(messages, event)` with two arguments
(server/api/v1/chat.py:37, 51, 66), and the protocol declares that signature
(server/features/chat/protocol.py:27). The concrete `ChatModel.query` accepts
one argument. So with the real chat model, every route call raises TypeError,
and the application's exception handler answers 500
(`ChatApi.RoutesWithChatModelAsWritten`; see Findings). The end-to-end lemmas
about the chat model therefore compose the routes with
`Chat.ChatModel.QueryCancellable`. It is the two-argument query that the
protocol and the routes expect: the concrete budget decision, plus a flag polled
before each fragment, as the stub does. The polling itself lives in
`cancellation.dfy` (module `Cancellation`), which the stub and the corrected
query share.

## Model

| member | source | states |
|---|---|---|
| `Chat.ChatModel.Create` | server/features/chat/model.py:44-62 | fails with `QueryLengthError` exactly when context minus generation reserve is below the minimum query length; otherwise stores every limit as given, with an empty static prompt and budget `max_context_length - max_generation_length`, and `Valid()` holds |
| `Chat.ChatModel.constructor` | server/features/chat/model.py:52-62 | on limits that pass the check at line 54, the new model is `Valid()`, with the limits stored, an empty static prompt and the full budget |
| `Chat.ChatModel.Length` | server/features/chat/model.py:64-65 | the static prompt's token count; for a valid model it is exactly what the context holds besides the query budget and the generation reserve |
| `Chat.ChatModel.SetStaticPrompt` | server/features/chat/model.py:84-119 | encodes the user-then-assistant exemplar pair; returns true exactly when that encoding plus the minimum query and the generation reserve fits the context, and then commits the encoding and the budget `ctx - gen - len(encoded)`; otherwise the static prompt and the budget are unchanged; `Valid()` is kept either way |
| `Chat.ChatModel.Query` | server/features/chat/model.py:121-140 | a total decision: None exactly when the encoded length exceeds the budget (a length equal to the budget is accepted), otherwise the fragments `generate` yields for the encoded tokens |
| `Chat.ChatModel.Generate` | server/features/chat/model.py:142-166 | as many fragments as engine results not marked `is_last`; the k-th fragment is the decoding of the k-th such result, so engine order is kept and the marked result is dropped |
| `Chat.FragmentsFollowEngine` | server/features/chat/model.py:162-166 | the filtering generator expression yields one decoded fragment per result whose `is_last` is false and nothing for the others: the kept positions increase, include every unmarked result and only those, and fragment k decodes the k-th of them |
| `Chat.ChatModel.QueryCancellable` | server/features/chat/model.py:121-140 | corrected two-argument query (see Findings): None exactly when the encoded length exceeds the budget; otherwise a prefix of `generate`'s fragments that stops at the first poll that sees the flag set |
| `Chat.ChatModel.QueryCancellableUncancelled` | server/features/chat/model.py:121-140 | while no poll sees the flag set, the corrected query answers exactly as the concrete one-argument `query` |
| `Chat.ChatModel.AcceptedQueryFitsContext` | server/features/chat/model.py:135-140 | for a valid model, an accepted query, the static prompt and the generation reserve together fit in the context |
| `Chat.GetChatModel` | server/features/chat/model.py:169-193 | the shipped limits (64, 131072, 1024) pass the construction check, giving a valid model with an empty static prompt and budget 130048 |
| `Cancellation.CancelPoint` | server/features/chat/stub.py:27-29 | the number of polls that see the flag clear before the first one that sees it set (at most the number of items) |
| `Cancellation.UpToCancel` | server/features/chat/stub.py:27-31 | a stream that polls the flag before each item yields a prefix of its items; every yielded item was preceded by a poll that saw the flag clear, and a stream cut short ended at a poll that saw it set |
| `Stub.StubFragments` | server/features/chat/stub.py:26-31 | at most one fragment per message; the k-th is the k-th message's content and was preceded by a poll that saw the flag clear; a stream shorter than the messages ended because a poll saw the flag set |
| `Stub.ChatModelStub.Query` | server/features/chat/stub.py:26-31 | never None (a generator function); yields exactly the contents the polling loop lets through, per `StubFragments` |
| `Stub.ChatModelStub.Enter` | server/features/chat/stub.py:20-21 | `__enter__` returns the same object |
| `Stub.ChatModelStub.Exit` | server/features/chat/stub.py:23-24 | `__exit__` changes nothing |
| `Stub.NeverCancelledYieldsEveryContent` | server/features/chat/stub.py:27-31 | when no poll sees the flag set, every message's content is yielded, in message order |
| `Stub.CancelledBeforeFirstPullYieldsNothing` | server/features/chat/stub.py:28-29 | a flag set before the first pull gives an empty stream |
| `Stub.NoFragmentAfterCancel` | server/features/chat/stub.py:28-29 | once the k-th poll sees the flag set, at most k fragments were produced |
| `Stub.StubFragmentsArePrefix` | server/features/chat/stub.py:27-31 | the output is a prefix of the message contents, no longer than the messages |
| `Ner.ConvertSucceedsIff` | server/features/ner/model.py:73-82 | a row maps without error exactly when the label-index, mask and offset sequences have one length (strict zip) and every non-special token's index has a label |
| `Ner.ConvertFollowsTokens` | server/features/ner/model.py:73-82 | on success, exactly one entity per non-special token, in token order; entity k takes its label from the label map at that token's index and its start and end from that token's offset pair |
| `Ner.Extract` | server/features/ner/model.py:121-129 | fails exactly when the three batch arrays have different row counts; otherwise one result per row, row k being the entity mapping of the k-th row of each array |
| `ChatApi.ChatAnswerOfStream` | server/api/v1/chat.py:37-39 | on a stream that yields something, `/chat` answers with the in-order concatenation of the fragments, whose length is the sum of theirs |
| `ChatApi.ChatAnswerConflatesRejectionAndEmptyStream` | server/api/v1/chat.py:37-39 | `/chat` answers "Max query length exceeded!" both for a rejected query and for a stream that yields nothing |
| `ChatApi.StreamResponseCases` | server/api/v1/chat.py:50-51 | `/chat/stream` sends the fallback text exactly when the query is rejected and forwards any returned stream unchanged, even an empty one |
| `ChatApi.BenchmarkOfStream` | server/api/v1/chat.py:66-71 | `/chat/benchmark` reports one token per fragment and their concatenation as the response |
| `ChatApi.BenchmarkRejectionAndEmptyStream` | server/api/v1/chat.py:66-71 | a rejected query gives the fallback with `tokens == 1`; an empty stream gives "" with `tokens == 0`, unlike `/chat`, which gives the fallback for both |
| `ChatApi.ChatAndBenchmarkAgreeOnNonEmptyStreams` | server/api/v1/chat.py:37-71 | on a stream that yields something, `/chat` and `/chat/benchmark` return the same text |
| `ChatApi.RoutesWithChatModelAsWritten` | server/api/v1/chat.py:37-66 | as written, with the concrete chat model, the two-argument call raises TypeError, so all three routes answer 500 and an over-budget query never gets the fallback text |
| `ChatApi.RejectedQueryResponses` | server/api/v1/chat.py:37-71 | composed with the corrected `QueryCancellable`: a query over the chat model's budget gets the fallback text from all three routes, whatever the flag, and the benchmark counts it as one token |
| `ChatApi.AcceptedQueryBenchmarkTokens` | server/api/v1/chat.py:64-68 | composed with the corrected `QueryCancellable` and the benchmark's never-set flag: for a query within budget, the token count is the number of engine results not marked `is_last` |
| `ChatApi.StreamWithStubSendsEveryContent` | server/api/v1/chat.py:48-54 | the stream route creates a fresh flag and sets it only after the response completes, so no poll during streaming sees it set, and with the stub every message's content is streamed, in order |
| `ChatApi.ChatWithStubCancelledBeforeFirstFragment` | server/api/v1/chat.py:37-39 | the shaping expression of `/chat` applied to what the stub yields when the first poll sees the flag set gives the fallback text (not a reply the route sends; see Left out) |
| `ChatApi.ChatWithStubCancelledIsPrefix` | server/api/v1/chat.py:37-39 | the shaping expression of `/chat` applied to a non-empty cut-short stub stream gives a prefix of what it gives on the uncut stream (not a reply the route sends; see Left out) |
| `ChatApi.CallChatModelQuery` | server/api/v1/chat.py:37 | as written, the two-argument `query(messages, event)` call on the concrete one-argument `ChatModel.query` (model.py:121) fails with TypeError for every input |
| `ChatApi.Respond` | server/app.py:16-38 | a call that raised becomes the 500 reply of the exception handler; a call that returned becomes the route's shaped body, and only then |

## Left out

- Model and tokeniser loading (`snapshot_download`, `from_pretrained`, the `Generator` and `Encoder` constructors) and the chat-template and tokeniser algorithms. These are third-party libraries and file I/O. `encode`, `decode` and the generator's result stream are arbitrary total functions here.
- Errors raised inside the tokeniser or the generator. They are not modelled, because those functions are total here.
- Laziness. A returned stream is modelled as the list of fragments it yields when drained. The lazy pulls that matter, the stub's polls of the cancel flag, are modelled through `observed`. Releasing the generator handle is not modelled.
- The thread-pool submission and `wrap_future` (server/api/v1/chat.py:34-37), the disconnect watcher of server/utils/persistent_connection.py, the SSE transport and the execution of the background task. These are concurrency and framework plumbing. A flag set concurrently appears only as the values `observed` returns.
- ChatApi.StreamWithStubSendsEveryContent: that the stream route's flag is set only after the response completes (server/api/v1/chat.py:48, 54) is a hypothesis of the lemma, not derived from a model of the background task.
- ChatApi.ChatWithStubCancelledBeforeFirstFragment: in `/chat` the only writer of the flag is the disconnect watcher, which in the same step cancels the task group around the awaited call (server/utils/persistent_connection.py:44-47). `answer` is then never bound, and line 39 raises instead of replying. The lemma describes the shaping expression on what the stub yields, not a reply the route sends.
- ChatApi.ChatWithStubCancelledIsPrefix: for the same reason a cancelled `/chat` request sends no answer. The prefix relation holds of the shaping expression only; any answer `/chat` does send was drained with no poll seeing the flag set.
- The timing parts of the benchmark (`perf_counter_ns`, `total_time`, `tokens_per_second`). These are wall-clock floats, and `tokens / total_time` divides by zero when no time is measured.
- The neural step of entity extraction (`forward_batch`, the classifier and `argmax`). It works on tensors and floating point. The mapping starts from the chosen label indices. The NER `__enter__`/`__exit__` are also left out.
- ChatApi.RejectedQueryResponses: states what the routes answer with the corrected `Chat.ChatModel.QueryCancellable`. With the code as written the call raises TypeError and the routes answer 500 instead, as `ChatApi.RoutesWithChatModelAsWritten` states.
- ChatApi.AcceptedQueryBenchmarkTokens: states the benchmark count with the corrected `Chat.ChatModel.QueryCancellable`. As written the benchmark route answers 500 on the concrete chat model, as `ChatApi.RoutesWithChatModelAsWritten` states.
- Integer widths. The label indices and offsets are `int64` in the source and unbounded here. No arithmetic is done on them.
- Ner.ConvertIndicesToEntityMap: a strict zip inside a generator raises only after it has yielded the entities of the common prefix. Consumers materialise the whole row, so the model returns the error alone.
- Ner.Extract: the outer strict zip raises its length error only after yielding every row of the common prefix. A consumer that reads only the first row never sees it. The model reports the mismatch for the whole batch.
- server/features/llm.py, server/api/v1/generate.py and server/api/v1/benchmark.py: an older static-class version. It consists of library calls and sampling parameters. Its budget arithmetic is the same as `ChatModel`'s.
- Application wiring, configuration, service registration, lifespans and the request/response schemas. These are data and framework glue.

## Findings

| source | as written | input that shows it | evidently intended | confidence | as-written member | corrected member |
|---|---|---|---|---|---|---|
| server/features/chat/model.py:121 | `ChatModel.query(self, messages)` takes one argument. The routes call `state.chat.query(data.messages, event)` (server/api/v1/chat.py:37, 51, 66) on the model the chat-model lifespan installs, so the call raises TypeError and the exception handler answers 500 | any request to `/chat`, `/chat/stream` or `/chat/benchmark`, including one whose encoding exceeds the budget and should get "Max query length exceeded!" | `query(messages, cancel_event)` as the protocol declares it (server/features/chat/protocol.py:27): the same budget decision, with a stream that stops at the first poll that sees the flag set, like the stub | high that the call fails; medium on how the event should be honoured; not executed | `ChatApi.RoutesWithChatModelAsWritten` | `Chat.ChatModel.QueryCancellable` |
