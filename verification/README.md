# ERNIE-Bot client core: request validation, conversation history, streaming aggregation

This Dafny project models the sequential core of the gear-wenxinworkshop starter's
ERNIE-Bot client:

- **Request validation** (`ErnieBotClient.validChatErnieRequest`). A request's content and its
  three boxed sampling parameters (`temperature`, `topP`, `penaltyScore`) pass through an ordered
  chain of guards. The first guard that fails decides which exception is thrown.
  Java's `null` is `None`. `StringUtils.isBlank` is written out with the whitespace set of
  `Character.isWhitespace` in Java 9 and later.
  `String.length()` counts UTF-16 code units.
- **Conversation history** (`ERNIE_MESSAGES_HISTORY_MAP` and the calls that use it). The
  `HistoryStore` class holds the key → queue map as `map<string, seq<Message>>`. The continued
  conversation calls first check their arguments, then get-or-create the key's queue
  (`computeIfAbsent`) and add the user turn at its tail. `historyMono` adds the assistant turn
  once a reply arrives. `initMessageHistoryMap` replaces the whole map.
- **Streaming aggregation** (`ErnieSubscriber`). This is a Reactive Streams subscriber with four
  states (`Init`, `Subscribed`, then `Completed` or `Failed`). Its invariant `Valid()` has these
  clauses:
  - the count of received elements equals the number of forwarded responses;
  - the buffer equals `Aggregate` of the forwarded responses, the in-order concatenation of their
    non-empty fragments;
  - before `onSubscribe` nothing has been requested or received and nothing is cancelled;
  - from `onSubscribe` on, exactly one element is outstanding (`requested == received + 1`);
  - the history is the starting history plus exactly one assistant turn holding the whole buffer
    when the exchange has completed, and the starting history otherwise;
  - a failure has been passed downstream exactly when the exchange ended with `onError`.

  `OnNext`'s postcondition states that each response is forwarded unchanged, after those
  forwarded before it. The calling discipline of
  the Reactive Streams specification for the JVM, version 1.0, is encoded as preconditions:
  rule 1.9 (`onSubscribe` first), rule 1.3 (serial signals), rule 1.7 (nothing after
  `onError`/`onComplete`) and rule 1.1 (`onNext` never exceeds demand).

Behaviour kept exactly as the code has it:

- The `penaltyScore` range check runs only when a `temperature` is present. An out-of-range or
  missing `penaltyScore` without a temperature passes.
- A temperature with a null `penaltyScore` fails by unboxing `null` (`Fail(NullPointer)`), not
  with `PARAMS_ERROR`.
- The `null` test inside `historyMono`'s `flatMap` can never succeed, because Reactor never
  emits `null` (rule 2.13 of the Reactive Streams specification). So `SYSTEM_NET_ERROR` is never
  raised there. An empty reply completes empty and a transport error passes through unchanged;
  neither adds an assistant turn.
- `dispose` before `onSubscribe` dereferences the still-null subscription (`Fail(NullPointer)`).
- The subscriber does not guard against signals after `dispose`. A completion that still arrives
  after cancellation commits the reply, as the code does.

Files: `types.dfy` (shared values), `java_strings.dfy` (`isBlank`, `isNotEmpty`,
`length()`), `ernie_requests.dfy` (validation, single-turn guard), `ernie_history.dfy`
(history store, continued calls, `historyMono`), `ernie_stream.dfy` (fragment aggregation
and the subscriber).

## Model

| member | source | states |
|---|---|---|
| `JavaStrings.IsWhitespace` | src/main/java/com/gearwenxin/client/ernie/ErnieBotClient.java:266 | every whitespace character is one UTF-16 unit; the no-break spaces U+00A0, U+2007, U+202F and U+180E are not whitespace; among ASCII characters exactly space, TAB, LF, VT, FF, CR and U+001C to U+001F are |
| `JavaStrings.IsNotEmpty` | src/main/java/com/gearwenxin/client/erniebot/ErnieSubscriber.java:48 | a string is empty exactly when it is null or ""; every empty string is blank, but " " is blank and not empty |
| `JavaStrings.IsBlank` | src/main/java/com/gearwenxin/client/ernie/ErnieBotClient.java:266-268 | a string is blank exactly when it is null or every character is Java whitespace (so "" is blank) |
| `JavaStrings.AllWhitespace` | src/main/java/com/gearwenxin/client/ernie/ErnieBotClient.java:266 | the character-by-character test is true exactly when every character is whitespace |
| `JavaStrings.JavaLength` | src/main/java/com/gearwenxin/client/ernie/ErnieBotClient.java:270 | Java's length lies between the character count and twice it, and equals the character count when every character is in the Basic Multilingual Plane |
| `ErnieRequests.ValidChatErnieRequest` | src/main/java/com/gearwenxin/client/ernie/ErnieBotClient.java:263-290 | the request passes exactly when content is non-blank and at most 2000 long, a present temperature is in (0,1], a present topP is in [0,1], and, when a temperature is present, the penalty score is present and in [1,2]; otherwise the first failing guard in source order decides the error (blank, too long, temperature, topP, null penalty score, penalty score range); the warning is logged exactly when the content checks pass and both temperature and topP are present |
| `ErnieRequests.ContentLengthBoundary` | src/main/java/com/gearwenxin/client/ernie/ErnieBotClient.java:270-272 | content of exactly 2000 UTF-16 units passes; content of 2001 units is rejected as too long |
| `ErnieRequests.TemperatureBoundary` | src/main/java/com/gearwenxin/client/ernie/ErnieBotClient.java:278-280 | a temperature of 0 is rejected; temperatures 1.0 and 0.5 with penalty score 1.5 and no topP are accepted |
| `ErnieRequests.PenaltyScoreUncheckedWithoutTemperature` | src/main/java/com/gearwenxin/client/ernie/ErnieBotClient.java:286-288 | without a temperature, any penalty score (absent or out of range) passes |
| `ErnieRequests.MissingPenaltyScoreUnboxes` | src/main/java/com/gearwenxin/client/ernie/ErnieBotClient.java:286 | a temperature with a null penalty score fails by unboxing null, not with PARAMS_ERROR |
| `ErnieRequests.BothSamplingParametersOnlyWarn` | src/main/java/com/gearwenxin/client/ernie/ErnieBotClient.java:274-276 | with both temperature and topP present and every range check met, the request passes and only the warning is logged |
| `ErnieRequests.ChatSingle` | src/main/java/com/gearwenxin/client/ernie/ErnieBotClient.java:76-109 | single-turn content calls fail with PARAMS_ERROR exactly when the content is blank; otherwise the request carries exactly the one user turn and the requested stream flag |
| `ErnieHistory.HistoryStore.constructor` | src/main/java/com/gearwenxin/client/ernie/ErnieBotClient.java:40 | the store starts with no conversations |
| `ErnieHistory.HistoryStore.GetMessageHistoryMap` | src/main/java/com/gearwenxin/client/ernie/ErnieBotClient.java:65-68 | returns the mapping currently in use |
| `ErnieHistory.HistoryStore.InitMessageHistoryMap` | src/main/java/com/gearwenxin/client/ernie/ErnieBotClient.java:70-73 | the store afterwards uses exactly the given mapping; every key it lacks is an empty, never-seen conversation |
| `ErnieHistory.HistoryStore.ComputeIfAbsent` | src/main/java/com/gearwenxin/client/ernie/ErnieBotClient.java:146-148 | an unseen key gets an empty queue, a known key keeps its own; no other key changes; the queue returned is the key's |
| `ErnieHistory.HistoryStore.OfferMessage` | src/main/java/com/gearwenxin/client/ernie/ErnieBotClient.java:150 | one message is added at the tail of the key's queue; no other key changes |
| `ErnieHistory.HistoryStore.AddUserTurn` | src/main/java/com/gearwenxin/client/ernie/ErnieBotClient.java:145-154 | the key's conversation (empty if unseen) gains exactly the user turn at its tail, nothing else changes, and the request carries the whole resulting conversation |
| `ErnieHistory.HistoryStore.ChatCont` | src/main/java/com/gearwenxin/client/ernie/ErnieBotClient.java:139-182 | fails with PARAMS_ERROR exactly when content or key is blank, leaving every history unchanged; otherwise only that key's conversation changes, by exactly one user turn at its tail |
| `ErnieHistory.HistoryStore.ChatContWithRequest` | src/main/java/com/gearwenxin/client/ernie/ErnieBotClient.java:184-233 | a blank key fails first with PARAMS_ERROR, then a validation failure is raised as validation decides; every rejection leaves the histories unchanged; acceptance adds exactly the request's user turn to that key's tail and nothing else |
| `ErnieHistory.HistoryStore.HistoryMono` | src/main/java/com/gearwenxin/client/ernie/ErnieBotClient.java:246-261 | the returned `Mono` ends as the transport's did: an emitted reply is emitted unchanged after exactly one assistant turn holding its result has been added at that conversation's tail; an empty completion or a transport error passes through unchanged and no history changes |
| `ErnieHistory.ContinuedExchange` | src/main/java/com/gearwenxin/client/ernie/ErnieBotClient.java:140-158 | a whole single-reply continued turn: rejected calls change nothing; an accepted call ends as the transport's reply did; an emitted reply leaves the user turn immediately followed by its assistant turn at the conversation's tail; an empty or failed reply leaves the user turn recorded and no assistant turn |
| `ErnieStream.Fragment` | src/main/java/com/gearwenxin/client/erniebot/ErnieSubscriber.java:45-51 | a response adds nothing exactly when its result is null or empty, and otherwise adds exactly its result |
| `ErnieStream.WithText` | src/main/java/com/gearwenxin/client/erniebot/ErnieSubscriber.java:48 | the responses kept are no more than those given, and each carries a non-empty result (with `AggregateOfTextOnly`, they alone make up the buffer) |
| `ErnieStream.Aggregate` | src/main/java/com/gearwenxin/client/erniebot/ErnieSubscriber.java:45-51 | the buffer is empty exactly when no response carries text, and it holds at least one character per text-carrying response |
| `ErnieStream.EmptyReplyIffNoText` | src/main/java/com/gearwenxin/client/erniebot/ErnieSubscriber.java:45-51 | the committed reply is empty exactly when every partial response has a null or empty result |
| `ErnieStream.AggregateAppend` | src/main/java/com/gearwenxin/client/erniebot/ErnieSubscriber.java:45-51 | the buffer built from two runs of responses is the first run's text followed by the second's |
| `ErnieStream.AggregateSkipsEmpty` | src/main/java/com/gearwenxin/client/erniebot/ErnieSubscriber.java:48-51 | a response whose result is null or empty adds nothing to the buffer wherever it arrives |
| `ErnieStream.AggregateOfTextOnly` | src/main/java/com/gearwenxin/client/erniebot/ErnieSubscriber.java:45-51 | the buffer equals the concatenation of only the non-empty fragments, in arrival order |
| `ErnieStream.HelloReply` | src/main/java/com/gearwenxin/client/erniebot/ErnieSubscriber.java:45-51 | fragments "Hel", "lo", "" assemble to "Hello" |
| `ErnieStream.ErnieSubscriber.constructor` | src/main/java/com/gearwenxin/client/erniebot/ErnieSubscriber.java:30-33 | a new subscriber has requested nothing, received nothing, an empty buffer, and the given history |
| `ErnieStream.ErnieSubscriber.OnSubscribe` | src/main/java/com/gearwenxin/client/erniebot/ErnieSubscriber.java:35-40 | allowed only as the first signal; requests exactly one element and changes nothing else |
| `ErnieStream.ErnieSubscriber.OnNext` | src/main/java/com/gearwenxin/client/erniebot/ErnieSubscriber.java:42-53 | allowed only within demand; requests exactly one more (so requested stays received + 1), appends the non-empty fragment to the buffer, forwards the response unchanged at the end, and never touches history |
| `ErnieStream.ErnieSubscriber.OnError` | src/main/java/com/gearwenxin/client/erniebot/ErnieSubscriber.java:55-59 | forwards the failure and ends the exchange; history stays exactly what it was when the exchange began, so no partial reply is committed |
| `ErnieStream.ErnieSubscriber.OnComplete` | src/main/java/com/gearwenxin/client/erniebot/ErnieSubscriber.java:61-68 | appends exactly one assistant turn holding the whole buffer (even an empty one) to the history tail and completes; the history is then the starting history plus that one turn |
| `ErnieStream.ErnieSubscriber.Dispose` | src/main/java/com/gearwenxin/client/erniebot/ErnieSubscriber.java:70-74 | after subscription, cancels upstream and changes neither history, buffer, nor counters; before subscription it fails with a null dereference and changes nothing |
| `ErnieStream.HelloExchange` | src/main/java/com/gearwenxin/client/erniebot/ErnieSubscriber.java:36-67 | a stream of "Hel", "lo", "" then completion forwards all three and commits exactly "Hello" after the prior turns |
| `ErnieStream.InterruptedExchange` | src/main/java/com/gearwenxin/client/erniebot/ErnieSubscriber.java:36-59 | a stream failing after "par", "tial" forwards both and the failure, and leaves history exactly as it was |

## Left out

- The per-model client subclasses (`LinlyChineseLLaMA27BClient`, `GPTNeoX20BClient`, `Pythia6_9BClient`, `Falcon40BClient`): they only supply a tag, a URL and their own static map. That map has the same shape as `HistoryStore`.
- Access tokens, URLs and tags (`getCustomAccessToken`, `setCustomAccessToken`, `getURL`, `getTag`): configuration with no logic beyond a null fallback.
- Transport and Reactor plumbing (`ChatUtils.monoChatPost`/`fluxChatPost`, `Flux.create`, `emitter.onDispose`, `subscribeOn`). How the transport's reply `Mono` ended (emitted, empty or errored) reaches `HistoryMono` as a `MonoOutcome` parameter. The emitter is represented by the subscriber's `forwarded`, `failure` and `state` fields.
- `historyFlux` wires `CommonSubscriber`, which is not part of this model. The streaming path is modelled by `ErnieSubscriber` on its own history sequence.
- `chatSingle(ChatErnieRequest)` and `chatSingleOfStream(ChatErnieRequest)`: their only core logic is `ValidChatErnieRequest`. `ConvertUtils.toErnieRequest` is not part of this model.
- `offerMessage`, `buildUserMessage`, `buildAssistantMessage`, `buildUserMessageQueue`: their bodies are not part of this model. They are treated as a plain tail append and as `Message(role, content)` constructors.
- ErnieHistory.HistoryStore.HistoryMono: appends by key to the map in use and requires the key to be present. The source appends to the queue object obtained earlier. The two differ only if the map is swapped or the key's queue replaced while the reply is pending. The `null` branch at lines 252-254 is not modelled, because Reactor never emits `null` (rule 2.13 of the Reactive Streams specification).
- Null arguments where the model has values: `validChatErnieRequest(null)` throws a `NullPointerException` at line 266, reached through `chatSingle(ChatErnieRequest)`, `chatSingleOfStream(ChatErnieRequest)`, `chatCont(ChatErnieRequest, String)` and `chatContOfStream(ChatErnieRequest, String)` (lines 113, 126, 189, 215). After `initMessageHistoryMap(null)`, every later continued call throws at its `computeIfAbsent` (lines 146, 168, 192, 218). The model's request and map are values and cannot be null.
- JavaStrings.IsWhitespace: follows Java 9 and later. Under Java 8 (Unicode 6.2), U+180E MONGOLIAN VOWEL SEPARATOR is also whitespace, so a string of only U+180E is blank there and not in the model.
- The history map and the subscriber's history are immutable sequences, not shared queue objects. Aliasing between keys or between exchanges is not modelled.
- Concurrency: `ConcurrentHashMap` thread safety and racing appends on one key. Each operation is one atomic step.
- ErnieStream.ErnieSubscriber.OnComplete: the source commits to history before completing the emitter. Here both happen in one step, so that order is not observable.
- Java `Float` values are modelled as reals. Rounding is not modelled, and neither is NaN, which passes every comparison in the validator.
- Java strings containing unpaired surrogates cannot be represented, because a Dafny `char` is a Unicode scalar value.
- Logging is left out, except for the validator's warning, which is the `warned` flag. `isDisposed` is also left out.
