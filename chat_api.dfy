/** How the chat routes (server/api/v1/chat.py) shape what the chat agent's
    `query` returns into a response.

    A query outcome is `None` (the query was rejected) or `Some(fragments)`:
    the fragments a returned stream yields when drained. A returned stream is
    a generator object, which Python always treats as true, even when it
    yields nothing; an empty list is false. */
module ChatApi {
  import opened Wrappers
  import opened Typedefs
  import Chat
  import Stub
  import Filters

  const MaxQueryLengthExceeded: string := "Max query length exceeded!"

  /** `"".join(fragments)`. */
  function Join(fragments: seq<string>): string
  {
    if fragments == [] then "" else fragments[0] + Join(fragments[1..])
  }

  /** `/chat`: `list(outcome or [])`, then the concatenation when that list is
      not empty and the fallback text otherwise. */
  function ChatAnswer(outcome: Option<seq<string>>): string
  {
    var answer := if outcome.Some? then outcome.value else [];
    if answer != [] then Join(answer) else MaxQueryLengthExceeded
  }

  /** What `/chat/stream` hands to the server-sent event response. */
  datatype StreamBody = EventStream(fragments: seq<string>) | SingleEvent(text: string)

  /** `/chat/stream`: `answer if answer else fallback` on the stream object itself. */
  function StreamResponse(outcome: Option<seq<string>>): StreamBody
  {
    match outcome
    case Some(fragments) => EventStream(fragments)
    case None => SingleEvent(MaxQueryLengthExceeded)
  }

  /** The integer and text parts of the `/chat/benchmark` report. */
  datatype BenchmarkReport = BenchmarkReport(response: string, tokens: nat)

  /** `/chat/benchmark`: `list(outcome or [fallback])`, its concatenation and its length. */
  function BenchmarkResponse(outcome: Option<seq<string>>): BenchmarkReport
  {
    var answer := if outcome.Some? then outcome.value else [MaxQueryLengthExceeded];
    BenchmarkReport(Join(answer), |answer|)
  }

  /** Joining distributes over concatenation of fragment lists. */
  lemma {:induction false} JoinAppend(xs: seq<string>, ys: seq<string>)
    ensures Join(xs + ys) == Join(xs) + Join(ys)
  {
    if xs == [] {
      assert xs + ys == ys;
    } else {
      assert (xs + ys)[0] == xs[0] && (xs + ys)[1..] == xs[1..] + ys;
      JoinAppend(xs[1..], ys);
    }
  }

  /** Joining a single fragment gives that fragment. */
  lemma JoinOne(fragment: string)
    ensures Join([fragment]) == fragment
  {
    assert [fragment][1..] == [];
  }

  /** The joined text of a prefix of the fragments is a prefix of the joined text. */
  lemma JoinPrefix(fragments: seq<string>, n: nat)
    requires n <= |fragments|
    ensures Join(fragments[..n]) <= Join(fragments)
  {
    assert fragments == fragments[..n] + fragments[n..];
    JoinAppend(fragments[..n], fragments[n..]);
  }

  /** `/chat` on a stream that yields something answers with every fragment,
      in order, and with nothing else. */
  lemma ChatAnswerOfStream(fragments: seq<string>)
    requires fragments != []
    ensures ChatAnswer(Some(fragments)) == Join(fragments)
    ensures fragments[0] <= ChatAnswer(Some(fragments))
    ensures JoinedLength(fragments) == |ChatAnswer(Some(fragments))|
  {
    JoinLength(fragments);
  }

  /** The total length of the fragments. */
  function JoinedLength(fragments: seq<string>): nat
  {
    if fragments == [] then 0 else |fragments[0]| + JoinedLength(fragments[1..])
  }

  lemma {:induction false} JoinLength(fragments: seq<string>)
    ensures |Join(fragments)| == JoinedLength(fragments)
  {
    if fragments != [] {
      JoinLength(fragments[1..]);
    }
  }

  /** `/chat` cannot tell a rejected query from a stream that yields nothing. */
  lemma ChatAnswerConflatesRejectionAndEmptyStream()
    ensures ChatAnswer(None) == MaxQueryLengthExceeded
    ensures ChatAnswer(Some([])) == MaxQueryLengthExceeded
  {
  }

  /** `/chat/stream` sends the fallback only for a rejected query and forwards
      every returned stream unchanged, even one that yields nothing. */
  lemma StreamResponseCases(outcome: Option<seq<string>>)
    ensures StreamResponse(outcome).SingleEvent? <==> outcome.None?
    ensures outcome.None? ==> StreamResponse(outcome).text == MaxQueryLengthExceeded
    ensures outcome.Some? ==> StreamResponse(outcome).fragments == outcome.value
  {
  }

  /** `/chat/benchmark` on a returned stream: one token per fragment, and the
      fragments' concatenation as the response. */
  lemma BenchmarkOfStream(fragments: seq<string>)
    ensures BenchmarkResponse(Some(fragments)).tokens == |fragments|
    ensures BenchmarkResponse(Some(fragments)).response == Join(fragments)
  {
  }

  /** `/chat/benchmark` tells the two cases `/chat` conflates apart: a rejected
      query reports the fallback as one token, an empty stream reports nothing. */
  lemma BenchmarkRejectionAndEmptyStream()
    ensures BenchmarkResponse(None) == BenchmarkReport(MaxQueryLengthExceeded, 1)
    ensures BenchmarkResponse(Some([])) == BenchmarkReport("", 0)
    ensures ChatAnswer(None) == BenchmarkResponse(None).response
    ensures ChatAnswer(Some([])) != BenchmarkResponse(Some([])).response
  {
    JoinOne(MaxQueryLengthExceeded);
  }

  /** On any stream that yields something, `/chat` and `/chat/benchmark` give the same text. */
  lemma ChatAndBenchmarkAgreeOnNonEmptyStreams(fragments: seq<string>)
    requires fragments != []
    ensures ChatAnswer(Some(fragments)) == BenchmarkResponse(Some(fragments)).response
  {
  }

  /** The exception a call with the wrong number of arguments raises. */
  datatype CallError = TypeError

  /** `state.chat.query(data.messages, event)`, as every route makes it, when
      the agent is the concrete chat model the application installs: that
      `query` takes the messages alone, so the call raises before any of its
      code runs, whatever the messages, the budget or the flag. */
  function CallChatModelQuery(model: Chat.ChatModel, messages: seq<Message>, observed: nat -> bool)
    : (r: Result<Option<seq<string>>, CallError>)
    ensures r.Failure? && r.error == TypeError
  {
    Failure(TypeError)
  }

  /** A route's reply: the body it builds, or the 500 reply of the
      application's exception handler when the call raised. */
  datatype Reply<T> = Ok(body: T) | InternalServerError

  function Respond<T>(call: Result<Option<seq<string>>, CallError>, shape: Option<seq<string>> -> T): (reply: Reply<T>)
    ensures reply.Ok? <==> call.Success?
    ensures call.Success? ==> reply.body == shape(call.value)
  {
    match call
    case Success(outcome) => Ok(shape(outcome))
    case Failure(_) => InternalServerError
  }

  /** With the concrete chat model, all three routes answer 500, so even a
      query over the budget never gets the fallback text. */
  lemma RoutesWithChatModelAsWritten(model: Chat.ChatModel, messages: seq<Message>, observed: nat -> bool)
    ensures var call := CallChatModelQuery(model, messages, observed);
            && Respond(call, ChatAnswer) == InternalServerError
            && Respond(call, StreamResponse) == InternalServerError
            && Respond(call, BenchmarkResponse) == InternalServerError
    ensures Respond(CallChatModelQuery(model, messages, observed), ChatAnswer) != Ok(MaxQueryLengthExceeded)
  {
  }

  /** With the cancellable query, a query over the chat model's budget gets the
      fallback text from every route, whatever the flag, and the benchmark
      counts it as one token. */
  lemma RejectedQueryResponses(model: Chat.ChatModel, messages: seq<Message>, observed: nat -> bool)
    requires |model.EncodeMessages(messages)| > model.maxQueryLength
    ensures ChatAnswer(model.QueryCancellable(messages, observed)) == MaxQueryLengthExceeded
    ensures StreamResponse(model.QueryCancellable(messages, observed)) == SingleEvent(MaxQueryLengthExceeded)
    ensures BenchmarkResponse(model.QueryCancellable(messages, observed)) == BenchmarkReport(MaxQueryLengthExceeded, 1)
  {
    JoinOne(MaxQueryLengthExceeded);
  }

  /** The flag `/chat/benchmark` passes: a fresh event that nothing sets. */
  const NeverSet: nat -> bool := (k: nat) => false

  /** With the cancellable query, an accepted query's benchmark counts one
      token per engine result that is not marked as last. */
  lemma AcceptedQueryBenchmarkTokens(model: Chat.ChatModel, messages: seq<Message>)
    requires |model.EncodeMessages(messages)| <= model.maxQueryLength
    ensures var results := model.EngineResults(model.EncodeMessages(messages));
            BenchmarkResponse(model.QueryCancellable(messages, NeverSet)).tokens == |Filters.Kept(results, Chat.NotLast)|
  {
    model.QueryCancellableUncancelled(messages, NeverSet);
  }

  /** `/chat/stream` creates a fresh flag and sets it only in the background
      task that runs after the response has been sent, so no poll made while
      streaming sees it set: with the stub agent every message's content is
      streamed, in order. */
  lemma StreamWithStubSendsEveryContent(messages: seq<Message>, observed: nat -> bool)
    requires forall k :: 0 <= k < |messages| ==> !observed(k)
    ensures StreamResponse(Some(Stub.StubFragments(messages, observed))) == EventStream(Contents(messages))
  {
    Stub.NeverCancelledYieldsEveryContent(messages, observed);
  }

  /** The shaping expression of `/chat` on what the stub yields when the first
      poll sees the flag set: the fallback text. The route itself sends no
      reply then, since the watcher that sets the flag also cancels the
      handler's await. */
  lemma ChatWithStubCancelledBeforeFirstFragment(messages: seq<Message>, observed: nat -> bool)
    requires observed(0)
    ensures ChatAnswer(Some(Stub.StubFragments(messages, observed))) == MaxQueryLengthExceeded
  {
  }

  /** The shaping expression of `/chat` on a stub stream cut short by the flag
      gives a prefix of what it gives on the uncut stream. As with the lemma
      above, this is the expression, not a reply the route sends. */
  lemma ChatWithStubCancelledIsPrefix(messages: seq<Message>, observed: nat -> bool)
    requires Stub.StubFragments(messages, observed) != []
    ensures ChatAnswer(Some(Stub.StubFragments(messages, observed))) <= ChatAnswer(Some(Contents(messages)))
  {
    var fragments := Stub.StubFragments(messages, observed);
    Stub.StubFragmentsArePrefix(messages, observed);
    JoinPrefix(Contents(messages), |fragments|);
  }
}
