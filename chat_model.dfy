/** The chat model's token-budget state machine (server/features/chat/model.py).

    The tokeniser and the ctranslate2 generator are third-party engines; they
    enter the model as total functions carried by the `Tokeniser` and
    `Generator` values, about which nothing is assumed. */
module Chat {
  import opened Wrappers
  import opened Typedefs
  import opened Filters
  import opened Cancellation

  /** One item of the generator's token stream. */
  datatype GenerationStepResult = GenerationStepResult(token: Token, isLast: bool)

  /** The tokeniser: the chat template followed by tokenisation, and the
      decoder that turns a list of tokens back into text. */
  datatype Tokeniser = Tokeniser(
    encodeMessages: seq<Message> -> seq<Token>,
    decode: seq<Token> -> string)

  /** The generator: `generate_tokens(tokens, max_length, static_prompt)`. */
  datatype Generator = Generator(
    generateTokens: (seq<Token>, int, seq<Token>) -> seq<GenerationStepResult>)

  /** Raised when the limits leave less than the minimum query length. */
  datatype QueryLengthError = QueryLengthError {
    function Message(): string
    {
      "The minimum query length cannot be greater than the maximum query length!"
    }
  }

  /** The limits `get_chat_model` builds the service's model with. */
  const MinQueryLength: int := 64
  const MaxContextLength: int := 131072
  const MaxGenerationLength: int := 1024

  /** The two exemplar messages a static prompt is encoded from: the user's, then the assistant's. */
  function StaticPromptMessages(staticUserPrompt: string, staticAssistantPrompt: string): seq<Message>
  {
    [Message(User, staticUserPrompt), Message(Assistant, staticAssistantPrompt)]
  }

  predicate NotLast(result: GenerationStepResult)
  {
    !result.isLast
  }

  /** The generator expression of `generate`, from position `i` of the engine's results on. */
  function FragmentsFrom(decode: seq<Token> -> string, results: seq<GenerationStepResult>, i: nat): seq<string>
    requires i <= |results|
    decreases |results| - i
  {
    if i == |results| then []
    else (if results[i].isLast then [] else [decode([results[i].token])]) + FragmentsFrom(decode, results, i + 1)
  }

  /** One decoded fragment per engine result not marked as last. */
  function Fragments(decode: seq<Token> -> string, results: seq<GenerationStepResult>): seq<string>
  {
    FragmentsFrom(decode, results, 0)
  }

  /** The k-th fragment is the decoding of the k-th result not marked as last. */
  lemma {:induction false} FragmentsFromFollowEngine(decode: seq<Token> -> string, results: seq<GenerationStepResult>, i: nat)
    requires i <= |results|
    ensures var ps := KeptFrom(results, NotLast, i);
            var fs := FragmentsFrom(decode, results, i);
            |fs| == |ps| &&
            forall k :: 0 <= k < |fs| ==> fs[k] == decode([results[ps[k]].token])
    decreases |results| - i
  {
    if i < |results| {
      FragmentsFromFollowEngine(decode, results, i + 1);
      var ps, ps' := KeptFrom(results, NotLast, i), KeptFrom(results, NotLast, i + 1);
      var fs, fs' := FragmentsFrom(decode, results, i), FragmentsFrom(decode, results, i + 1);
      if results[i].isLast {
        assert ps == ps' && fs == fs';
      } else {
        FragmentsStep(decode, results, i, ps, ps', fs, fs');
      }
    }
  }

  /** The inductive step of FragmentsFromFollowEngine at a result not marked as last. */
  lemma FragmentsStep(decode: seq<Token> -> string, results: seq<GenerationStepResult>, i: nat,
                      ps: seq<nat>, ps': seq<nat>, fs: seq<string>, fs': seq<string>)
    requires i < |results|
    requires ps == [i] + ps'
    requires fs == [decode([results[i].token])] + fs'
    requires |fs'| == |ps'|
    requires forall k :: 0 <= k < |ps'| ==> ps'[k] < |results|
    requires forall k :: 0 <= k < |fs'| ==> fs'[k] == decode([results[ps'[k]].token])
    ensures |fs| == |ps|
    ensures forall k :: 0 <= k < |fs| ==> ps[k] < |results| && fs[k] == decode([results[ps[k]].token])
  {
  }

  /** One fragment per result not marked as last, in the engine's order: the
      kept positions increase, every unmarked result is among them, and the
      k-th fragment decodes the result at the k-th of them. */
  lemma FragmentsFollowEngine(decode: seq<Token> -> string, results: seq<GenerationStepResult>)
    ensures var ps := Kept(results, NotLast);
            var fs := Fragments(decode, results);
            && |fs| == |ps|
            && (forall k, l :: 0 <= k < l < |ps| ==> ps[k] < ps[l])
            && (forall j :: 0 <= j < |results| && NotLast(results[j]) ==> j in ps)
            && forall k :: 0 <= k < |fs| ==>
                 && ps[k] < |results| && NotLast(results[ps[k]])
                 && fs[k] == decode([results[ps[k]].token])
  {
    FragmentsFromFollowEngine(decode, results, 0);
    KeptFromIncreasing(results, NotLast, 0);
    KeptFromComplete(results, NotLast, 0);
  }

  class ChatModel {
    const generator: Generator
    const tokeniser: Tokeniser
    const minQueryLength: int
    const maxContextLength: int
    const maxGenerationLength: int
    var staticPrompt: seq<Token>
    var maxQueryLength: int

    /** The budget never falls below the minimum, and it is exactly what the
        context leaves once the generation reserve and the static prompt are
        taken out. */
    ghost predicate Valid()
      reads this
    {
      && maxQueryLength >= minQueryLength
      && maxQueryLength == maxContextLength - maxGenerationLength - |staticPrompt|
    }

    /** Stores the limits once `Create` has checked them. */
    constructor (generator: Generator, tokeniser: Tokeniser,
                 minQueryLength: int, maxContextLength: int, maxGenerationLength: int)
      requires maxContextLength - maxGenerationLength >= minQueryLength
      ensures Valid()
      ensures this.generator == generator && this.tokeniser == tokeniser
      ensures this.minQueryLength == minQueryLength
      ensures this.maxContextLength == maxContextLength
      ensures this.maxGenerationLength == maxGenerationLength
      ensures staticPrompt == [] && maxQueryLength == maxContextLength - maxGenerationLength
    {
      this.maxQueryLength := maxContextLength - maxGenerationLength;
      this.generator := generator;
      this.tokeniser := tokeniser;
      this.minQueryLength := minQueryLength;
      this.maxContextLength := maxContextLength;
      this.maxGenerationLength := maxGenerationLength;
      this.staticPrompt := [];
    }

    /** `ChatModel(...)`: fails exactly when the context minus the generation
        reserve is below the minimum query length. */
    static method Create(generator: Generator, tokeniser: Tokeniser,
                         minQueryLength: int, maxContextLength: int, maxGenerationLength: int)
      returns (r: Result<ChatModel, QueryLengthError>)
      ensures r.Failure? <==> maxContextLength - maxGenerationLength < minQueryLength
      ensures r.Success? ==>
        && fresh(r.value) && r.value.Valid()
        && r.value.generator == generator && r.value.tokeniser == tokeniser
        && r.value.minQueryLength == minQueryLength
        && r.value.maxContextLength == maxContextLength
        && r.value.maxGenerationLength == maxGenerationLength
        && r.value.staticPrompt == []
        && r.value.maxQueryLength == maxContextLength - maxGenerationLength
    {
      if maxContextLength - maxGenerationLength < minQueryLength {
        return Failure(QueryLengthError);
      }
      var model := new ChatModel(generator, tokeniser, minQueryLength, maxContextLength, maxGenerationLength);
      return Success(model);
    }

    /** `len(model)`: the static prompt's token count, which is what the
        context holds besides the query budget and the generation reserve. */
    function Length(): (n: nat)
      reads this
      ensures Valid() ==> maxQueryLength + n + maxGenerationLength == maxContextLength
    {
      |staticPrompt|
    }

    function EncodeMessages(messages: seq<Message>): seq<Token>
    {
      tokeniser.encodeMessages(messages)
    }

    /** Commits the encoded exemplar exchange as the static prompt when it still
        leaves room for a query of the minimum length; otherwise changes nothing. */
    method SetStaticPrompt(staticUserPrompt: string, staticAssistantPrompt: string) returns (ok: bool)
      requires Valid()
      modifies this
      ensures Valid()
      ensures var encoded := EncodeMessages(StaticPromptMessages(staticUserPrompt, staticAssistantPrompt));
              && (ok <==> |encoded| + minQueryLength + maxGenerationLength <= maxContextLength)
              && (ok ==> staticPrompt == encoded
                         && maxQueryLength == maxContextLength - maxGenerationLength - |encoded|)
      ensures !ok ==> staticPrompt == old(staticPrompt) && maxQueryLength == old(maxQueryLength)
    {
      var staticPrompts := StaticPromptMessages(staticUserPrompt, staticAssistantPrompt);
      var encoded := EncodeMessages(staticPrompts);
      var candidate := maxContextLength - maxGenerationLength - |encoded|;

      if candidate < minQueryLength {
        return false;
      }

      staticPrompt := encoded;
      maxQueryLength := candidate;
      return true;
    }

    /** The engine's result stream for `tokens`, with the generation ceiling
        and the current static prompt. */
    function EngineResults(tokens: seq<Token>): seq<GenerationStepResult>
      reads this
    {
      generator.generateTokens(tokens, maxGenerationLength, staticPrompt)
    }

    /** `generate`: one decoded fragment per engine result that is not marked
        as last, in the engine's order. */
    function Generate(tokens: seq<Token>): (fragments: seq<string>)
      reads this
      ensures var results := EngineResults(tokens);
              var ps := Kept(results, NotLast);
              && |fragments| == |ps|
              && (forall k, l :: 0 <= k < l < |ps| ==> ps[k] < ps[l])
              && (forall j :: 0 <= j < |results| && NotLast(results[j]) ==> j in ps)
              && forall k :: 0 <= k < |fragments| ==> fragments[k] == tokeniser.decode([results[ps[k]].token])
    {
      FragmentsFollowEngine(tokeniser.decode, EngineResults(tokens));
      Fragments(tokeniser.decode, EngineResults(tokens))
    }

    /** `query`: rejected (None) exactly when the encoded query is longer than
        the budget, so a query of exactly the budget is accepted. */
    function Query(messages: seq<Message>): (r: Option<seq<string>>)
      reads this
      ensures r.None? <==> |EncodeMessages(messages)| > maxQueryLength
      ensures r.Some? ==> r.value == Generate(EncodeMessages(messages))
    {
      var tokens := EncodeMessages(messages);
      if |tokens| > maxQueryLength then None else Some(Generate(tokens))
    }

    /** The cancellable `query(messages, cancel_event)` that the chat agent
        protocol declares and the chat routes call, which the concrete `query`
        above lacks: the same budget decision, and a stream that polls the
        flag before each fragment and stops at the first poll that sees it set. */
    function QueryCancellable(messages: seq<Message>, observed: nat -> bool): (r: Option<seq<string>>)
      reads this
      ensures r.None? <==> |EncodeMessages(messages)| > maxQueryLength
      ensures r.Some? ==>
        var fragments := Generate(EncodeMessages(messages));
        && r.value <= fragments
        && (forall k :: 0 <= k < |r.value| ==> !observed(k))
        && (|r.value| < |fragments| ==> observed(|r.value|))
    {
      match Query(messages)
      case None => None
      case Some(fragments) => Some(UpToCancel(fragments, observed))
    }

    /** While no poll sees the flag set, the cancellable query answers exactly
        as the concrete one does. */
    lemma QueryCancellableUncancelled(messages: seq<Message>, observed: nat -> bool)
      requires forall k :: 0 <= k < |Generate(EncodeMessages(messages))| ==> !observed(k)
      ensures QueryCancellable(messages, observed) == Query(messages)
    {
      NeverCancelledKeepsAll(Generate(EncodeMessages(messages)), observed);
    }

    /** An accepted query, the static prompt and the generation reserve
        together fit in the model's context. */
    lemma AcceptedQueryFitsContext(messages: seq<Message>)
      requires Valid()
      requires Query(messages).Some?
      ensures |EncodeMessages(messages)| + Length() + maxGenerationLength <= maxContextLength
    {
    }
  }

  /** `get_chat_model`: the shipped limits pass the construction check. */
  method GetChatModel(generator: Generator, tokeniser: Tokeniser) returns (model: ChatModel)
    ensures fresh(model) && model.Valid()
    ensures model.generator == generator && model.tokeniser == tokeniser
    ensures model.minQueryLength == 64 && model.maxContextLength == 131072
    ensures model.maxGenerationLength == 1024
    ensures model.Length() == 0 && model.maxQueryLength == 130048
  {
    var r := ChatModel.Create(generator, tokeniser, MinQueryLength, MaxContextLength, MaxGenerationLength);
    model := r.value;
  }
}
