/** The stub chat agent (server/features/chat/stub.py), the executable form of
    the cancellable `query(messages, cancel_event)` contract of the chat agent
    protocol: it polls the flag once before each message. */
module Stub {
  import opened Wrappers
  import opened Typedefs
  import opened Cancellation

  /** What the stub yields: a message's content for every poll that sees the
      flag clear, in message order, stopping at the first poll that sees it set. */
  function StubFragments(messages: seq<Message>, observed: nat -> bool): (fragments: seq<string>)
    ensures |fragments| <= |messages|
    ensures forall k :: 0 <= k < |fragments| ==> fragments[k] == messages[k].content && !observed(k)
    ensures |fragments| < |messages| ==> observed(|fragments|)
  {
    UpToCancel(Contents(messages), observed)
  }

  class ChatModelStub {

    constructor ()
    {
    }

    /** `__enter__` hands back the agent itself. */
    method Enter() returns (agent: ChatModelStub)
      ensures agent == this
    {
      agent := this;
    }

    /** `__exit__` releases nothing: the stub holds no state. */
    method Exit()
      ensures unchanged(this)
    {
    }

    /** `query(messages, cancel_event)`: a generator function, so it never
        returns None; it yields the contents up to the first poll that sees
        the flag set. */
    method Query(messages: seq<Message>, observed: nat -> bool) returns (r: Option<seq<string>>)
      ensures r.Some?
      ensures r.value == StubFragments(messages, observed)
    {
      var fragments: seq<string> := [];
      var i := 0;
      while i < |messages|
        invariant i <= |messages|
        invariant fragments == Contents(messages)[..i]
        invariant forall j :: 0 <= j < i ==> !observed(j)
      {
        if observed(i) {
          break;
        }
        fragments := fragments + [messages[i].content];
        i := i + 1;
      }
      CancelPointUnique(observed, |messages|, i);
      r := Some(fragments);
    }
  }

  /** A flag that no poll sees set lets every message's content through, in order. */
  lemma NeverCancelledYieldsEveryContent(messages: seq<Message>, observed: nat -> bool)
    requires forall k :: 0 <= k < |messages| ==> !observed(k)
    ensures StubFragments(messages, observed) == Contents(messages)
  {
    NeverCancelledKeepsAll(Contents(messages), observed);
  }

  /** A flag set before the first pull gives an empty stream. */
  lemma CancelledBeforeFirstPullYieldsNothing(messages: seq<Message>, observed: nat -> bool)
    requires observed(0)
    ensures StubFragments(messages, observed) == []
  {
  }

  /** Once a poll sees the flag set, no later fragment is produced. */
  lemma NoFragmentAfterCancel(messages: seq<Message>, observed: nat -> bool, k: nat)
    requires observed(k)
    ensures |StubFragments(messages, observed)| <= k
  {
  }

  /** The stream is always a prefix of the message contents. */
  lemma StubFragmentsArePrefix(messages: seq<Message>, observed: nat -> bool)
    ensures var fragments := StubFragments(messages, observed);
            |fragments| <= |messages| && fragments == Contents(messages)[..|fragments|]
  {
  }
}
