/** The cancel flag of the chat agent protocol's `query(messages, cancel_event)`
    (server/features/chat/protocol.py).

    The flag is an event another task may set at any moment; an agent only
    ever sees it through `is_set()`, polled once before each item it yields.
    The model therefore takes the flag as `observed`, where `observed(k)` is
    what the k-th poll returns. */
module Cancellation {

  /** The first poll at or after `k` (and before `n`) that sees the flag set, or `n`. */
  function CancelPointFrom(observed: nat -> bool, k: nat, n: nat): (c: nat)
    requires k <= n
    ensures k <= c <= n
    ensures forall j :: k <= j < c ==> !observed(j)
    ensures c < n ==> observed(c)
    decreases n - k
  {
    if k == n then n
    else if observed(k) then k
    else CancelPointFrom(observed, k + 1, n)
  }

  /** The number of polls that see the flag clear before one sees it set,
      counting at most `n` polls. */
  function CancelPoint(observed: nat -> bool, n: nat): (c: nat)
    ensures c <= n
    ensures forall j :: 0 <= j < c ==> !observed(j)
    ensures c < n ==> observed(c)
  {
    CancelPointFrom(observed, 0, n)
  }

  /** The three facts above determine the cancel point. */
  lemma CancelPointUnique(observed: nat -> bool, n: nat, c: nat)
    requires c <= n
    requires forall j :: 0 <= j < c ==> !observed(j)
    requires c < n ==> observed(c)
    ensures CancelPoint(observed, n) == c
  {
  }

  /** What a stream that polls the flag before each item lets through: the
      items before the first poll that sees the flag set, in order. */
  function UpToCancel<T>(items: seq<T>, observed: nat -> bool): (kept: seq<T>)
    ensures |kept| <= |items| && kept == items[..|kept|]
    ensures forall k :: 0 <= k < |kept| ==> !observed(k)
    ensures |kept| < |items| ==> observed(|kept|)
  {
    items[..CancelPoint(observed, |items|)]
  }

  /** A flag that no poll sees set lets every item through. */
  lemma NeverCancelledKeepsAll<T>(items: seq<T>, observed: nat -> bool)
    requires forall k :: 0 <= k < |items| ==> !observed(k)
    ensures UpToCancel(items, observed) == items
  {
    CancelPointUnique(observed, |items|, |items|);
  }
}
