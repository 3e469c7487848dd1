/** Positions that a filter keeps. Both the chat generator (which drops the
    engine result marked as last) and the entity mapper (which drops special
    tokens) are a filter over a sequence; their results are specified against
    the list of kept positions, in order. */
module Filters {

  /** The positions `j >= i` of `s` with `keep(s[j])`, in increasing order. */
  function KeptFrom<T>(s: seq<T>, keep: T -> bool, i: nat): (ps: seq<nat>)
    requires i <= |s|
    ensures forall k :: 0 <= k < |ps| ==> i <= ps[k] < |s| && keep(s[ps[k]])
    decreases |s| - i
  {
    if i == |s| then []
    else (if keep(s[i]) then [i] else []) + KeptFrom(s, keep, i + 1)
  }

  predicate Increasing(ps: seq<nat>)
  {
    forall k, l :: 0 <= k < l < |ps| ==> ps[k] < ps[l]
  }

  /** The kept positions are strictly increasing. */
  lemma {:induction false} KeptFromIncreasing<T>(s: seq<T>, keep: T -> bool, i: nat)
    requires i <= |s|
    ensures Increasing(KeptFrom(s, keep, i))
    decreases |s| - i
  {
    if i < |s| {
      KeptFromIncreasing(s, keep, i + 1);
      var ps, ps' := KeptFrom(s, keep, i), KeptFrom(s, keep, i + 1);
      if keep(s[i]) {
        assert ps == [i] + ps';
        forall k, l | 0 <= k < l < |ps|
          ensures ps[k] < ps[l]
        {
          assert ps[l] == ps'[l - 1] && i < ps'[l - 1];
          if k > 0 {
            assert ps[k] == ps'[k - 1] && ps'[k - 1] < ps'[l - 1];
          }
        }
      } else {
        assert ps == ps';
      }
    }
  }

  /** Every position from `i` on that `keep` accepts is kept. */
  lemma {:induction false} KeptFromComplete<T>(s: seq<T>, keep: T -> bool, i: nat)
    requires i <= |s|
    ensures var ps := KeptFrom(s, keep, i);
            forall j :: i <= j < |s| && keep(s[j]) ==> j in ps
    decreases |s| - i
  {
    if i < |s| {
      KeptFromComplete(s, keep, i + 1);
      var ps, ps' := KeptFrom(s, keep, i), KeptFrom(s, keep, i + 1);
      assert ps == (if keep(s[i]) then [i] else []) + ps';
      forall j | i <= j < |s| && keep(s[j])
        ensures j in ps
      {
        if j > i {
          assert j in ps';
        }
      }
    }
  }

  /** Every position of `s` that `keep` accepts, in increasing order. */
  function Kept<T>(s: seq<T>, keep: T -> bool): seq<nat>
  {
    KeptFrom(s, keep, 0)
  }
}
