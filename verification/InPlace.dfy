/** The in-place slice filter: keep the wanted elements at the front of the same array. */
module InPlace {

  ghost function Kept<T>(s: seq<T>, keep: T -> bool): (r: seq<T>) {
    if s == [] then []
    else Kept(s[..|s| - 1], keep) + (if keep(s[|s| - 1]) then [s[|s| - 1]] else [])
  }

  // r is a subsequence of s: `at` names, in order, where each element came from.
  ghost predicate Picks<T>(s: seq<T>, r: seq<T>, at: seq<int>) {
    && |at| == |r|
    && (forall i :: 0 <= i < |at| ==> 0 <= at[i] < |s| && s[at[i]] == r[i])
    && (forall i, j :: 0 <= i < j < |at| ==> at[i] < at[j])
  }

  /** Kept keeps the order and drops exactly the unwanted positions. */
  lemma {:induction false} KeptExactly<T>(s: seq<T>, keep: T -> bool) returns (at: seq<int>)
    ensures Picks(s, Kept(s, keep), at)
    ensures forall k :: 0 <= k < |s| ==> (k in at <==> keep(s[k]))
  {
    if s == [] {
      at := [];
    } else {
      var init, x := s[..|s| - 1], s[|s| - 1];
      at := KeptExactly(init, keep);
      assert s == init + [x];
      PicksGrow(init, Kept(init, keep), at, x);
      forall k | 0 <= k < |init| ensures k in at <==> keep(s[k]) {
        assert init[k] == s[k];
      }
      if keep(x) {
        at := at + [|s| - 1];
      }
    }
  }

  lemma PicksGrow<T>(s: seq<T>, r: seq<T>, at: seq<int>, x: T)
    requires Picks(s, r, at)
    ensures Picks(s + [x], r, at) && Picks(s + [x], r + [x], at + [|s|]) && |s| !in at
  {
    forall i | 0 <= i < |at| ensures (s + [x])[at[i]] == s[at[i]] {
    }
  }

  lemma {:induction false} KeptMembers<T>(s: seq<T>, keep: T -> bool, x: T)
    ensures x in Kept(s, keep) <==> x in s && keep(x)
  {
    if s != [] {
      KeptMembers(s[..|s| - 1], keep, x);
      assert s == s[..|s| - 1] + [s[|s| - 1]];
    }
  }

  method Compact<T>(a: array<T>, len: nat, keep: T -> bool) returns (n: nat)
    requires len <= a.Length
    modifies a
    ensures n <= len && a[..n] == Kept(old(a[..len]), keep)
    ensures a[n..] == old(a[n..])
  {
    n := 0;
    for i := 0 to len
      invariant n <= i
      invariant a[..n] == Kept(old(a[..i]), keep)
      invariant a[n..] == old(a[n..])
    {
      assert a[i] == old(a[i]) by {
        assert a[n..][i - n] == old(a[n..])[i - n];
      }
      assert old(a[..i + 1])[..i] == old(a[..i]);
      if keep(a[i]) {
        a[n] := a[i];
        n := n + 1;
      }
    }
  }
}
