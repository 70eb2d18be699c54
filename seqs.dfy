/** The erase/remove_if idiom the main loop uses to cull dead particles:
    a stable filter that drops exactly the elements a predicate marks dead. */
module Seqs {

  /** The elements of `s` that are not `dead`, in their original order. */
  function Without<T>(s: seq<T>, dead: T -> bool): (r: seq<T>)
    ensures |r| <= |s|
    ensures forall i :: 0 <= i < |r| ==> !dead(r[i])
    decreases |s|
  {
    if s == [] then []
    else
      var kept := Without(s[..|s| - 1], dead);
      if dead(s[|s| - 1]) then kept else kept + [s[|s| - 1]]
  }

  /** Filtering a concatenation filters each part: survivors of `a` all
      precede survivors of `b`, so relative order is preserved. */
  lemma {:induction false} WithoutConcat<T>(a: seq<T>, b: seq<T>, dead: T -> bool)
    ensures Without(a + b, dead) == Without(a, dead) + Without(b, dead)
    decreases |b|
  {
    if b == [] {
      assert a + b == a;
    } else {
      var b' := b[..|b| - 1];
      assert (a + b)[..|a + b| - 1] == a + b';
      WithoutConcat(a, b', dead);
    }
  }

  /** Each value survives as often as it occurred if it is not dead, and not
      at all if it is: nothing is invented, nothing live is lost. */
  lemma {:induction false} WithoutCounts<T>(s: seq<T>, dead: T -> bool, x: T)
    ensures multiset(Without(s, dead))[x] == if dead(x) then 0 else multiset(s)[x]
    decreases |s|
  {
    if s != [] {
      var init := s[..|s| - 1];
      assert s == init + [s[|s| - 1]];
      WithoutCounts(init, dead, x);
    }
  }

  /** A list with no dead element is left exactly as it was. */
  lemma {:induction false} WithoutNoneDead<T>(s: seq<T>, dead: T -> bool)
    requires forall i :: 0 <= i < |s| ==> !dead(s[i])
    ensures Without(s, dead) == s
    decreases |s|
  {
    if s != [] {
      var init := s[..|s| - 1];
      WithoutNoneDead(init, dead);
      assert init + [s[|s| - 1]] == s;
    }
  }

  /** Membership in both directions: a value is kept exactly when it was
      present and is not dead. */
  lemma WithoutMember<T>(s: seq<T>, dead: T -> bool, x: T)
    ensures x in Without(s, dead) <==> x in s && !dead(x)
  {
    WithoutCounts(s, dead, x);
  }

  /** std::remove_if followed by erase, as a single pass that keeps the
      surviving elements in order. */
  method RemoveIf<T>(s: seq<T>, dead: T -> bool) returns (r: seq<T>)
    ensures r == Without(s, dead)
  {
    r := [];
    for i := 0 to |s|
      invariant r == Without(s[..i], dead)
    {
      assert s[..i + 1][..i] == s[..i];
      if !dead(s[i]) {
        r := r + [s[i]];
      }
    }
    assert s[..|s|] == s;
  }
}
