/** One sequence inside another, in order. */
module Subsequences {
  /** Element i of a is element at[i] of b, and at goes upwards. */
  ghost predicate Embeds<T>(a: seq<T>, b: seq<T>, at: seq<nat>) {
    && |at| == |a|
    && (forall i | 0 <= i < |a| :: at[i] < |b| && b[at[i]] == a[i])
    && (forall i, j | 0 <= i < j < |a| :: at[i] < at[j])
  }

  ghost predicate Subsequence<T>(a: seq<T>, b: seq<T>) {
    exists at: seq<nat> :: Embeds(a, b, at)
  }

  lemma Nothing<T>(b: seq<T>)
    ensures Subsequence<T>([], b)
  {
    assert Embeds([], b, []);
  }

  lemma BothGrow<T>(a: seq<T>, b: seq<T>, x: T)
    requires Subsequence(a, b)
    ensures Subsequence(a + [x], b + [x])
  {
    var at: seq<nat> :| Embeds(a, b, at);
    assert Embeds(a + [x], b + [x], at + [|b|]);
  }

  lemma OuterGrows<T>(a: seq<T>, b: seq<T>, x: T)
    requires Subsequence(a, b)
    ensures Subsequence(a, b + [x])
  {
    var at: seq<nat> :| Embeds(a, b, at);
    assert Embeds(a, b + [x], at);
  }
}
