/** Decoded msgpack objects, and the string comparisons made on their keys. */
module MsgpackObjects {
  /** Other stands for the types no key or value of a document may have. */
  datatype Object = Bool(b: bool) | U64(n: nat) | Str(s: string) | Map(kvs: seq<Kv>) | Other

  /** An entry of a map; tail is what follows the bytes of its key in memory. */
  datatype Kv = Kv(key: Object, val: Object, tail: string)

  const NUL: char := '\0'

  /**
   strncmp(a, b, n) == 0 from position i on (section 7.24.4.4 of ISO/IEC 9899:2011): a and b
   are what memory holds from either pointer on. Reading past what is known counts as unequal.
   */
  predicate Strncmp0(a: string, b: string, i: nat, n: nat)
    decreases n - i
  {
    i >= n || (i < |a| && i < |b| && a[i] == b[i] && (a[i] == NUL || Strncmp0(a, b, i + 1, n)))
  }

  predicate NoNul(s: string) {
    forall i | 0 <= i < |s| :: s[i] != NUL
  }

  /** The match macro: the comparison is bounded by the size of the key. */
  predicate Match(kv: Kv, name: string)
    requires kv.key.Str?
  {
    Strncmp0(kv.key.s + kv.tail, name + [NUL], 0, |kv.key.s|)
  }

  /** The finder's other comparison, bounded by the length of the name. */
  predicate StartsLike(kv: Kv, name: string)
    requires kv.key.Str?
  {
    Strncmp0(kv.key.s + kv.tail, name + [NUL], 0, |name|)
  }

  /** Without a NUL before it, the comparison is plain equality of the first n characters, all of them known. */
  lemma {:induction false} Strncmp0IffSame(a: string, b: string, i: nat, n: nat)
    requires i <= n <= |b| && i <= |a|
    requires forall k | i <= k < n :: b[k] != NUL
    ensures Strncmp0(a, b, i, n) <==> n <= |a| && a[i..n] == b[i..n]
    decreases n - i
  {
    if i < n && i < |a| {
      Strncmp0IffSame(a, b, i + 1, n);
      if n <= |a| {
        assert a[i..n] == [a[i]] + a[i + 1..n] && b[i..n] == [b[i]] + b[i + 1..n];
        assert a[i..n][0] == a[i] && b[i..n][0] == b[i];
        assert a[i..n][1..] == a[i + 1..n] && b[i..n][1..] == b[i + 1..n];
      }
    }
  }

  /** Past the end of the name, only a key with a NUL right there still compares equal. */
  lemma {:induction false} Strncmp0PastName(a: string, b: string, i: nat, n: nat)
    requires i < |b| <= n <= |a| && b[|b| - 1] == NUL
    requires forall k | i <= k < |b| - 1 :: b[k] != NUL
    ensures Strncmp0(a, b, i, n) <==> a[i..|b|] == b[i..]
    decreases |b| - i
  {
    assert a[i..|b|][0] == a[i] && b[i..][0] == b[i];
    if i < |b| - 1 {
      Strncmp0PastName(a, b, i + 1, n);
      assert a[i..|b|] == [a[i]] + a[i + 1..|b|] && b[i..] == [b[i]] + b[i + 1..];
      assert a[i..|b|][1..] == a[i + 1..|b|] && b[i..][1..] == b[i + 1..];
    }
  }

  /** What match accepts: every prefix of the name, the empty key included, and the name followed by a NUL and anything. */
  lemma MatchIff(kv: Kv, name: string)
    requires kv.key.Str? && NoNul(name)
    ensures Match(kv, name) <==> kv.key.s <= name || name + [NUL] <= kv.key.s
  {
    var key := kv.key.s;
    if |key| <= |name| {
      Strncmp0IffSame(key + kv.tail, name + [NUL], 0, |key|);
      assert (key + kv.tail)[0..|key|] == key && (name + [NUL])[0..|key|] == name[..|key|];
    } else {
      Strncmp0PastName(key + kv.tail, name + [NUL], 0, |key|);
      assert (key + kv.tail)[0..|name| + 1] == key[..|name| + 1] && (name + [NUL])[0..] == name + [NUL];
    }
  }

  /** The finder's comparison: the key, with what follows it in memory, begins with the name. */
  lemma StartsLikeIff(kv: Kv, name: string)
    requires kv.key.Str? && NoNul(name)
    ensures StartsLike(kv, name) <==> name <= kv.key.s + kv.tail
  {
    Strncmp0IffSame(kv.key.s + kv.tail, name + [NUL], 0, |name|);
    assert (name + [NUL])[0..|name|] == name;
    if |name| <= |kv.key.s + kv.tail| {
      assert (kv.key.s + kv.tail)[0..|name|] == (kv.key.s + kv.tail)[..|name|];
    }
  }

  /** strndup */
  function CString(s: string): (c: string)
    ensures c <= s && NoNul(c)
    ensures |c| < |s| ==> s[|c|] == NUL
  {
    if |s| == 0 || s[0] == NUL then [] else [s[0]] + CString(s[1..])
  }
}
