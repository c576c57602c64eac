/** Generic facts about sequences that the batch proofs rely on. */
module Seqs {

  /** The sequence of `f` applied to every element of `s`, in order. */
  function Map<A, B>(f: A -> B, s: seq<A>): (r: seq<B>)
    ensures |r| == |s|
  {
    if s == [] then [] else [f(s[0])] + Map(f, s[1..])
  }

  /** Element `k` of the mapped sequence is `f` of element `k`. */
  lemma {:induction false} MapAt<A, B>(f: A -> B, s: seq<A>, k: nat)
    requires k < |s|
    ensures Map(f, s)[k] == f(s[k])
    decreases |s|
  {
    if k > 0 {
      MapAt(f, s[1..], k - 1);
    }
  }

  /** Mapping distributes over concatenation. */
  lemma {:induction false} MapConcat<A, B>(f: A -> B, s: seq<A>, t: seq<A>)
    ensures Map(f, s + t) == Map(f, s) + Map(f, t)
    decreases |s|
  {
    if s == [] {
      assert s + t == t;
    } else {
      assert (s + t)[0] == s[0] && (s + t)[1..] == s[1..] + t;
      MapConcat(f, s[1..], t);
    }
  }

  /** Taking out the element at position `j` takes one copy of it out of the multiset. */
  lemma RemoveAt<A>(t: seq<A>, j: nat)
    requires j < |t|
    ensures multiset(t[..j] + t[j + 1..]) == multiset(t) - multiset{t[j]}
  {
    assert t == t[..j] + [t[j]] + t[j + 1..];
  }

  /** Mapping a sequence split around position `j` maps each part. */
  lemma MapAround<A, B>(f: A -> B, t: seq<A>, j: nat)
    requires j < |t|
    ensures Map(f, t) == Map(f, t[..j]) + ([f(t[j])] + Map(f, t[j + 1..]))
  {
    var front, back := t[..j], t[j + 1..];
    assert t == front + ([t[j]] + back);
    MapConcat(f, front, [t[j]] + back);
    MapConcat(f, [t[j]], back);
    assert Map(f, [t[j]]) == [f(t[j])];
  }

  /** Mapping commutes with taking out the element at position `j`. */
  lemma MapRemoveAt<A, B>(f: A -> B, t: seq<A>, j: nat)
    requires j < |t|
    ensures multiset(Map(f, t)) == multiset(Map(f, t[..j] + t[j + 1..])) + multiset{f(t[j])}
  {
    var mf, mb := Map(f, t[..j]), Map(f, t[j + 1..]);
    MapAround(f, t, j);
    MapConcat(f, t[..j], t[j + 1..]);
    assert multiset(Map(f, t)) == multiset(mf) + (multiset{f(t[j])} + multiset(mb));
  }

  /** Two sequences holding the same elements with the same multiplicities
      (one is a permutation of the other) still do so after mapping. */
  lemma {:induction false} MapPermutation<A, B>(f: A -> B, s: seq<A>, t: seq<A>)
    requires multiset(s) == multiset(t)
    ensures multiset(Map(f, s)) == multiset(Map(f, t))
    decreases |s|
  {
    if |s| == 0 {
      assert |t| == |multiset(t)| == 0;
    } else {
      var x := s[0];
      assert x in multiset(t);
      var j :| 0 <= j < |t| && t[j] == x;
      var rest := t[..j] + t[j + 1..];
      RemoveAt(t, j);
      assert multiset(s[1..]) == multiset(rest) by {
        assert s == [x] + s[1..];
      }
      MapPermutation(f, s[1..], rest);
      MapRemoveAt(f, t, j);
      assert Map(f, s) == [f(x)] + Map(f, s[1..]);
      assert multiset(Map(f, s)) == multiset{f(x)} + multiset(Map(f, s[1..]));
    }
  }
}
