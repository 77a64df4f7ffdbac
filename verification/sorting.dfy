/**
 * Ordering of `(key, amount)` lists by amount, highest first: what
 * `List.Sort((a, b) => b.x.CompareTo(a.x))` and `OrderByDescending(x => x.Value)`
 * produce, up to the order among equal amounts.
 */
module Sorting {

  predicate SortedDescending<K>(s: seq<(K, real)>) {
    forall i, j :: 0 <= i < j < |s| ==> s[i].1 >= s[j].1
  }

  /** No key occurs twice. */
  predicate KeysDistinct<K(==)>(s: seq<(K, real)>) {
    forall i, j :: 0 <= i < j < |s| ==> s[i].0 != s[j].0
  }

  /** Inserts `x` after every entry whose amount is at least its own. */
  method Insert<K>(t: seq<(K, real)>, x: (K, real)) returns (u: seq<(K, real)>, p: nat)
    requires SortedDescending(t)
    ensures p <= |t| && u == t[..p] + [x] + t[p..]
    ensures SortedDescending(u)
  {
    p := 0;
    while p < |t| && t[p].1 >= x.1
      invariant p <= |t|
      invariant forall i :: 0 <= i < p ==> t[i].1 >= x.1
    {
      p := p + 1;
    }
    u := t[..p] + [x] + t[p..];
    assert forall i :: p <= i < |t| ==> t[i].1 < x.1 by {
      if p < |t| {
        assert forall i :: p <= i < |t| ==> t[p].1 >= t[i].1;
      }
    }
    assert forall i :: 0 <= i < |u| ==> u[i] == (if i < p then t[i] else if i == p then x else t[i - 1]);
  }

  /** A permutation of `s` in non-increasing order of amount. */
  method SortDescending<K(==)>(s: seq<(K, real)>) returns (t: seq<(K, real)>)
    ensures SortedDescending(t)
    ensures multiset(t) == multiset(s)
    ensures KeysDistinct(s) ==> KeysDistinct(t)
  {
    t := [];
    for i := 0 to |s|
      invariant SortedDescending(t)
      invariant multiset(t) == multiset(s[..i])
    {
      var u, p := Insert(t, s[i]);
      assert t == t[..p] + t[p..];
      assert s[..i + 1] == s[..i] + [s[i]];
      t := u;
    }
    assert s[..|s|] == s;
    if KeysDistinct(s) {
      PermutationKeepsKeysDistinct(s, t);
    }
  }

  /** With distinct keys, no entry occurs twice. */
  lemma {:induction false} DistinctKeysOccurOnce<K>(s: seq<(K, real)>, e: (K, real))
    requires KeysDistinct(s)
    ensures multiset(s)[e] <= 1
    decreases |s|
  {
    if s != [] {
      var init := s[..|s| - 1];
      assert s == init + [s[|s| - 1]];
      assert KeysDistinct(init);
      DistinctKeysOccurOnce(init, e);
      if e == s[|s| - 1] {
        assert e !in init;
      }
    }
  }

  lemma OccursTwice<K>(t: seq<(K, real)>, i: nat, j: nat)
    requires i < j < |t| && t[i] == t[j]
    ensures multiset(t)[t[i]] >= 2
  {
    assert t == t[..j] + [t[j]] + t[j + 1..];
    assert t[..j][i] == t[i];
  }

  /** Reordering a list does not make two of its keys equal. */
  lemma PermutationKeepsKeysDistinct<K>(s: seq<(K, real)>, t: seq<(K, real)>)
    requires multiset(t) == multiset(s) && KeysDistinct(s)
    ensures KeysDistinct(t)
  {
    forall i, j | 0 <= i < j < |t|
      ensures t[i].0 != t[j].0
    {
      if t[i].0 == t[j].0 {
        assert t[i] in multiset(s) && t[j] in multiset(s);
        var a :| 0 <= a < |s| && s[a] == t[i];
        var b :| 0 <= b < |s| && s[b] == t[j];
        if a == b {
          OccursTwice(t, i, j);
          DistinctKeysOccurOnce(s, t[i]);
          assert false;
        }
      }
    }
  }

  /** A permutation keeps the entries: the same ones, each as often. */
  lemma PermutationKeepsEntries<K>(s: seq<(K, real)>, t: seq<(K, real)>)
    requires multiset(t) == multiset(s)
    ensures forall e :: e in t <==> e in s
  {
    forall e
      ensures e in t <==> e in s
    {
      assert e in t <==> e in multiset(t);
      assert e in s <==> e in multiset(s);
    }
  }
}
