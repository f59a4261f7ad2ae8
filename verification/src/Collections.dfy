/** Options and sequence vocabulary shared by the models. */
module Collections {
  datatype Option<+T> = None | Some(value: T)

  function Lookup<K, V>(m: map<K, V>, k: K): Option<V> {
    if k in m then Some(m[k]) else None
  }

  lemma PutNew<K, V>(m: map<K, V>, k: K, v: V)
    requires k !in m
    ensures |m[k := v]| == |m| + 1
  {
    assert m[k := v].Keys == m.Keys + {k};
    assert |m[k := v].Keys| == |m.Keys| + 1;
  }

  function Front<T>(s: seq<T>): seq<T>
    requires s != []
  {
    s[..|s| - 1]
  }

  function Last<T>(s: seq<T>): T
    requires s != []
  {
    s[|s| - 1]
  }

  lemma FrontOfAppend<T>(s: seq<T>, x: T)
    ensures Front(s + [x]) == s && Last(s + [x]) == x
  {
  }

  function Map<A, B>(f: A -> B, s: seq<A>): (r: seq<B>)
    ensures |r| == |s|
    ensures forall i :: 0 <= i < |s| ==> r[i] == f(s[i])
  {
    seq(|s|, i requires 0 <= i < |s| => f(s[i]))
  }

  lemma MapAppend<A, B>(f: A -> B, a: seq<A>, b: seq<A>)
    ensures Map(f, a + b) == Map(f, a) + Map(f, b)
  {
  }

  /** Mapping one element more of a prefix. */
  lemma MapPrefix<A, B>(f: A -> B, s: seq<A>, i: nat)
    requires i < |s|
    ensures s[..i + 1] == s[..i] + [s[i]]
    ensures Map(f, s[..i + 1]) == Map(f, s[..i]) + [f(s[i])]
    ensures Front(Map(f, s[..i + 1])) == Map(f, s[..i]) && Last(Map(f, s[..i + 1])) == f(s[i])
  {
  }

  /** Equal contents have equal images. */
  lemma {:induction false} MapMultiset<A, B>(f: A -> B, a: seq<A>, b: seq<A>)
    requires multiset(a) == multiset(b)
    ensures multiset(Map(f, a)) == multiset(Map(f, b))
  {
    hide Map;
    if a == [] {
      assert |multiset(b)| == 0;
    } else {
      var n := |a| - 1;
      assert a[n] in multiset(b);
      var i :| 0 <= i < |b| && b[i] == a[n];
      Without(f, a, n);
      Without(f, b, i);
      SameRemoved(a, n, b, i);
      MapMultiset(f, a[..n] + a[n + 1..], b[..i] + b[i + 1..]);
    }
  }

  lemma SameRemoved<T>(a: seq<T>, i: nat, b: seq<T>, j: nat)
    requires i < |a| && j < |b| && a[i] == b[j] && multiset(a) == multiset(b)
    ensures multiset(a[..i] + a[i + 1..]) == multiset(b[..j] + b[j + 1..])
  {
    Apart(a, i);
    Apart(b, j);
    var x := multiset{a[i]};
    assert multiset(a[..i] + a[i + 1..]) == multiset(a) - x;
    assert multiset(b[..j] + b[j + 1..]) == multiset(b) - x;
  }

  lemma Without<A, B>(f: A -> B, s: seq<A>, i: nat)
    requires i < |s|
    ensures multiset(s) == multiset(s[..i] + s[i + 1..]) + multiset{s[i]}
    ensures multiset(Map(f, s)) == multiset(Map(f, s[..i] + s[i + 1..])) + multiset{f(s[i])}
  {
    Apart(s, i);
    Apart(Map(f, s), i);
    assert Map(f, s)[..i] + Map(f, s)[i + 1..] == Map(f, s[..i] + s[i + 1..]);
  }

  lemma Apart<T>(s: seq<T>, i: nat)
    requires i < |s|
    ensures multiset(s) == multiset(s[..i] + s[i + 1..]) + multiset{s[i]}
  {
    assert s == s[..i] + [s[i]] + s[i + 1..];
  }

  /** The image of a whole is made up of the images of its parts. */
  lemma MapParts<A, B>(f: A -> B, whole: seq<A>, a: seq<A>, b: seq<A>, c: seq<A>)
    requires multiset(whole) == multiset(a) + multiset(b) + multiset(c)
    ensures multiset(Map(f, whole)) == multiset(Map(f, a)) + multiset(Map(f, b)) + multiset(Map(f, c))
  {
    hide Map;
    MapMultiset(f, whole, a + b + c);
    MapAppend(f, a + b, c);
    MapAppend(f, a, b);
  }

  /** The last `n` elements, or all of them when there are fewer. */
  function Tail<T>(s: seq<T>, n: nat): seq<T> {
    if |s| <= n then s else s[|s| - n..]
  }

  lemma TailEnds<T>(s: seq<T>, n: nat)
    ensures |Tail(s, n)| == (if |s| <= n then |s| else n) && Tail(s, n) == s[|s| - |Tail(s, n)|..]
  {
  }

  /** Keeping only a tail before appending loses nothing that the final tail would keep. */
  lemma TailOfTail<T>(a: seq<T>, b: seq<T>, n: nat)
    ensures Tail(Tail(a, n) + b, n) == Tail(a + b, n)
  {
  }

  /** `a` is obtained from `b` by deleting elements. */
  ghost predicate Subsequence<T>(a: seq<T>, b: seq<T>) {
    if b == [] then a == []
    else Subsequence(a, Front(b)) || (a != [] && Last(a) == Last(b) && Subsequence(Front(a), Front(b)))
  }

  lemma {:induction false} SubsequenceSkip<T>(a: seq<T>, b: seq<T>, c: seq<T>)
    requires Subsequence(a, b)
    ensures Subsequence(a, b + c)
  {
    if c == [] {
      assert b + c == b;
    } else {
      SubsequenceSkip(a, b, Front(c));
      assert Front(b + c) == b + Front(c);
    }
  }

  lemma {:induction false} SubsequenceKeep<T>(a: seq<T>, b: seq<T>, c: seq<T>)
    requires Subsequence(a, b)
    ensures Subsequence(a + c, b + c)
  {
    SubsequenceSelf(c);
    SubsequenceConcat(a, b, c, c);
  }

  lemma {:induction false} SubsequenceSelf<T>(s: seq<T>)
    ensures Subsequence(s, s)
  {
    if s != [] {
      SubsequenceSelf(Front(s));
    }
  }

  lemma {:induction false} SubsequenceConcat<T>(a: seq<T>, b: seq<T>, c: seq<T>, d: seq<T>)
    requires Subsequence(a, b) && Subsequence(c, d)
    ensures Subsequence(a + c, b + d)
  {
    if d == [] {
      assert a + c == a && b + d == b;
    } else {
      assert Front(b + d) == b + Front(d);
      if Subsequence(c, Front(d)) {
        SubsequenceConcat(a, b, c, Front(d));
      } else {
        SubsequenceConcat(a, b, Front(c), Front(d));
        assert Front(a + c) == a + Front(c);
      }
    }
  }
}
