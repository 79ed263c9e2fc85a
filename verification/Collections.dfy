/** Ordered iteration over finite maps and the counting facts the state machines rely on. */
module Collections {

  datatype Option<+T> = None | Some(value: T)

  /** The elements of a sequence. */
  function Elems<T>(q: seq<T>): set<T> {
    set x | x in q
  }

  /** Names a pair of positions; facts about all pairs are used only for pairs so named. */
  predicate Before(i: int, j: int) {
    0 <= i < j
  }

  predicate NoDup<T(==)>(q: seq<T>) {
    forall i: nat, j: nat {:trigger Before(i, j)} | i < |q| && j < |q| && Before(i, j) :: q[i] != q[j]
  }

  predicate Increasing(q: seq<nat>) {
    forall i: nat, j: nat {:trigger Before(i, j)} | i < |q| && j < |q| && Before(i, j) :: q[i] < q[j]
  }

  function MinOf(s: set<nat>): (m: nat)
    requires s != {}
    ensures m in s && forall x | x in s :: m <= x
  {
    MinExists(s);
    var m :| m in s && forall x | x in s :: m <= x;
    m
  }

  lemma {:induction false} MinExists(s: set<nat>)
    requires s != {}
    ensures exists m :: m in s && forall x | x in s :: m <= x
    decreases |s|
  {
    var a :| a in s;
    var rest := s - {a};
    if rest == {} {
      assert s == {a};
    } else {
      MinExists(rest);
      var b :| b in rest && forall x | x in rest :: b <= x;
      var m := if a < b then a else b;
      assert forall x | x in s :: x == a || x in rest;
      assert m in s && forall x | x in s :: m <= x;
    }
  }

  predicate Lists(q: seq<nat>, s: set<nat>) {
    && (forall x | x in q :: x in s)
    && (forall x | x in s :: x in q)
    && |q| == |s|
    && Increasing(q)
  }

  /** The iteration order of a `BTreeMap`/`BTreeSet`: its keys, ascending. */
  function Sorted(s: set<nat>): (q: seq<nat>)
    ensures Lists(q, s)
  {
    SortedExists(s);
    SortedUnique(s);
    var q :| Lists(q, s);
    q
  }

  lemma {:induction false} SortedExists(s: set<nat>)
    ensures exists q :: Lists(q, s)
    decreases |s|
  {
    if s == {} {
      assert Lists([], s);
    } else {
      var m := MinOf(s);
      SortedExists(s - {m});
      var rest :| Lists(rest, s - {m});
      var q := [m] + rest;
      forall i: nat, j: nat | i < |q| && j < |q| && Before(i, j) ensures q[i] < q[j] {
        assert rest[j - 1] in rest;
        assert i > 0 ==> Before(i - 1, j - 1);
      }
      assert Lists(q, s);
    }
  }

  lemma SortedUnique(s: set<nat>)
    ensures forall p, q | Lists(p, s) && Lists(q, s) :: p == q
  {
    forall p, q | Lists(p, s) && Lists(q, s) ensures p == q {
      SameListing(p, q, s);
    }
  }

  lemma HeadIsLeast(q: seq<nat>, s: set<nat>, x: nat)
    requires Lists(q, s) && x in s
    ensures |q| > 0 && q[0] <= x
  {
    var i :| 0 <= i < |q| && q[i] == x;
    assert i > 0 ==> Before(0, i);
  }

  lemma TailLists(q: seq<nat>, s: set<nat>)
    requires Lists(q, s) && |q| > 0
    ensures q[0] in s && Lists(q[1..], s - {q[0]})
  {
    var rest := q[1..];
    assert q[0] in q;
    forall x | x in rest ensures x in s - {q[0]} {
      var i :| 0 <= i < |rest| && rest[i] == x;
      assert x == q[i + 1];
      assert Before(0, i + 1);
    }
    forall i: nat, j: nat | i < |rest| && j < |rest| && Before(i, j) ensures rest[i] < rest[j] {
      assert Before(i + 1, j + 1);
    }
  }

  lemma {:induction false} SameListing(p: seq<nat>, q: seq<nat>, s: set<nat>)
    requires Lists(p, s) && Lists(q, s)
    ensures p == q
    decreases |p|
  {
    if p != [] {
      TailLists(p, s);
      TailLists(q, s);
      HeadIsLeast(p, s, q[0]);
      HeadIsLeast(q, s, p[0]);
      SameListing(p[1..], q[1..], s - {p[0]});
    }
  }

  /** The values found under a list of keys, in order. */
  function Images<K, V>(keys: seq<K>, m: map<K, V>): (q: seq<V>)
    requires forall k | k in keys :: k in m
    ensures |q| == |keys|
    ensures forall i :: 0 <= i < |q| ==> q[i] == m[keys[i]]
  {
    seq(|keys|, i requires 0 <= i < |keys| => m[keys[i]])
  }

  /** The values of a map with multiplicity: the free commutative sum of its values. */
  function Sum<V>(m: map<nat, V>): multiset<V> {
    multiset(Images(Sorted(m.Keys), m))
  }

  /** The numbers below `n`. */
  function Below(n: nat): (s: set<nat>)
    ensures |s| == n && forall i: nat :: i in s <==> i < n
  {
    if n == 0 then {} else Below(n - 1) + {n - 1}
  }

  lemma SubsetOfSameSize<T>(a: set<T>, b: set<T>)
    requires a <= b && |a| == |b|
    ensures a == b
  {
    assert |b - a| == |b| - |a|;
  }

  lemma SubsetSize<T>(a: set<T>, b: set<T>)
    requires a <= b
    ensures |a| <= |b|
  {
    assert |b - a| == |b| - |a|;
  }

  lemma NewKey<V>(m: map<nat, V>, k: nat, v: V)
    requires k !in m
    ensures |m[k := v]| == |m| + 1
  {
    assert m[k := v].Keys == m.Keys + {k};
    assert |m[k := v]| == |m[k := v].Keys| && |m| == |m.Keys|;
  }

  lemma {:induction false} NoDupSize<T>(q: seq<T>)
    requires NoDup(q)
    ensures |Elems(q)| == |q|
    decreases |q|
  {
    if q != [] {
      var last := |q| - 1;
      var front := q[..last];
      assert forall i: nat, j: nat | i < |front| && j < |front| && Before(i, j) :: front[i] == q[i] && front[j] == q[j];
      NoDupSize(front);
      forall i: nat | i < |front| ensures front[i] != q[last] {
        assert Before(i, last);
      }
      assert Elems(q) == Elems(front) + {q[last]};
    }
  }

  lemma ElemsInDomain<V>(p: seq<nat>, q: seq<nat>, m: map<nat, V>)
    requires Elems(p) == Elems(q) && forall k | k in p :: k in m
    ensures forall k | k in q :: k in m
  {
    assert forall k | k in q :: k in Elems(p);
  }

  /** Summing in any duplicate-free order over the same keys gives the same total. */
  lemma {:induction false} SameElemsSameTotal<V>(p: seq<nat>, q: seq<nat>, m: map<nat, V>)
    requires NoDup(p) && NoDup(q) && Elems(p) == Elems(q)
    requires forall k | k in p :: k in m
    ensures forall k | k in q :: k in m
    ensures multiset(Images(p, m)) == multiset(Images(q, m))
    decreases |p|
  {
    hide NoDup;
    ElemsInDomain(p, q, m);
    NoDupSize(p);
    NoDupSize(q);
    if p != [] {
      assert p[0] in Elems(q);
      var i :| 0 <= i < |q| && q[i] == p[0];
      var p', q' := p[..0] + p[1..], q[..i] + q[i + 1..];
      RemoveAt(p, 0);
      RemoveAt(q, i);
      SameElemsSameTotal(p', q', m);
      ImagesWithout(p, 0, m);
      ImagesWithout(q, i, m);
    }
  }

  lemma RemoveAt(q: seq<nat>, i: nat)
    requires i < |q| && NoDup(q)
    ensures NoDup(q[..i] + q[i + 1..])
    ensures Elems(q[..i] + q[i + 1..]) == Elems(q) - {q[i]}
  {
    var r := q[..i] + q[i + 1..];
    forall a: nat, b: nat | a < |r| && b < |r| && Before(a, b) ensures r[a] != r[b] {
      var a', b' := if a < i then a else a + 1, if b < i then b else b + 1;
      assert r[a] == q[a'] && r[b] == q[b'];
      assert Before(a', b');
    }
    forall j: nat | j < |r| ensures r[j] in Elems(q) && r[j] != q[i] {
      var j' := if j < i then j else j + 1;
      assert r[j] == q[j'];
      assert if j' < i then Before(j', i) else Before(i, j');
    }
    forall x | x in q && x != q[i] ensures x in r {
      var j :| 0 <= j < |q| && q[j] == x;
      assert r[if j < i then j else j - 1] == x;
    }
  }

  lemma ImagesWithout<V>(q: seq<nat>, i: nat, m: map<nat, V>)
    requires i < |q| && forall k | k in q :: k in m
    ensures multiset(Images(q, m)) == multiset{m[q[i]]} + multiset(Images(q[..i] + q[i + 1..], m))
  {
    var r := q[..i] + q[i + 1..];
    var a := Images(q, m);
    var b := Images(r, m);
    assert a == a[..i] + [a[i]] + a[i + 1..];
    assert b == a[..i] + a[i + 1..];
  }

  /** `Sum` is the total over any duplicate-free listing of the keys. */
  lemma SumInAnyOrder<V>(keys: seq<nat>, m: map<nat, V>)
    requires NoDup(keys) && Elems(keys) == m.Keys
    ensures forall k | k in keys :: k in m
    ensures Sum(m) == multiset(Images(keys, m))
  {
    var sorted := Sorted(m.Keys);
    assert forall k | k in keys :: k in Elems(keys);
    assert forall i: nat, j: nat | i < |sorted| && j < |sorted| && Before(i, j) :: sorted[i] < sorted[j];
    assert Elems(sorted) == m.Keys;
    SameElemsSameTotal(keys, sorted, m);
  }

  function Backwards<T>(q: seq<T>): seq<T> {
    if q == [] then [] else Backwards(q[1..]) + [q[0]]
  }

  lemma {:induction false} BackwardsLength<T>(q: seq<T>)
    ensures |Backwards(q)| == |q|
    decreases |q|
  {
    if q != [] { BackwardsLength(q[1..]); }
  }

  lemma {:induction false} BackwardsAppend<T>(p: seq<T>, q: seq<T>)
    ensures Backwards(p + q) == Backwards(q) + Backwards(p)
    decreases |p|
  {
    if p == [] {
      assert p + q == q;
    } else {
      assert (p + q)[1..] == p[1..] + q;
      BackwardsAppend(p[1..], q);
    }
  }

  lemma BackwardsOne<T>(x: T)
    ensures Backwards([x]) == [x]
  {
    assert [x][1..] == [];
  }

  lemma {:induction false} BackwardsTwice<T>(q: seq<T>)
    ensures Backwards(Backwards(q)) == q && |Backwards(q)| == |q|
    decreases |q|
  {
    BackwardsLength(q);
    if q != [] {
      BackwardsTwice(q[1..]);
      BackwardsAppend(Backwards(q[1..]), [q[0]]);
      BackwardsOne(q[0]);
      assert q == [q[0]] + q[1..];
    }
  }

  lemma {:induction false} BackwardsDropsLast<T>(q: seq<T>)
    requires q != []
    ensures Backwards(q) == [q[|q| - 1]] + Backwards(q[..|q| - 1])
    decreases |q|
  {
    if |q| == 1 {
      assert q[..0] == [] && q[1..] == [];
    } else {
      BackwardsDropsLast(q[1..]);
      assert q[1..][..|q| - 2] == q[..|q| - 1][1..];
    }
  }
}
