/** Families of lists, as values: which head owns which sequence of entries.

    Every list in the kernel (run queues, wait queues, hash buckets) is a ring around a head.
    The functions here are the one specification of the list operations; the pointer
    code of list.h, the dispatcher and the multi-core model are all stated in terms of them.
 */
module Rings {
  datatype Option<+T> = None | Some(value: T)

  /** The entries at `h`, front first; a head that was never used owns nothing. */
  function At<H, N>(m: map<H, seq<N>>, h: H): seq<N> {
    if h in m then m[h] else []
  }

  function Prepend<H, N>(m: map<H, seq<N>>, h: H, n: N): map<H, seq<N>> {
    m[h := [n] + At(m, h)]
  }

  function Append<H, N>(m: map<H, seq<N>>, h: H, n: N): map<H, seq<N>> {
    m[h := At(m, h) + [n]]
  }

  function Without<N>(s: seq<N>, i: nat): seq<N>
    requires i < |s|
  {
    s[..i] + s[i + 1..]
  }

  function Drop<H, N>(m: map<H, seq<N>>, h: H, i: nat): map<H, seq<N>>
    requires i < |At(m, h)|
  {
    m[h := Without(At(m, h), i)]
  }

  /** Takes entry `i` of `from` and puts it at the tail of `to`. */
  function Move<H, N>(m: map<H, seq<N>>, from: H, i: nat, to: H): map<H, seq<N>>
    requires i < |At(m, from)|
  {
    Append(Drop(m, from, i), to, At(m, from)[i])
  }

  /** Every entry of every list. */
  function Members<H, N>(m: map<H, seq<N>>): set<N> {
    set h, n | h in m && n in m[h] :: n
  }

  /** `(h, i)` is the position of some entry. */
  predicate Filled<H, N>(m: map<H, seq<N>>, h: H, i: int) {
    h in m && 0 <= i < |m[h]|
  }

  /** No entry is in two lists, or twice in one. */
  ghost predicate Separate<H, N>(m: map<H, seq<N>>) {
    forall h, i, k, j {:trigger Filled(m, h, i), Filled(m, k, j)} ::
      h in m && k in m && Filled(m, h, i) && Filled(m, k, j) && m[h][i] == m[k][j] ==> h == k && i == j
  }

  lemma MemberAt<H, N>(m: map<H, seq<N>>, h: H, i: nat)
    requires i < |At(m, h)|
    ensures At(m, h)[i] in Members(m)
  {
    assert h in m && m[h][i] in m[h];
  }

  lemma WhereIs<H, N>(m: map<H, seq<N>>, n: N) returns (h: H, i: nat)
    requires n in Members(m)
    ensures Filled(m, h, i) && m[h][i] == n
  {
    h :| h in m && n in m[h];
    i :| 0 <= i < |m[h]| && m[h][i] == n;
  }

  lemma UniquePlace<H, N>(m: map<H, seq<N>>, h: H, i: nat, k: H, j: nat)
    requires Separate(m)
    requires i < |At(m, h)| && j < |At(m, k)| && At(m, h)[i] == At(m, k)[j]
    ensures h == k && i == j
  {
    assert Filled(m, h, i) && Filled(m, k, j);
  }

  lemma AppendKeeps<H, N>(m: map<H, seq<N>>, h: H, n: N)
    requires Separate(m) && n !in Members(m)
    ensures Separate(Append(m, h, n))
    ensures Members(Append(m, h, n)) == Members(m) + {n}
  {
    var r := Append(m, h, n);
    forall k, i | k in r && Filled(r, k, i)
      ensures r[k][i] != n ==> Filled(m, k, i) && m[k][i] == r[k][i]
      ensures r[k][i] == n ==> k == h && i == |At(m, h)| {
      if i < |At(m, k)| { MemberAt(m, k, i); assert Filled(m, k, i); }
    }
    forall x ensures x in Members(r) <==> x in Members(m) + {n} {
      if x in Members(m) {
        var k, i := WhereIs(m, x);
        assert r[k][i] == x;
        assert x in r[k];
      }
      if x == n { assert r[h][|At(m, h)|] == n; assert n in r[h]; }
    }
  }

  lemma PrependKeeps<H, N>(m: map<H, seq<N>>, h: H, n: N)
    requires Separate(m) && n !in Members(m)
    ensures Separate(Prepend(m, h, n))
    ensures Members(Prepend(m, h, n)) == Members(m) + {n}
  {
    var r := Prepend(m, h, n);
    forall k, i | k in r && Filled(r, k, i)
      ensures r[k][i] != n ==> var j := if k == h then i - 1 else i; Filled(m, k, j) && m[k][j] == r[k][i]
      ensures r[k][i] == n ==> k == h && i == 0 {
      if k != h { MemberAt(m, k, i); assert Filled(m, k, i); }
      if k == h && i > 0 { MemberAt(m, h, i - 1); assert Filled(m, h, i - 1); }
    }
    forall x ensures x in Members(r) <==> x in Members(m) + {n} {
      if x in Members(m) {
        var k, i := WhereIs(m, x);
        assert r[k][if k == h then i + 1 else i] == x;
        assert x in r[k];
      }
      if x == n { assert r[h][0] == n; assert n in r[h]; }
    }
  }

  lemma DropKeeps<H, N>(m: map<H, seq<N>>, h: H, i: nat)
    requires Separate(m) && i < |At(m, h)|
    ensures Separate(Drop(m, h, i))
    ensures Members(Drop(m, h, i)) == Members(m) - {At(m, h)[i]}
  {
    var r := Drop(m, h, i);
    var n := m[h][i];
    assert Filled(m, h, i);
    forall k, j | k in r && Filled(r, k, j)
      ensures
        var was := if k == h && j >= i then j + 1 else j;
        Filled(m, k, was) && m[k][was] == r[k][j] && r[k][j] != n
    {
      assert Filled(m, k, if k == h && j >= i then j + 1 else j);
    }
    forall x ensures x in Members(r) <==> x in Members(m) - {n} {
      if x in Members(m) && x != n {
        var k, j := WhereIs(m, x);
        assert r[k][if k == h && j > i then j - 1 else j] == x;
        assert x in r[k];
      }
      if x in Members(r) {
        var k, j := WhereIs(r, x);
        assert x in m[k];
      }
    }
  }

  /** Moving a task never duplicates it, never loses it, and touches no other task. */
  lemma MoveKeeps<H, N>(m: map<H, seq<N>>, from: H, i: nat, to: H)
    requires Separate(m) && i < |At(m, from)|
    ensures Separate(Move(m, from, i, to))
    ensures Members(Move(m, from, i, to)) == Members(m)
  {
    DropKeeps(m, from, i);
    MemberAt(m, from, i);
    AppendKeeps(Drop(m, from, i), to, At(m, from)[i]);
  }

  lemma Somewhere<H, N>(m: map<H, seq<N>>, n: N)
    requires n in Members(m)
    ensures exists h, i :: Filled(m, h, i) && m[h][i] == n
  {
    var h, i := WhereIs(m, n);
    assert Filled(m, h, i);
  }

  /** list_del_init: the entry is taken out of whatever list it is in; nothing happens if it is in none. */
  ghost function Detached<H, N>(m: map<H, seq<N>>, n: N): map<H, seq<N>> {
    if n in Members(m) then
      Somewhere(m, n);
      var h, i :| Filled(m, h, i) && m[h][i] == n;
      Drop(m, h, i)
    else m
  }

  lemma DetachedAt<H, N>(m: map<H, seq<N>>, h: H, i: nat)
    requires Separate(m) && i < |At(m, h)|
    ensures Detached(m, At(m, h)[i]) == Drop(m, h, i)
  {
    var n := At(m, h)[i];
    MemberAt(m, h, i);
    forall k, j | Filled(m, k, j) && m[k][j] == n ensures k == h && j == i { UniquePlace(m, k, j, h, i); }
  }

  lemma DetachedKeeps<H, N>(m: map<H, seq<N>>, n: N)
    requires Separate(m)
    ensures Separate(Detached(m, n)) && Members(Detached(m, n)) == Members(m) - {n}
    ensures Detached(m, n).Keys == m.Keys
  {
    if n in Members(m) {
      var h, i := WhereIs(m, n);
      DetachedAt(m, h, i);
      DropKeeps(m, h, i);
    }
  }

  // ---------------------------------------------------------------- counting

  /** The number of entries in all the lists together. */
  ghost function Total<H, N>(m: map<H, seq<N>>): nat
    decreases |m|
  {
    if m == map[] then 0 else
      var h :| h in m;
      assert |m - {h}| < |m| by { assert (m - {h}).Keys == m.Keys - {h}; }
      |m[h]| + Total(m - {h})
  }

  /** The count does not depend on the order in which the lists are visited. */
  lemma {:induction false} TotalSplit<H, N>(m: map<H, seq<N>>, h: H)
    ensures Total(m) == |At(m, h)| + Total(m - {h})
    decreases |m|
  {
    if h !in m {
      assert m - {h} == m;
    } else {
      var g :| g in m && Total(m) == |m[g]| + Total(m - {g});
      if g != h {
        assert (m - {g}).Keys == m.Keys - {g};
        assert (m - {h}).Keys == m.Keys - {h};
        TotalSplit(m - {g}, h);
        TotalSplit(m - {h}, g);
        assert m - {g} - {h} == m - {h} - {g};
      }
    }
  }

  /** Setting one list aside leaves the others disjoint, and disjoint from it. */
  lemma SetAside<H, N>(m: map<H, seq<N>>, h: H)
    requires Separate(m) && h in m
    ensures Separate(m - {h})
    ensures Members(m) == (set n | n in m[h]) + Members(m - {h})
    ensures (set n | n in m[h]) !! Members(m - {h})
    ensures forall i, j :: 0 <= i < j < |m[h]| ==> m[h][i] != m[h][j]
  {
    var rest := m - {h};
    forall k, i | k in rest && Filled(rest, k, i) ensures Filled(m, k, i) && rest[k][i] == m[k][i] {}
    forall n ensures n in Members(m) <==> n in m[h] || n in Members(rest) {
      if n in Members(m) && n !in m[h] {
        var k, i := WhereIs(m, n);
        assert n in rest[k];
      }
      if n in Members(rest) {
        var k, i := WhereIs(rest, n);
        assert n in m[k];
      }
    }
    forall n | n in Members(rest) ensures n !in m[h] {
      var k, i := WhereIs(rest, n);
      if n in m[h] {
        var j :| 0 <= j < |m[h]| && m[h][j] == n;
        UniquePlace(m, k, i, h, j);
        assert false;
      }
    }
    forall i, j | 0 <= i < j < |m[h]| ensures m[h][i] != m[h][j] {
      if m[h][i] == m[h][j] { UniquePlace(m, h, i, h, j); assert false; }
    }
  }

  lemma {:induction false} DisjointCount<H, N>(m: map<H, seq<N>>)
    requires Separate(m)
    ensures |Members(m)| == Total(m)
    decreases |m|
  {
    if m == map[] {
    } else {
      var h :| h in m;
      assert (m - {h}).Keys == m.Keys - {h};
      TotalSplit(m, h);
      SetAside(m, h);
      DisjointCount(m - {h});
      NoDupCount(m[h]);
    }
  }

  lemma {:induction false} NoDupCount<N>(s: seq<N>)
    requires forall i, j :: 0 <= i < j < |s| ==> s[i] != s[j]
    ensures |set n | n in s| == |s|
  {
    if s == [] {
    } else {
      var t := s[1..];
      NoDupCount(t);
      assert (set n | n in s) == {s[0]} + set n | n in t by {
        assert s == [s[0]] + t;
      }
    }
  }

  // ---------------------------------------------------------------- dealing tasks out to queues

  /** Appends each of `ns`, in order, to the list named beside it. */
  function Deal<H, N>(m: map<H, seq<N>>, ns: seq<N>, to: seq<H>): map<H, seq<N>>
    requires |ns| == |to|
  {
    if ns == [] then m else
      Append(Deal(m, ns[..|ns| - 1], to[..|to| - 1]), to[|to| - 1], ns[|ns| - 1])
  }

  /** The entries of `ns` that go to `h`, in their order. */
  ghost function Share<H, N>(ns: seq<N>, to: seq<H>, h: H): seq<N>
    requires |ns| == |to|
  {
    if ns == [] then [] else
      Share(ns[..|ns| - 1], to[..|to| - 1], h) + if to[|to| - 1] == h then [ns[|ns| - 1]] else []
  }

  /** Each queue receives exactly its share, behind what it held, in arrival order. */
  lemma {:induction false} DealAt<H, N>(m: map<H, seq<N>>, ns: seq<N>, to: seq<H>, h: H)
    requires |ns| == |to|
    ensures At(Deal(m, ns, to), h) == At(m, h) + Share(ns, to, h)
  {
    if ns != [] {
      DealAt(m, ns[..|ns| - 1], to[..|to| - 1], h);
    }
  }

  /** Dealing out one more entry is one append, whatever is done to a list it does not go to. */
  lemma DealMore<H, N>(m: map<H, seq<N>>, ns: seq<N>, to: seq<H>, h: H, kept: seq<N>, n: N, dest: H)
    requires |ns| == |to| && dest != h
    ensures Deal(m, ns + [n], to + [dest])[h := kept] == Append(Deal(m, ns, to)[h := kept], dest, n)
  {
    assert (ns + [n])[..|ns|] == ns && (to + [dest])[..|to|] == to;
  }

  lemma WithoutMiddle<N>(kept: seq<N>, n: N, rest: seq<N>)
    ensures Without(kept + [n] + rest, |kept|) == kept + rest && (kept + [n] + rest)[|kept|] == n
  {
  }

  lemma DropSet<H, N>(m: map<H, seq<N>>, h: H, s: seq<N>, i: nat)
    requires i < |s|
    ensures Drop(m[h := s], h, i) == m[h := Without(s, i)]
  {
  }

  /** ... and so is taking an entry out of a list and dealing it out. */
  lemma DealFrom<H, N>(m: map<H, seq<N>>, ns: seq<N>, to: seq<H>, h: H, kept: seq<N>, n: N, rest: seq<N>, dest: H)
    requires |ns| == |to| && dest != h
    ensures Move(Deal(m, ns, to)[h := kept + [n] + rest], h, |kept|, dest)
      == Deal(m, ns + [n], to + [dest])[h := kept + rest]
  {
    DealMore(m, ns, to, h, kept + rest, n, dest);
    WithoutMiddle(kept, n, rest);
    DropSet(Deal(m, ns, to), h, kept + [n] + rest, |kept|);
  }

  /** The first entry, for one. */
  lemma DealHead<H, N>(m: map<H, seq<N>>, ns: seq<N>, to: seq<H>, h: H, left: seq<N>, dest: H)
    requires |ns| == |to| && dest != h && left != []
    ensures Move(Deal(m, ns, to)[h := left], h, 0, dest) == Deal(m, ns + [left[0]], to + [dest])[h := left[1..]]
  {
    DealFrom(m, ns, to, h, [], left[0], left[1..], dest);
    assert [] + [left[0]] + left[1..] == left && [] + left[1..] == left[1..];
  }

  // ---------------------------------------------------------------- filtering

  function Filter<N>(s: seq<N>, f: N -> bool): seq<N> {
    if s == [] then [] else
      Filter(s[..|s| - 1], f) + if f(s[|s| - 1]) then [s[|s| - 1]] else []
  }

  /** The entries that do not satisfy `f`. */
  function Reject<N>(s: seq<N>, f: N -> bool): seq<N> {
    if s == [] then [] else
      Reject(s[..|s| - 1], f) + if f(s[|s| - 1]) then [] else [s[|s| - 1]]
  }

  lemma FilterStep<N>(s: seq<N>, k: nat, f: N -> bool)
    requires k < |s|
    ensures Filter(s[..k + 1], f) == Filter(s[..k], f) + if f(s[k]) then [s[k]] else []
    ensures Reject(s[..k + 1], f) == Reject(s[..k], f) + if f(s[k]) then [] else [s[k]]
  {
    assert s[..k + 1][..k] == s[..k];
  }

  lemma {:induction false} FilterAll<N>(s: seq<N>, f: N -> bool)
    requires forall n :: n in s ==> f(n)
    ensures Filter(s, f) == s && Reject(s, f) == []
  {
    if s != [] {
      FilterAll(s[..|s| - 1], f);
      assert s[|s| - 1] in s;
    }
  }

  /** Half-way through a walk over `s`: `kept` stay, `woken` have been taken out, `rest` are to come. */
  predicate Visited<N(==)>(s: seq<N>, k: nat, f: N -> bool, kept: seq<N>, rest: seq<N>, woken: seq<N>) {
    k <= |s| && rest == s[k..] && kept == Reject(s[..k], f) && woken == Filter(s[..k], f)
  }

  lemma VisitNext<N>(s: seq<N>, k: nat, f: N -> bool, kept: seq<N>, rest: seq<N>, woken: seq<N>)
    requires Visited(s, k, f, kept, rest, woken) == true && rest != []
    ensures if f(rest[0]) then Visited(s, k + 1, f, kept, rest[1..], woken + [rest[0]]) == true
      else Visited(s, k + 1, f, kept + [rest[0]], rest[1..], woken) == true
    ensures (kept + rest)[|kept|] == rest[0] && Without(kept + rest, |kept|) == kept + rest[1..]
    ensures kept + rest == kept + [rest[0]] + rest[1..]
  {
    FilterStep(s, k, f);
  }

  lemma VisitEnd<N>(s: seq<N>, k: nat, f: N -> bool, kept: seq<N>, rest: seq<N>, woken: seq<N>)
    requires Visited(s, k, f, kept, rest, woken) && rest == []
    ensures kept == Reject(s, f) && woken == Filter(s, f) && kept + rest == kept
  {
    assert s[..|s|] == s;
  }

  /** The entries that satisfy `f`, last first. */
  function TailFirst<N>(s: seq<N>, f: N -> bool): seq<N> {
    if s == [] then [] else
      (if f(s[|s| - 1]) then [s[|s| - 1]] else []) + TailFirst(s[..|s| - 1], f)
  }
}
