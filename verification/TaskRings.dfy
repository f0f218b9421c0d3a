/** The one-core scheduler on pointers: when the rings of a heap show the lists of the dispatcher, the pointer
    operations lead to rings that show what the dispatcher's operations lead to. */
module TaskRings {
  import opened Rings
  import opened Lists
  import opened Placement
  import opened Kernel
  import opened Dispatchers

  /** What each is mapped to: processes to their sched_list entries, or places to their list heads. */
  function Image<N, T>(s: seq<N>, f: N -> ListHead<T>): (r: seq<ListHead<T>>)
    ensures |r| == |s|
  {
    if s == [] then [] else Image(s[..|s| - 1], f) + [f(s[|s| - 1])]
  }

  lemma {:induction false} ImageAt<N, T>(s: seq<N>, f: N -> ListHead<T>, i: nat)
    requires i < |s|
    ensures Image(s, f)[i] == f(s[i])
  {
    if i < |s| - 1 { ImageAt(s[..|s| - 1], f, i); }
  }

  lemma ImageMore<N, T>(s: seq<N>, f: N -> ListHead<T>, n: N)
    ensures Image(s + [n], f) == Image(s, f) + [f(n)]
  {
    assert (s + [n])[..|s|] == s;
  }

  lemma ImageWithout<N, T>(s: seq<N>, f: N -> ListHead<T>, i: nat)
    requires i < |s|
    ensures Image(Without(s, i), f) == Without(Image(s, f), i)
  {
    forall j | 0 <= j < |s| - 1 ensures Image(Without(s, i), f)[j] == Without(Image(s, f), i)[j] {
      ImageWithoutAt(s, f, i, j);
    }
  }

  lemma ImageWithoutAt<N, T>(s: seq<N>, f: N -> ListHead<T>, i: nat, j: nat)
    requires i < |s| && j < |s| - 1
    ensures Image(Without(s, i), f)[j] == Without(Image(s, f), i)[j]
  {
    var k := if j < i then j else j + 1;
    WithoutAt(s, i, j);
    WithoutAt(Image(s, f), i, j);
    ImageAt(Without(s, i), f, j);
    ImageAt(s, f, k);
  }

  lemma WithoutAt<N>(s: seq<N>, i: nat, j: nat)
    requires i < |s| && j < |s| - 1
    ensures |Without(s, i)| == |s| - 1 && Without(s, i)[j] == s[if j < i then j else j + 1]
  {
  }

  lemma ImageLast<N, T>(s: seq<N>, f: N -> ListHead<T>)
    requires s != []
    ensures Image(s, f)[..|s| - 1] == Image(s[..|s| - 1], f) && Image(s, f)[|s| - 1] == f(s[|s| - 1])
  {
  }

  lemma FilterLast<N>(s: seq<N>, f: N -> bool)
    requires s != []
    ensures var front, n := s[..|s| - 1], s[|s| - 1];
      && Filter(s, f) == (if f(n) then Filter(front, f) + [n] else Filter(front, f))
      && Reject(s, f) == (if f(n) then Reject(front, f) else Reject(front, f) + [n])
  {
  }

  /** A test on entries that says of each process's entry what the other says of the process picks the same ones. */
  lemma {:induction false} ImageFilter<N, T>(s: seq<N>, f: N -> ListHead<T>, test: N -> bool,
                                             condition: ListHead<T> -> bool)
    requires forall n :: n in s ==> condition(f(n)) == test(n)
    ensures Filter(Image(s, f), condition) == Image(Filter(s, test), f)
    ensures Reject(Image(s, f), condition) == Image(Reject(s, test), f)
  {
    if s != [] {
      var front, n := s[..|s| - 1], s[|s| - 1];
      assert n in s;
      ImageLast(s, f);
      FilterLast(s, test);
      FilterLast(Image(s, f), condition);
      ImageFilter(front, f, test, condition);
      if test(n) { ImageMore(Filter(front, test), f, n); } else { ImageMore(Reject(front, test), f, n); }
    }
  }

  /** The rings of the heap are the lists: each at its head, with the entries of its processes. */
  ghost predicate Shows<H, N, T>(m: Heap<T>, lists: map<H, seq<N>>, head: H -> ListHead<T>, entry: N -> ListHead<T>) {
    && (forall h :: h in lists ==> head(h) in m && m[head(h)] == Image(lists[h], entry))
    && forall h, k :: h in lists && k in lists && head(h) == head(k) ==> h == k
  }

  lemma ShowsSet<H, N, T>(m: Heap<T>, lists: map<H, seq<N>>, head: H -> ListHead<T>, entry: N -> ListHead<T>, h: H,
                          s: seq<N>)
    requires Shows(m, lists, head, entry) && h in lists
    ensures Shows(m[head(h) := Image(s, entry)], lists[h := s], head, entry)
  {
  }

  lemma ShowsAppend<H, N, T>(m: Heap<T>, lists: map<H, seq<N>>, head: H -> ListHead<T>, entry: N -> ListHead<T>, h: H,
                             n: N)
    requires Shows(m, lists, head, entry) == true && h in lists
    ensures Shows(Append(m, head(h), entry(n)), Append(lists, h, n), head, entry) == true
  {
    ImageMore(lists[h], entry, n);
    ShowsSet(m, lists, head, entry, h, lists[h] + [n]);
  }

  lemma DealLast<H, N>(m: map<H, seq<N>>, ns: seq<N>, to: seq<H>, n: nat)
    requires |ns| == |to| == n + 1
    ensures Deal(m, ns, to) == Append(Deal(m, ns[..n], to[..n]), to[n], ns[n])
  {
  }

  /** Tasks are dealt out to lists that there are. */
  ghost predicate Known<H, N>(to: seq<H>, lists: map<H, seq<N>>) {
    forall i :: 0 <= i < |to| ==> to[i] in lists
  }

  lemma {:induction false} DealKeys<H, N>(lists: map<H, seq<N>>, ns: seq<N>, to: seq<H>)
    requires |ns| == |to| && Known(to, lists)
    ensures Deal(lists, ns, to).Keys == lists.Keys
  {
    if ns != [] {
      var n := |ns| - 1;
      DealKeys(lists, ns[..n], to[..n]);
      DealLast(lists, ns, to, n);
    }
  }

  lemma {:induction false} ShowsDeal<H, N, T>(m: Heap<T>, lists: map<H, seq<N>>, head: H -> ListHead<T>,
                                              entry: N -> ListHead<T>,
                                               ns: seq<N>, to: seq<H>)
    requires Shows(m, lists, head, entry) == true && |ns| == |to| && Known(to, lists) == true
    ensures Shows(Deal(m, Image(ns, entry), Image(to, head)), Deal(lists, ns, to), head, entry) == true
  {
    if ns != [] {
      var n := |ns| - 1;
      var before, after := Deal(m, Image(ns[..n], entry), Image(to[..n], head)), Deal(lists, ns[..n], to[..n]);
      ImageLast(ns, entry);
      ImageLast(to, head);
      DealLast(m, Image(ns, entry), Image(to, head), n);
      DealLast(lists, ns, to, n);
      KnownLess(to, lists, n);
      DealKeys(lists, ns[..n], to[..n]);
      ShowsDeal(m, lists, head, entry, ns[..n], to[..n]);
      ShowsAppend(before, after, head, entry, to[n], ns[n]);
    }
  }

  lemma KnownLess<H, N>(to: seq<H>, lists: map<H, seq<N>>, n: nat)
    requires Known(to, lists) && n < |to|
    ensures Known(to[..n], lists) == true && to[n] in lists
  {
  }

  // ---------------------------------------------------------------- list_del_init

  lemma ShowsDetached<H, N, T>(m: Heap<T>, lists: map<H, seq<N>>, head: H -> ListHead<T>, entry: N -> ListHead<T>, h: H,
                               i: nat)
    requires Apart(m) && Shows(m, lists, head, entry) && Separate(lists) && i < |At(lists, h)|
    ensures entry(lists[h][i]) in Nodes(m)
    ensures Shows(Detach(m, entry(lists[h][i])), Detached(lists, lists[h][i]), head, entry)
  {
    var n, p := lists[h][i], head(h);
    ImageAt(lists[h], entry, i);
    assert m[p][i] == entry(n);
    DetachAt(m, p, i);
    DetachedAt(lists, h, i);
    ImageWithout(lists[h], entry, i);
    ShowsSet(m, lists, head, entry, h, Without(lists[h], i));
  }

  /** list_del_init on the entry of a process that some list has, and what Dispatcher.ListDelInit does. */
  method DelInitOnRings<T>(node: ListHead<T>, ghost m: Heap<T>, ghost lists: map<Place, seq<Process>>,
                           ghost head: Place -> ListHead<T>, ghost entry: Process -> ListHead<T>,
                           ghost process: Process)
    requires Valid(m) && Shows(m, lists, head, entry) && Separate(lists) && process in Members(lists)
    requires node == entry(process)
    modifies Nodes(m)
    ensures node in Nodes(m) && Valid(Detach(m, node)) && Shows(Detach(m, node), Detached(lists, process), head, entry)
  {
    ghost var h, i := WhereIs(lists, process);
    ShowsDetached(m, lists, head, entry, h, i);
    ImageAt(lists[h], entry, i);
    MemberAt(m, head(h), i);
    Neighbours(m, head(h), i);
    Touched(m, head(h), i);
    HeapDelInit(node, m);
  }

  // ---------------------------------------------------------------- alert_on_locked_nr

  /** The loop of alert_on_locked_nr on the rings leads to rings that show the lists that Dispatcher.AlertOnLockedNr
      leads to (see Alerted). */
  method AlertOnRings<T>(wait: ListHead<T>, condition: ListHead<T> -> bool, to: nat -> ListHead<T>,
                         ghost m: Heap<T>, ghost lists: map<Place, seq<Process>>, ghost head: Place -> ListHead<T>,
                         ghost entry: Process -> ListHead<T>, ghost place: Place, ghost test: Process -> bool,
                         ghost picks: seq<Core>)
    requires Valid(m) && Shows(m, lists, head, entry) && place.Wait? && place in lists && wait == head(place)
    requires forall c: Core, p: Prio :: Ready(c, p) in lists
    requires forall p :: p in lists[place] ==> condition(entry(p)) == test(p)
    requires var woken := Filter(lists[place], test);
      |picks| == |woken| && Sent(to, |woken|) == Image(Destinations(woken, picks), head)
    requires forall k: nat :: to(k) in m && to(k) != wait
    modifies Nodes(m)
    ensures var woken := Filter(lists[place], test);
      && Valid(Dealt(m, wait, to, Image(woken, entry), Image(Reject(lists[place], test), entry))) == true
      && Shows(Dealt(m, wait, to, Image(woken, entry), Image(Reject(lists[place], test), entry)),
               Deal(lists, woken, Destinations(woken, picks))[place := Reject(lists[place], test)], head, entry)
  {
    ghost var woken, left := Filter(lists[place], test), Reject(lists[place], test);
    ImageFilter(lists[place], entry, test, condition);
    DestinationsQueued(woken, picks, lists);
    DealKeys(lists, woken, Destinations(woken, picks));
    ShowsDeal(m, lists, head, entry, woken, Destinations(woken, picks));
    ShowsSet(Deal(m, Image(woken, entry), Image(Destinations(woken, picks), head)),
             Deal(lists, woken, Destinations(woken, picks)), head, entry, place, left);
    MoveMatching(wait, condition, to, m);
  }

  lemma {:induction false} DestinationsQueued(ps: seq<Process>, picks: seq<Core>, lists: map<Place, seq<Process>>)
    requires |ps| == |picks| && forall c: Core, p: Prio :: Ready(c, p) in lists
    ensures Known(Destinations(ps, picks), lists)
  {
    if ps != [] { DestinationsQueued(ps[..|ps| - 1], picks[..|ps| - 1], lists); }
  }
}
