/** The intrusive circular lists of list.h, over heap nodes.

    A ghost map gives the meaning of the pointers: each head owns the sequence of entries
    reached by following `next`. A node that is linked to itself is a head owning nothing,
    so an initialised but unlinked entry needs no case of its own. Every operation is proved
    to turn the rings of a heap into the rings the matching function of `Rings` names; as the
    map covers all rings at once, this also says that no other ring is disturbed.
 */
module Lists {
  import opened Rings

  class ListHead<T> {
    // The structure this node is embedded in (container_of); None for a bare head.
    const container: Option<T>
    var next: ListHead?<T>
    var prev: ListHead?<T>

    /** INIT_LIST_HEAD on fresh storage. */
    constructor (container: Option<T>)
      ensures next == prev == this
      ensures this.container == container
    {
      this.container := container;
      next := this;
      prev := this;
    }
  }

  // ---------------------------------------------------------------- one ring

  /** The node at position `k` of the ring at `h`; the head itself is at both ends. */
  ghost function Pos<T>(h: ListHead<T>, s: seq<ListHead<T>>, k: int): ListHead<T> {
    if 0 <= k < |s| then s[k] else h
  }

  /** The pointers around `h` spell `s` forwards through `next` and backwards through `prev`. */
  ghost predicate Linked<T>(h: ListHead<T>, s: seq<ListHead<T>>)
    reads h, s
  {
    && h.next == Pos(h, s, 0)
    && h.prev == Pos(h, s, |s| - 1)
    && (forall k {:trigger Pos(h, s, k).next} :: -1 <= k < |s| ==> Pos(h, s, k).next == Pos(h, s, k + 1))
    && (forall k {:trigger Pos(h, s, k).prev} :: 0 <= k <= |s| ==> Pos(h, s, k).prev == Pos(h, s, k - 1))
  }

  ghost predicate Ring<T>(h: ListHead<T>, s: seq<ListHead<T>>)
    reads h, s
  {
    h !in s && (forall i, j :: 0 <= i < j < |s| ==> s[i] != s[j]) && Linked(h, s)
  }

  /** __list_add */
  method ListInsert<T>(n: ListHead<T>, prev: ListHead<T>, next: ListHead<T>)
    requires n != prev && n != next
    modifies n`next, n`prev, prev`next, next`prev
    ensures n.next == next && n.prev == prev && next.prev == n && prev.next == n
  {
    next.prev := n;
    n.next := next;
    n.prev := prev;
    prev.next := n;
  }

  method ListAdd<T>(n: ListHead<T>, head: ListHead<T>, ghost s: seq<ListHead<T>>)
    requires Ring(head, s) && n != head && n !in s
    modifies n`next, n`prev, head`next, head.next`prev
    ensures Ring(head, [n] + s)
  {
    ListInsert(n, head, head.next);
    assert forall k :: 1 <= k <= |s| + 1 ==> Pos(head, [n] + s, k) == Pos(head, s, k - 1);
  }

  method ListAddTail<T>(n: ListHead<T>, head: ListHead<T>, ghost s: seq<ListHead<T>>)
    requires Ring(head, s) && n != head && n !in s
    modifies n`next, n`prev, head`prev, head.prev`next
    ensures Ring(head, s + [n])
  {
    ListInsert(n, head.prev, head);
    assert forall k :: -1 <= k < |s| ==> Pos(head, s + [n], k) == Pos(head, s, k);
  }

  /** __list_del */
  method Unlink<T>(prev: ListHead<T>, next: ListHead<T>)
    modifies prev`next, next`prev
    ensures next.prev == prev && prev.next == next
  {
    next.prev := prev;
    prev.next := next;
  }

  /** The unlinking common to list_del, list_del_init and list_move: the ring closes over the gap. */
  method CloseGap<T>(entry: ListHead<T>, ghost head: ListHead<T>, ghost s: seq<ListHead<T>>, ghost i: nat)
    requires Ring(head, s) && i < |s| && s[i] == entry
    requires entry.prev == Pos(head, s, i - 1) && entry.next == Pos(head, s, i + 1)
    modifies entry.prev`next, entry.next`prev
    ensures Ring(head, Without(s, i))
  {
    Unlink(entry.prev, entry.next);
    ghost var r := Without(s, i);
    assert forall k :: -1 <= k < i ==> Pos(head, r, k) == Pos(head, s, k);
    assert forall k :: i <= k <= |r| ==> Pos(head, r, k) == Pos(head, s, k + 1);
  }

  /** list_del: the entry is left with null links, unusable until it is initialised again. */
  method ListDel<T>(entry: ListHead<T>, ghost head: ListHead<T>, ghost s: seq<ListHead<T>>, ghost i: nat)
    requires Ring(head, s) && i < |s| && s[i] == entry
    requires entry.prev == Pos(head, s, i - 1) && entry.next == Pos(head, s, i + 1)
    modifies entry, entry.prev`next, entry.next`prev
    ensures Ring(head, Without(s, i)) && entry.next == entry.prev == null
  {
    CloseGap(entry, head, s, i);
    entry.next := null;
    entry.prev := null;
  }

  method ListDelInit<T>(entry: ListHead<T>, ghost head: ListHead<T>, ghost s: seq<ListHead<T>>, ghost i: nat)
    requires Ring(head, s) && i < |s| && s[i] == entry
    requires entry.prev == Pos(head, s, i - 1) && entry.next == Pos(head, s, i + 1)
    modifies entry, entry.prev`next, entry.next`prev
    ensures Ring(head, Without(s, i)) && Linked(entry, [])
  {
    CloseGap(entry, head, s, i);
    entry.next := entry;
    entry.prev := entry;
    assert forall k :: -1 <= k < |s| ==> Pos(head, Without(s, i), k) != entry;
  }

  method ListEmpty<T>(head: ListHead<T>, ghost s: seq<ListHead<T>>) returns (empty: bool)
    requires Ring(head, s)
    ensures empty <==> s == []
  {
    empty := head.next == head;
  }

  method ListIsTail<T>(list: ListHead<T>, head: ListHead<T>, ghost s: seq<ListHead<T>>) returns (tail: bool)
    requires Ring(head, s) && list in s
    ensures tail <==> list == s[|s| - 1]
  {
    ghost var i :| 0 <= i < |s| && s[i] == list;
    assert Pos(head, s, i).next == Pos(head, s, i + 1);
    tail := list.next == head;
  }

  /** list_for_each */
  method Forward<T>(head: ListHead<T>, ghost s: seq<ListHead<T>>) returns (visited: seq<ListHead<T>>)
    requires Ring(head, s)
    ensures visited == s
  {
    visited := [];
    var pos := head.next;
    while pos != head
      invariant |visited| <= |s| && visited == s[..|visited|]
      invariant pos == Pos(head, s, |visited|)
      decreases |s| - |visited|
    {
      assert Pos(head, s, |visited|).next == Pos(head, s, |visited| + 1);
      visited := visited + [pos];
      pos := pos.next;
    }
  }

  /** list_for_each_prev: the reverse of the forward traversal. */
  method Backward<T>(head: ListHead<T>, ghost s: seq<ListHead<T>>) returns (visited: seq<ListHead<T>>)
    requires Ring(head, s)
    ensures |visited| == |s| && forall k :: 0 <= k < |s| ==> visited[k] == s[|s| - 1 - k]
  {
    visited := [];
    var pos := head.prev;
    while pos != head
      invariant |visited| <= |s|
      invariant forall k :: 0 <= k < |visited| ==> visited[k] == s[|s| - 1 - k]
      invariant pos == Pos(head, s, |s| - 1 - |visited|)
      decreases |s| - |visited|
    {
      assert Pos(head, s, |s| - 1 - |visited|).prev == Pos(head, s, |s| - 2 - |visited|);
      visited := visited + [pos];
      pos := pos.prev;
    }
  }

  /** __list_splice: the entries of `list` go between `head` and its first entry. `list` itself
      keeps its old pointers, so it is no longer a ring until it is initialised again. */
  method Splice<T>(list: ListHead<T>, head: ListHead<T>, ghost l: seq<ListHead<T>>, ghost s: seq<ListHead<T>>)
    requires Ring(list, l) && Ring(head, s) && l != []
    requires list != head && list !in s && head !in l && forall n :: n in l ==> n !in s
    modifies head`next, head.next`prev, list.next`prev, list.prev`next
    ensures Ring(head, l + s)
  {
    var first, last, at := list.next, list.prev, head.next;
    first.prev := head;
    head.next := first;
    last.next := at;
    at.prev := last;
    ghost var r := l + s;
    forall k | 0 <= k < |l| ensures Pos(head, r, k) == Pos(list, l, k) {}
    forall k | |l| <= k <= |r| ensures Pos(head, r, k) == Pos(head, s, k - |l|) {}
    assert forall k :: 0 <= k < |l| ==> l[k] in l && l[k] !in s && l[k] != head;
    assert forall k :: 0 <= k < |s| ==> s[k] in s && s[k] !in l && s[k] != list;
    forall k | -1 <= k < |r| ensures Pos(head, r, k).next == Pos(head, r, k + 1) {
      if 0 <= k < |l| { assert Pos(list, l, k).next == if k == |l| - 1 then at else Pos(list, l, k + 1); }
      if |l| <= k { assert Pos(head, s, k - |l|).next == Pos(head, s, k - |l| + 1); }
    }
    forall k | 0 <= k <= |r| ensures Pos(head, r, k).prev == Pos(head, r, k - 1) {
      if 0 < k < |l| { assert Pos(list, l, k).prev == Pos(list, l, k - 1); }
      if |l| < k { assert Pos(head, s, k - |l|).prev == Pos(head, s, k - |l| - 1); }
    }
  }

  method ListSpliceInit<T>(list: ListHead<T>, head: ListHead<T>, ghost l: seq<ListHead<T>>, ghost s: seq<ListHead<T>>)
    requires Ring(list, l) && Ring(head, s)
    requires list != head && list !in s && head !in l && forall n :: n in l ==> n !in s
    modifies list, head`next, head.next`prev, list.next`prev, list.prev`next
    ensures Ring(head, l + s) && Ring(list, [])
  {
    var empty := ListEmpty(list, l);
    if !empty {
      Splice(list, head, l, s);
      list.next := list;
      list.prev := list;
      assert forall k :: -1 <= k <= |l + s| ==> Pos(head, l + s, k) != list;
    } else {
      assert [] + s == s;
    }
  }

  // ---------------------------------------------------------------- all the rings

  /** The rings of a heap, keyed by head. A self-linked entry is the head of an empty ring. */
  type Heap<!T> = map<ListHead<T>, seq<ListHead<T>>>

  ghost function Nodes<T>(m: Heap<T>): set<ListHead<T>> {
    m.Keys + Members(m)
  }

  ghost predicate Apart<T>(m: Heap<T>) {
    Separate(m) && m.Keys !! Members(m)
  }

  /** True of every head; it says where `Linked` may read. */
  ghost predicate Covered<T>(m: Heap<T>, h: ListHead<T>)
    requires h in m
  {
    forall n :: n in m[h] ==> n in Nodes(m)
  }

  lemma Inside<T>(m: Heap<T>, h: ListHead<T>)
    requires h in m
    ensures Covered(m, h)
  {
  }

  ghost predicate Valid<T>(m: Heap<T>)
    reads Nodes(m)
  {
    Apart(m) && forall h :: h in m ==> Covered(m, h) && Linked(h, m[h])
  }

  lemma OneRing<T>(m: Heap<T>, h: ListHead<T>)
    requires Valid(m) && h in m
    ensures Ring(h, m[h])
  {
    Inside(m, h);
    SetAside(m, h);
    assert forall n :: n in m[h] ==> n in Members(m);
  }

  /** A family of rings is valid when it is apart and each is linked. */
  lemma Whole<T>(m: Heap<T>)
    requires Apart(m) && forall k :: k in m ==> Linked(k, m[k])
    ensures Valid(m)
  {
    forall k | k in m ensures Covered(m, k) { Inside(m, k); }
  }

  /** A node of the ring at `h` is in no other ring. */
  lemma Elsewhere<T>(m: Heap<T>, h: ListHead<T>, k: ListHead<T>)
    requires Apart(m) && h in m && k in m && k != h
    ensures k !in m[h] && forall n :: n in m[k] ==> n != h && n !in m[h]
  {
    forall n | n in m[k] ensures n in Members(m - {h}) { assert k in m - {h} && (m - {h})[k] == m[k]; }
    SetAside(m, h);
    assert forall n :: n in m[h] ==> n in Members(m);
    forall n | n in m[k] ensures n != h { assert n in Members(m); }
  }

  /** The rings after `n` has been taken out of whatever ring it is in, and left self-linked. */
  ghost function Detach<T>(m: Heap<T>, n: ListHead<T>): Heap<T>
    requires n in Nodes(m)
  {
    if n in m then m else
      var h, i :| h in m && 0 <= i < |m[h]| && m[h][i] == n;
      Drop(m, h, i)[n := []]
  }

  lemma Taken<T>(m: Heap<T>, h: ListHead<T>, i: nat)
    requires Apart(m) && i < |At(m, h)|
    ensures At(m, h)[i] in Nodes(m) && At(m, h)[i] !in m
    ensures Apart(Drop(m, h, i)[At(m, h)[i] := []])
    ensures Nodes(Drop(m, h, i)[At(m, h)[i] := []]) == Nodes(m)
  {
    MemberAt(m, h, i);
    DropKeeps(m, h, i);
    AddEmpty(Drop(m, h, i), At(m, h)[i]);
  }

  lemma DetachAt<T>(m: Heap<T>, h: ListHead<T>, i: nat)
    requires Apart(m) && i < |At(m, h)|
    ensures At(m, h)[i] in Nodes(m) && At(m, h)[i] !in m
    ensures Detach(m, At(m, h)[i]) == Drop(m, h, i)[At(m, h)[i] := []]
  {
    MemberAt(m, h, i);
    var n := m[h][i];
    forall k, j | k in m && 0 <= j < |m[k]| && m[k][j] == n ensures k == h && j == i { UniquePlace(m, k, j, h, i); }
  }

  lemma AddEmpty<T>(m: Heap<T>, n: ListHead<T>)
    requires Separate(m) && n !in m
    ensures Separate(m[n := []]) && Members(m[n := []]) == Members(m)
  {
    var r := m[n := []];
    assert forall k, i :: Filled(r, k, i) ==> Filled(m, k, i) && r[k][i] == m[k][i];
    forall x ensures x in Members(r) <==> x in Members(m) {
      if x in Members(m) { var k, i := WhereIs(m, x); assert x in r[k]; }
    }
  }

  method HeapAddTail<T>(n: ListHead<T>, head: ListHead<T>, ghost m: Heap<T>)
    requires Valid(m) && head in m && n !in Nodes(m)
    modifies n`next, n`prev, head`prev, head.prev`next
    ensures Valid(Append(m, head, n))
  {
    AppendKeeps(m, head, n);
    OneRing(m, head);
    Inside(m, head);
    forall k | k in m && k != head ensures k !in m[head] && forall x :: x in m[k] ==> x != head && x !in m[head] {
      Elsewhere(m, head, k);
    }
    ListAddTail(n, head, m[head]);
    assert forall k :: k in m && k != head ==> Linked(k, m[k]);
  }

  method HeapAdd<T>(n: ListHead<T>, head: ListHead<T>, ghost m: Heap<T>)
    requires Valid(m) && head in m && n !in Nodes(m)
    modifies n`next, n`prev, head`next, head.next`prev
    ensures Valid(Prepend(m, head, n))
  {
    OneRing(m, head);
    Inside(m, head);
    forall k | k in m && k != head ensures k !in m[head] && forall x :: x in m[k] ==> x != head && x !in m[head] {
      Elsewhere(m, head, k);
    }
    ListAdd(n, head, m[head]);
    assert forall k :: k in m && k != head ==> Linked(k, m[k]);
    PrependKeeps(m, head, n);
  }

  lemma Neighbours<T>(m: Heap<T>, h: ListHead<T>, i: nat)
    requires Valid(m) && h in m && i < |m[h]|
    ensures m[h][i].prev == Pos(h, m[h], i - 1) && m[h][i].next == Pos(h, m[h], i + 1)
  {
    assert Pos(h, m[h], i).prev == Pos(h, m[h], i - 1);
    assert Pos(h, m[h], i).next == Pos(h, m[h], i + 1);
  }

  /** list_del_init leaves every ring linked that shares no node with the entry's. */
  method TakeFrom<T>(entry: ListHead<T>, ghost head: ListHead<T>, ghost s: seq<ListHead<T>>, ghost i: nat,
                     ghost others: Heap<T>)
    requires Ring(head, s) && i < |s| && s[i] == entry
    requires entry.prev == Pos(head, s, i - 1) && entry.next == Pos(head, s, i + 1)
    requires forall k :: k in others ==>
      k != head && k !in s && Linked(k, others[k]) && forall n :: n in others[k] ==> n != head && n !in s
    modifies entry, entry.prev`next, entry.next`prev
    ensures Linked(head, Without(s, i)) && Linked(entry, [])
    ensures forall k :: k in others ==> Linked(k, others[k])
  {
    assert entry.prev == head || entry.prev in s;
    assert entry.next == head || entry.next in s;
    ListDelInit(entry, head, s, i);
  }

  /** list_del_init on an entry of the ring at `head`. */
  method HeapTake<T>(entry: ListHead<T>, ghost m: Heap<T>, ghost head: ListHead<T>, ghost i: nat)
    requires Valid(m) && head in m && i < |m[head]| && m[head][i] == entry
    requires entry.prev == Pos(head, m[head], i - 1) && entry.next == Pos(head, m[head], i + 1)
    modifies entry, entry.prev`next, entry.next`prev
    ensures Valid(Drop(m, head, i)[entry := []])
  {
    Taken(m, head, i);
    OneRing(m, head);
    forall k | k in m && k != head
      ensures k !in m[head] && Linked(k, m[k]) && forall x :: x in m[k] ==> x != head && x !in m[head] {
      Elsewhere(m, head, k);
      assert Covered(m, k);
    }
    TakeFrom(entry, head, m[head], i, m - {head});
    ghost var d := Drop(m, head, i)[entry := []];
    forall k | k in d ensures Linked(k, d[k]) {
      if k != entry && k != head { assert k in m - {head}; }
    }
    Whole(d);
  }

  /** list_del_init: takes the entry out of whatever ring holds it; does nothing to one in no ring. */
  method HeapDelInit<T>(entry: ListHead<T>, ghost m: Heap<T>)
    requires Valid(m) && entry in Nodes(m) && At(m, entry) == []
    requires entry.prev != null && entry.next != null
    modifies entry, entry.prev`next, entry.next`prev
    ensures Valid(Detach(m, entry))
  {
    if entry.next == entry {
      assert entry in m by {
        if entry !in m {
          var h, i := WhereIs(m, entry);
          OneRing(m, h);
          Neighbours(m, h, i);
          assert false;
        }
      }
      Unlink(entry, entry);
    } else {
      ghost var h, i := WhereIs(m, entry);
      Neighbours(m, h, i);
      DetachAt(m, h, i);
      HeapTake(entry, m, h, i);
    }
  }

  // ---------------------------------------------------------------- moving and unlinking among all the rings

  lemma DroppedApart<T>(m: Heap<T>, h: ListHead<T>, i: nat)
    requires Apart(m) && i < |At(m, h)|
    ensures Apart(Drop(m, h, i)) && Nodes(Drop(m, h, i)) == Nodes(m) - {At(m, h)[i]} && At(m, h)[i] in Nodes(m)
  {
    MemberAt(m, h, i);
    DropKeeps(m, h, i);
  }

  /** __list_del leaves every ring linked that shares no node with the entry's. */
  method CutFrom<T>(entry: ListHead<T>, ghost head: ListHead<T>, ghost s: seq<ListHead<T>>, ghost i: nat,
                    ghost others: Heap<T>)
    requires Ring(head, s) && i < |s| && s[i] == entry
    requires entry.prev == Pos(head, s, i - 1) && entry.next == Pos(head, s, i + 1)
    requires forall k :: k in others ==>
      k != head && k !in s && Linked(k, others[k]) && forall n :: n in others[k] ==> n != head && n !in s
    modifies entry.prev`next, entry.next`prev
    ensures Linked(head, Without(s, i))
    ensures forall k :: k in others ==> Linked(k, others[k])
  {
    assert entry.prev == head || entry.prev in s;
    assert entry.next == head || entry.next in s;
    CloseGap(entry, head, s, i);
  }

  /** __list_del, on an entry of the ring at `head`. */
  method HeapCut<T>(entry: ListHead<T>, ghost m: Heap<T>, ghost head: ListHead<T>, ghost i: nat)
    requires Valid(m) && head in m && i < |m[head]| && m[head][i] == entry
    requires entry.prev == Pos(head, m[head], i - 1) && entry.next == Pos(head, m[head], i + 1)
    modifies entry.prev`next, entry.next`prev
    ensures Valid(Drop(m, head, i)) && entry !in Nodes(Drop(m, head, i))
  {
    DroppedApart(m, head, i);
    OneRing(m, head);
    forall k | k in m && k != head
      ensures k !in m[head] && Linked(k, m[k]) && forall x :: x in m[k] ==> x != head && x !in m[head] {
      Elsewhere(m, head, k);
      assert Covered(m, k);
    }
    CutFrom(entry, head, m[head], i, m - {head});
    ghost var d := Drop(m, head, i);
    forall k | k in d ensures Linked(k, d[k]) {
      if k != head { assert k in m - {head}; }
    }
    Whole(d);
  }

  /** list_del: the ring closes, and the entry has null links. */
  method HeapDel<T>(entry: ListHead<T>, ghost m: Heap<T>, ghost head: ListHead<T>, ghost i: nat)
    requires Valid(m) && head in m && i < |m[head]| && m[head][i] == entry
    requires entry.prev == Pos(head, m[head], i - 1) && entry.next == Pos(head, m[head], i + 1)
    modifies entry, entry.prev`next, entry.next`prev
    ensures Valid(Drop(m, head, i)) == true && entry.next == entry.prev == null
  {
    HeapCut(entry, m, head, i);
    Poison(entry, Drop(m, head, i));
  }

  method Poison<T>(entry: ListHead<T>, ghost m: Heap<T>)
    requires Valid(m) == true && entry !in Nodes(m)
    modifies entry
    ensures Valid(m) == true && entry.next == entry.prev == null
  {
    entry.next := null;
    entry.prev := null;
  }

  /** list_move: from anywhere to the front of any ring, its own included. */
  method ListMove<T>(entry: ListHead<T>, to: ListHead<T>, ghost m: Heap<T>, ghost head: ListHead<T>, ghost i: nat)
    requires Valid(m) && head in m && to in m && i < |m[head]| && m[head][i] == entry
    requires entry.prev == Pos(head, m[head], i - 1) && entry.next == Pos(head, m[head], i + 1)
    modifies Nodes(m)
    ensures Valid(Prepend(Drop(m, head, i), to, entry))
  {
    Touched(m, head, i);
    HeapCut(entry, m, head, i);
    InNodes(Drop(m, head, i), to);
    HeapAdd(entry, to, Drop(m, head, i));
  }

  /** list_move_tail: the same, to the tail. */
  method ListMoveTail<T>(entry: ListHead<T>, to: ListHead<T>, ghost m: Heap<T>, ghost head: ListHead<T>, ghost i: nat)
    requires Valid(m) && head in m && to in m && i < |m[head]| && m[head][i] == entry
    requires entry.prev == Pos(head, m[head], i - 1) && entry.next == Pos(head, m[head], i + 1)
    modifies Nodes(m)
    ensures Valid(Move(m, head, i, to))
  {
    Touched(m, head, i);
    HeapCut(entry, m, head, i);
    InNodes(Drop(m, head, i), to);
    HeapAddTail(entry, to, Drop(m, head, i));
  }

  /** What unlinking writes to belongs to the heap. */
  lemma Touched<T>(m: Heap<T>, h: ListHead<T>, i: nat)
    requires Apart(m) && h in m && i < |m[h]|
    ensures m[h][i] in Nodes(m) && Pos(h, m[h], i - 1) in Nodes(m) && Pos(h, m[h], i + 1) in Nodes(m)
    ensures Nodes(Drop(m, h, i)) <= Nodes(m)
  {
    Inside(m, h);
    DroppedApart(m, h, i);
  }

  /** The neighbours of a head belong to the heap. */
  lemma InNodes<T>(m: Heap<T>, h: ListHead<T>)
    requires Valid(m) && h in m
    ensures h.next != null && h.prev != null && h.next in Nodes(m) && h.prev in Nodes(m)
  {
    Inside(m, h);
    assert m[h] != [] ==> m[h][0] in m[h] && m[h][|m[h]| - 1] in m[h];
  }

  // ---------------------------------------------------------------- splicing

  function Spliced<H, N>(m: map<H, seq<N>>, list: H, head: H): map<H, seq<N>> {
    m[head := At(m, list) + At(m, head)][list := []]
  }

  lemma SplicedKeeps<H, N>(m: map<H, seq<N>>, list: H, head: H)
    requires Separate(m) && list in m && head in m && list != head
    ensures Separate(Spliced(m, list, head)) && Members(Spliced(m, list, head)) == Members(m)
  {
    var r := Spliced(m, list, head);
    var n := |m[list]|;
    forall k, i | k in r && Filled(r, k, i)
      ensures var h, j := if k == head && i < n then list else k, if k == head && i >= n then i - n else i;
        Filled(m, h, j) && m[h][j] == r[k][i] {
    }
    forall x ensures x in Members(r) <==> x in Members(m) {
      if x in Members(m) {
        var k, i := WhereIs(m, x);
        assert x in r[if k == list then head else k];
      }
      if x in Members(r) {
        var k, i := WhereIs(r, x);
        assert x in m[if k == head && i < n then list else k];
      }
    }
  }

  /** list_splice_init leaves every ring linked that shares no node with the two. */
  method SpliceFrom<T>(list: ListHead<T>, head: ListHead<T>, ghost l: seq<ListHead<T>>, ghost s: seq<ListHead<T>>,
                       ghost others: Heap<T>)
    requires Ring(list, l) && Ring(head, s)
    requires list != head && list !in s && head !in l && forall n :: n in l ==> n !in s
    requires forall k :: k in others ==>
      && k != head && k != list && k !in s && k !in l && Linked(k, others[k])
      && forall n :: n in others[k] ==> n != head && n != list && n !in s && n !in l
    modifies list, head`next, head.next`prev, list.next`prev, list.prev`next
    ensures Linked(head, l + s) && Linked(list, [])
    ensures forall k :: k in others ==> Linked(k, others[k])
  {
    assert head.next == head || head.next in s;
    assert list.next == list || list.next in l;
    assert list.prev == list || list.prev in l;
    ListSpliceInit(list, head, l, s);
  }

  /** list_splice_init: the entries of one ring, in order, come in front of those of the other. */
  method HeapSpliceInit<T>(list: ListHead<T>, head: ListHead<T>, ghost m: Heap<T>)
    requires Valid(m) && list in m && head in m && list != head
    modifies Nodes(m)
    ensures Valid(Spliced(m, list, head))
  {
    SplicedKeeps(m, list, head);
    OneRing(m, list);
    OneRing(m, head);
    InNodes(m, list);
    InNodes(m, head);
    Elsewhere(m, list, head);
    Elsewhere(m, head, list);
    ghost var others := m - {list} - {head};
    forall k | k in others
      ensures k !in m[head] && k !in m[list] && Linked(k, others[k])
      ensures forall n :: n in others[k] ==> n != head && n != list && n !in m[head] && n !in m[list] {
      Elsewhere(m, head, k);
      Elsewhere(m, list, k);
      assert Covered(m, k);
    }
    SpliceFrom(list, head, m[list], m[head], others);
    ghost var d := Spliced(m, list, head);
    forall k | k in d ensures Linked(k, d[k]) {
      if k != list && k != head { assert k in others; }
    }
    Whole(d);
  }

  // ---------------------------------------------------------------- waking the tasks of a list

  lemma Forget<T>(m: Heap<T>, n: ListHead<T>)
    requires Valid(m) && n in m && m[n] == []
    ensures Valid(m - {n}) && n !in Nodes(m - {n}) && Nodes(m - {n}) == Nodes(m) - {n}
  {
    SetAside(m, n);
    assert (m - {n}).Keys == m.Keys - {n};
    forall k | k in m - {n} ensures Covered(m - {n}, k) && Linked(k, m[k]) {
      Inside(m - {n}, k);
      assert Covered(m, k);
    }
  }

  /** list_del_init, and then ready(): list_del_init once more, on an entry that is linked to itself by now, and
      list_add_tail. */
  method HeapReady<T>(entry: ListHead<T>, to: ListHead<T>, ghost m: Heap<T>, ghost head: ListHead<T>, ghost i: nat)
    requires Valid(m) && head in m && to in m && i < |m[head]| && m[head][i] == entry
    modifies Nodes(m)
    ensures Valid(Move(m, head, i, to)) && Nodes(Move(m, head, i, to)) == Nodes(m) && to in Move(m, head, i, to)
  {
    Touched(m, head, i);
    Neighbours(m, head, i);
    Taken(m, head, i);
    ghost var cut := Drop(m, head, i)[entry := []];
    HeapTake(entry, m, head, i);
    assert Linked(entry, cut[entry]) by { assert Covered(cut, entry); }
    HeapDelInit(entry, cut);
    Forget(cut, entry);
    Uncut(Drop(m, head, i), entry);
    InNodes(cut - {entry}, to);
    HeapAddTail(entry, to, cut - {entry});
    MoveNodes(m, head, i, to);
  }

  lemma Uncut<H, N>(m: map<H, seq<N>>, n: H)
    requires n !in m
    ensures m[n := []] - {n} == m
  {
  }

  lemma MoveNodes<T>(m: Heap<T>, head: ListHead<T>, i: nat, to: ListHead<T>)
    requires Apart(m) && head in m && to in m && i < |m[head]|
    ensures Nodes(Move(m, head, i, to)) == Nodes(m)
  {
    MoveKeeps(m, head, i, to);
  }

  /** Where the first n entries that are woken go. */
  function Sent<T>(to: nat -> ListHead<T>, n: nat): (r: seq<ListHead<T>>)
    ensures |r| == n
  {
    if n == 0 then [] else Sent(to, n - 1) + [to(n - 1)]
  }

  /** Part of the way through the walk: these are the rings. */
  ghost function Dealt<T>(m: Heap<T>, head: ListHead<T>, to: nat -> ListHead<T>, woken: seq<ListHead<T>>,
                          left: seq<ListHead<T>>): Heap<T> {
    Deal(m, woken, Sent(to, |woken|))[head := left]
  }

  lemma {:induction false} DealtKeys<T>(m: Heap<T>, head: ListHead<T>, to: nat -> ListHead<T>, woken: seq<ListHead<T>>,
                                        left: seq<ListHead<T>>)
    requires head in m && forall k: nat :: to(k) in m
    ensures Dealt(m, head, to, woken, left).Keys == m.Keys && Deal(m, woken, Sent(to, |woken|)).Keys == m.Keys
  {
    if woken != [] {
      DealtKeys(m, head, to, woken[..|woken| - 1], left);
    }
  }

  lemma NoneDealt<T>(m: Heap<T>, head: ListHead<T>, to: nat -> ListHead<T>)
    requires head in m
    ensures Dealt(m, head, to, [], [] + m[head]) == m
  {
    assert [] + m[head] == m[head];
  }

  lemma DealtOne<T>(m: Heap<T>, head: ListHead<T>, to: nat -> ListHead<T>, woken: seq<ListHead<T>>,
                    kept: seq<ListHead<T>>,
                    curr: ListHead<T>, rest: seq<ListHead<T>>)
    requires to(|woken|) != head
    ensures Move(Dealt(m, head, to, woken, kept + [curr] + rest), head, |kept|, to(|woken|))
      == Dealt(m, head, to, woken + [curr], kept + rest)
  {
    DealFrom(m, woken, Sent(to, |woken|), head, kept, curr, rest, to(|woken|));
  }

  lemma Onward<T>(now: Heap<T>, head: ListHead<T>, kept: seq<ListHead<T>>, rest: seq<ListHead<T>>)
    requires Valid(now) == true && head in now && now[head] == kept + rest
    ensures head.next != null && (rest != [] ==> rest[0].next == Pos(head, rest, 1))
    ensures kept == [] ==> head.next == Pos(head, rest, 0)
  {
    assert Covered(now, head);
    assert rest != [] ==> Pos(head, kept + rest, |kept|).next == Pos(head, kept + rest, |kept| + 1);
    assert Pos(head, kept + rest, -1).next == Pos(head, kept + rest, 0);
  }

  /** It is over exactly when it is back at the head. */
  lemma Over<T>(now: Heap<T>, head: ListHead<T>, kept: seq<ListHead<T>>, rest: seq<ListHead<T>>)
    requires Valid(now) && head in now && now[head] == kept + rest
    ensures Pos(head, rest, 0) == head <==> rest == []
  {
    OneRing(now, head);
    if rest != [] { assert (kept + rest)[|kept|] == rest[0]; }
  }

  /** The walk stands at `curr`, whose successor is saved. */
  ghost predicate Walking<T>(head: ListHead<T>, rest: seq<ListHead<T>>, curr: ListHead<T>, next: ListHead<T>) {
    curr == Pos(head, rest, 0) && (rest != [] ==> next == Pos(head, rest, 1))
  }

  /** The loop of alert_on_locked_nr: list_for_each_entry_safe over `head`, each entry that satisfies the condition
      being unlinked and made ready, the k-th of them in the ring at `to(k)`. Though the body rewrites the links it
      walks on, it visits exactly the entries present at the start, once each and in order, and ends. */
  method MoveMatching<T>(head: ListHead<T>, condition: ListHead<T> -> bool, to: nat -> ListHead<T>, ghost m: Heap<T>)
    requires Valid(m) && head in m && forall k: nat :: to(k) in m && to(k) != head
    modifies Nodes(m)
    ensures Valid(Dealt(m, head, to, Filter(m[head], condition), Reject(m[head], condition))) == true
  {
    ghost var s, nodes := m[head], Nodes(m);
    ghost var rest: seq<ListHead<T>>, k: nat, now: Heap<T> := s, 0, m;
    ghost var kept: seq<ListHead<T>>, woken: seq<ListHead<T>> := [], [];
    var taken := 0;
    assert [] + s == s;
    Onward(m, head, [], s);
    NoneDealt(m, head, to);
    var curr: ListHead<T> := head.next;
    var next := curr.next;
    while curr != head
      invariant next != null && Walking(head, rest, curr, next) == true
      invariant Visited(s, k, condition, kept, rest, woken) == true && taken == |woken|
      invariant now == Dealt(m, head, to, woken, kept + rest) && now.Keys == m.Keys
      invariant Valid(now) == true && Nodes(now) == nodes
      decreases |rest|
    {
      assert rest != [] && curr == rest[0];
      VisitNext(s, k, condition, kept, rest, woken);
      if condition(curr) {
        HeapReady(curr, to(taken), now, head, |kept|);
        DealtOne(m, head, to, woken, kept, curr, rest[1..]);
        now := Move(now, head, |kept|, to(taken));
        woken, taken := woken + [curr], taken + 1;
      } else {
        kept := kept + [curr];
      }
      rest, k := rest[1..], k + 1;
      DealtKeys(m, head, to, woken, kept + rest);
      Onward(now, head, kept, rest);
      curr := next;
      next := next.next;
    }
    Over(now, head, kept, rest);
    VisitEnd(s, k, condition, kept, rest, woken);
  }
}
