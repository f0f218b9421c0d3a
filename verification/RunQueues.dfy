/** What the dispatcher's operations mean, on lists as values: shared by the pointer code and by the
    multi-core model. */
module RunQueues {
  import opened Rings
  import opened Placement

  /** The highest-numbered list that is not empty, or -1: the order in which next() looks. */
  function Top<H, N>(m: map<H, seq<N>>, heads: seq<H>): (p: int)
    ensures -1 <= p < |heads|
    ensures p >= 0 ==> At(m, heads[p]) != []
    ensures forall q :: p < q < |heads| ==> At(m, heads[q]) == []
  {
    if heads == [] then -1
    else if At(m, heads[|heads| - 1]) != [] then |heads| - 1
    else Top(m, heads[..|heads| - 1])
  }

  // ---------------------------------------------------------------- making several tasks ready

  /** Queue lengths after the given cores have each received a task. */
  function Loaded(lengths: seq<int>, picks: seq<Core>): seq<int>
    requires |lengths| == NUM_CORES
    ensures |Loaded(lengths, picks)| == NUM_CORES
  {
    if picks == [] then lengths else
      var before := Loaded(lengths, picks[..|picks| - 1]);
      var c := picks[|picks| - 1];
      before[c := before[c] + 1]
  }

  /** The cores chosen when tasks with these masks are made ready one after the other on core `me`. */
  function Picks(me: Core, masks: seq<set<Core>>, lengths: seq<int>, live: nat): (r: seq<Core>)
    requires |lengths| == NUM_CORES
    ensures |r| == |masks|
  {
    if masks == [] then [] else
      var before := Picks(me, masks[..|masks| - 1], lengths, live);
      var now := Loaded(lengths, before);
      before + [PickCpu(me, masks[|masks| - 1], Seen(now, now[me], live))]
  }

  /** The core chosen for one more task. */
  lemma PickNext(me: Core, masks: seq<set<Core>>, mask: set<Core>, lengths: seq<int>, live: nat, now: seq<int>, c: Core)
    requires |lengths| == NUM_CORES && now == Loaded(lengths, Picks(me, masks, lengths, live))
    requires c == PickCpu(me, mask, Seen(now, now[me], live))
    ensures Picks(me, masks + [mask], lengths, live) == Picks(me, masks, lengths, live) + [c]
    ensures Loaded(lengths, Picks(me, masks, lengths, live) + [c]) == now[c := now[c] + 1]
  {
    PickMore(me, masks, mask, lengths, live);
    LoadMore(lengths, Picks(me, masks, lengths, live), c);
  }

  lemma PickMore(me: Core, masks: seq<set<Core>>, mask: set<Core>, lengths: seq<int>, live: nat)
    requires |lengths| == NUM_CORES
    ensures var before := Picks(me, masks, lengths, live);
      var now := Loaded(lengths, before);
      Picks(me, masks + [mask], lengths, live) == before + [PickCpu(me, mask, Seen(now, now[me], live))]
  {
    assert (masks + [mask])[..|masks|] == masks && (masks + [mask])[|masks|] == mask;
  }

  lemma LoadMore(lengths: seq<int>, picks: seq<Core>, c: Core)
    requires |lengths| == NUM_CORES
    ensures Loaded(lengths, picks + [c]) == Loaded(lengths, picks)[c := Loaded(lengths, picks)[c] + 1]
  {
    assert (picks + [c])[..|picks|] == picks;
  }

  // ---------------------------------------------------------------- pull migration

  /** `busy->length / idle->length < 1.2`: the quotient is an integer. Dividing by zero is undefined in C; the
      AArch64 SDIV gives 0, so the test holds. */
  predicate Balanced(busy: nat, idle: nat) {
    idle == 0 || busy / idle <= 1
  }

  lemma BalancedMeans(busy: nat, idle: nat)
    ensures Balanced(busy, idle) <==> idle == 0 || busy < 2 * idle
  {
    if idle > 0 {
      assert busy == idle * (busy / idle) + busy % idle;
      if busy / idle <= 1 {
        assert idle * (busy / idle) <= idle * 1;
      } else {
        assert idle * (busy / idle) >= idle * 2;
      }
    }
  }

  datatype Pulled<N> = Pulled(rest: seq<N>, moved: seq<N>, busy: nat, idle: nat)

  /** The reverse scan of sched_pull over the list `s`: the tasks left, the tasks moved in the order they
      were moved, and the two lengths afterwards. */
  function PullScan<N>(s: seq<N>, allowed: N -> bool, busy: nat, idle: nat): Pulled<N>
    requires |s| <= busy
  {
    if s == [] || Balanced(busy, idle) then Pulled(s, [], busy, idle) else
      var front, n := s[..|s| - 1], s[|s| - 1];
      if allowed(n) then
        var r := PullScan(front, allowed, busy - 1, idle + 1);
        r.(moved := [n] + r.moved)
      else
        var r := PullScan(front, allowed, busy, idle);
        r.(rest := r.rest + [n])
  }

  /** Part of the way through the scan of `s`: `front` is still to be looked at, `after` has been passed over, `moved`
      has been moved. */
  ghost predicate Scanned<N>(s: seq<N>, allowed: N -> bool, busy0: nat, idle0: nat,
                                   front: seq<N>, after: seq<N>, moved: seq<N>, busy: int, idle: int) {
    |s| <= busy0 && |front| <= busy && 0 <= idle &&
    var whole, r := PullScan(s, allowed, busy0, idle0), PullScan(front, allowed, busy, idle);
    whole.rest == r.rest + after && whole.moved == moved + r.moved && whole.busy == r.busy && whole.idle == r.idle
  }

  lemma ScanNext<N>(s: seq<N>, allowed: N -> bool, busy0: nat, idle0: nat,
                          front: seq<N>, after: seq<N>, moved: seq<N>, busy: int, idle: int)
    requires Scanned(s, allowed, busy0, idle0, front, after, moved, busy, idle)
    requires front != [] && !Balanced(busy, idle)
    ensures var n, f := front[|front| - 1], front[..|front| - 1];
      if allowed(n) then Scanned(s, allowed, busy0, idle0, f, after, moved + [n], busy - 1, idle + 1)
      else Scanned(s, allowed, busy0, idle0, f, [n] + after, moved, busy, idle)
  {
    var n, f := front[|front| - 1], front[..|front| - 1];
    if allowed(n) {
      var r := PullScan(f, allowed, busy - 1, idle + 1);
      assert moved + ([n] + r.moved) == moved + [n] + r.moved;
    } else {
      var r := PullScan(f, allowed, busy, idle);
      assert r.rest + [n] + after == r.rest + ([n] + after);
    }
  }

  lemma ScanEnd<N>(s: seq<N>, allowed: N -> bool, busy0: nat, idle0: nat,
                         front: seq<N>, after: seq<N>, moved: seq<N>, busy: int, idle: int)
    requires Scanned(s, allowed, busy0, idle0, front, after, moved, busy, idle)
    requires front == [] || Balanced(busy, idle)
    ensures PullScan(s, allowed, busy0, idle0) == Pulled(front + after, moved, busy, idle)
  {
    assert moved + [] == moved;
  }

  lemma {:induction false} PullSizes<N>(s: seq<N>, allowed: N -> bool, busy: nat, idle: nat)
    requires |s| <= busy
    ensures var r := PullScan(s, allowed, busy, idle);
      |r.rest| + |r.moved| == |s| && r.busy == busy - |r.moved| && r.idle == idle + |r.moved|
  {
    if s != [] && !Balanced(busy, idle) {
      if allowed(s[|s| - 1]) {
        PullSizes(s[..|s| - 1], allowed, busy - 1, idle + 1);
      } else {
        PullSizes(s[..|s| - 1], allowed, busy, idle);
      }
    }
  }

  lemma PrefixMore<N>(n: N, a: seq<N>, b: seq<N>)
    requires a <= b
    ensures [n] + a <= [n] + b
  {
  }

  /** What one step of the scan adds. */
  lemma ScanParts<N>(s: seq<N>, allowed: N -> bool, busy: nat, idle: nat)
    requires s != [] && |s| <= busy && !Balanced(busy, idle)
    ensures var front, n, r := s[..|s| - 1], s[|s| - 1], PullScan(s, allowed, busy, idle);
      if allowed(n) then
        var q := PullScan(front, allowed, busy - 1, idle + 1);
        r.moved == [n] + q.moved && r.rest == q.rest
      else
        var q := PullScan(front, allowed, busy, idle);
        r.rest == q.rest + [n] && r.moved == q.moved
  {
  }

  lemma TailFirstLast<N>(s: seq<N>, f: N -> bool)
    requires s != []
    ensures var front, n := s[..|s| - 1], s[|s| - 1];
      TailFirst(s, f) == if f(n) then [n] + TailFirst(front, f) else TailFirst(front, f)
  {
    var rest := TailFirst(s[..|s| - 1], f);
    assert [] + rest == rest;
  }

  /** These are entries that satisfy `f`, those nearest the tail first. */
  predicate TakenFirst<N(==)>(s: seq<N>, f: N -> bool, moved: seq<N>) {
    moved <= TailFirst(s, f)
  }

  lemma TakenMore<N>(s: seq<N>, f: N -> bool, moved: seq<N>)
    requires s != [] && TakenFirst(s[..|s| - 1], f, moved)
    ensures TakenFirst(s, f, if f(s[|s| - 1]) then [s[|s| - 1]] + moved else moved) == true
  {
    TailFirstLast(s, f);
    PrefixMore(s[|s| - 1], moved, TailFirst(s[..|s| - 1], f));
  }

  /** Only allowed tasks move, those nearest the tail first. */
  lemma {:induction false} PullTailFirst<N>(s: seq<N>, allowed: N -> bool, busy: nat, idle: nat)
    requires |s| <= busy
    ensures TakenFirst(s, allowed, PullScan(s, allowed, busy, idle).moved) == true
  {
    if s != [] && !Balanced(busy, idle) {
      var front := s[..|s| - 1];
      if allowed(s[|s| - 1]) {
        PullTailFirst(front, allowed, busy - 1, idle + 1);
        TakenMore(s, allowed, PullScan(front, allowed, busy - 1, idle + 1).moved);
      } else {
        PullTailFirst(front, allowed, busy, idle);
        TakenMore(s, allowed, PullScan(front, allowed, busy, idle).moved);
      }
    }
  }

  /** The tasks that may not move keep their order. */
  lemma {:induction false} PullKeepsBarred<N>(s: seq<N>, allowed: N -> bool, barred: N -> bool, busy: nat, idle: nat)
    requires |s| <= busy && forall n :: n in s ==> barred(n) == !allowed(n)
    ensures Filter(PullScan(s, allowed, busy, idle).rest, barred) == Filter(s, barred)
  {
    if s != [] && !Balanced(busy, idle) {
      var front, n := s[..|s| - 1], s[|s| - 1];
      assert n in s;
      if allowed(n) {
        PullKeepsBarred(front, allowed, barred, busy - 1, idle + 1);
      } else {
        PullKeepsBarred(front, allowed, barred, busy, idle);
        var rest := PullScan(front, allowed, busy, idle).rest;
        assert (rest + [n])[..|rest|] == rest;
      }
    }
  }

  function Times<N(==)>(s: seq<N>, x: N): nat {
    multiset(s)[x]
  }

  lemma TimesMore<N>(s: seq<N>, n: N, x: N)
    ensures Times(s + [n], x) == Times(s, x) + if n == x then 1 else 0
    ensures Times([n] + s, x) == Times(s, x) + if n == x then 1 else 0
  {
  }

  lemma TimesLast<N>(s: seq<N>, x: N)
    requires s != []
    ensures Times(s, x) == Times(s[..|s| - 1], x) + if s[|s| - 1] == x then 1 else 0
  {
    assert s == s[..|s| - 1] + [s[|s| - 1]];
  }

  /** Every task is still somewhere, exactly as often as before. */
  lemma {:induction false} PullConserves<N>(s: seq<N>, allowed: N -> bool, busy: nat, idle: nat, x: N)
    requires |s| <= busy
    ensures var r := PullScan(s, allowed, busy, idle); Times(r.rest, x) + Times(r.moved, x) == Times(s, x)
  {
    if s != [] && !Balanced(busy, idle) {
      var front, n := s[..|s| - 1], s[|s| - 1];
      ScanParts(s, allowed, busy, idle);
      TimesLast(s, x);
      if allowed(n) {
        PullConserves(front, allowed, busy - 1, idle + 1, x);
        TimesMore(PullScan(front, allowed, busy - 1, idle + 1).moved, n, x);
      } else {
        PullConserves(front, allowed, busy, idle, x);
        TimesMore(PullScan(front, allowed, busy, idle).rest, n, x);
      }
    }
  }

  /** Beyond index `i` whatever satisfies `f` has been moved, and nothing else. */
  predicate CutAt<N(==)>(s: seq<N>, f: N -> bool, rest: seq<N>, moved: seq<N>, i: nat) {
    i <= |s| && rest == s[..i] + Reject(s[i..], f) && moved == TailFirst(s[i..], f)
  }

  lemma CutMore<N>(s: seq<N>, f: N -> bool, rest: seq<N>, moved: seq<N>, i: nat)
    requires s != [] && CutAt(s[..|s| - 1], f, rest, moved, i)
    ensures var n := s[|s| - 1];
      CutAt(s, f, if f(n) then rest else rest + [n], if f(n) then [n] + moved else moved, i)
  {
    assert s[i..][..|s[i..]| - 1] == s[..|s| - 1][i..] && s[..|s| - 1][..i] == s[..i];
    TailFirstLast(s[i..], f);
  }

  lemma CutNone<N>(s: seq<N>, f: N -> bool)
    ensures CutAt(s, f, s, [], |s|)
  {
    assert s[..|s|] + [] == s;
  }

  /** All of the scan: where it stops, either the list is at its end or the queues are close enough; beyond that, what
      may move has been moved, and nothing else. */
  lemma {:induction false} PullExactly<N>(s: seq<N>, allowed: N -> bool, busy: nat, idle: nat) returns (i: nat)
    requires |s| <= busy
    ensures var r := PullScan(s, allowed, busy, idle);
      CutAt(s, allowed, r.rest, r.moved, i) == true && (i == 0 || Balanced(r.busy, r.idle))
  {
    if s == [] || Balanced(busy, idle) {
      i := |s|;
      CutNone(s, allowed);
    } else {
      var front, n := s[..|s| - 1], s[|s| - 1];
      var r := PullScan(front, allowed, if allowed(n) then busy - 1 else busy, if allowed(n) then idle + 1 else idle);
      i := PullExactly(front, allowed, if allowed(n) then busy - 1 else busy, if allowed(n) then idle + 1 else idle);
      CutMore(s, allowed, r.rest, r.moved, i);
    }
  }

  /** The queues are far apart after `k` moves. */
  predicate FarApart(busy: nat, idle: nat, k: nat) {
    k <= busy && !Balanced(busy - k, idle + k)
  }

  /** No task is moved once the queues are close enough. */
  lemma {:induction false} PullStops<N>(s: seq<N>, allowed: N -> bool, busy: nat, idle: nat, k: nat)
    requires |s| <= busy && k < |PullScan(s, allowed, busy, idle).moved|
    ensures FarApart(busy, idle, k)
  {
    if allowed(s[|s| - 1]) {
      if k > 0 { PullStops(s[..|s| - 1], allowed, busy - 1, idle + 1, k - 1); }
    } else {
      PullStops(s[..|s| - 1], allowed, busy, idle, k);
    }
  }

  /** The lengths still add up, the larger one has not grown, and the scan stopped either because the
      queues were close enough or because nothing left on the list may run on the puller. */
  lemma {:induction false} PullBalances<N>(s: seq<N>, allowed: N -> bool, busy: nat, idle: nat)
    requires |s| <= busy
    ensures var r := PullScan(s, allowed, busy, idle);
      && r.busy + r.idle == busy + idle
      && r.idle == idle + |r.moved|
      && (r.busy <= busy || r.busy <= idle) && (r.idle <= busy || r.idle <= idle)
      && (Balanced(r.busy, r.idle) || forall n :: n in r.rest ==> !allowed(n))
  {
    BalancedMeans(busy, idle);
    if s != [] && !Balanced(busy, idle) {
      var front, n := s[..|s| - 1], s[|s| - 1];
      if allowed(n) {
        PullBalances(front, allowed, busy - 1, idle + 1);
      } else {
        PullBalances(front, allowed, busy, idle);
      }
    }
  }
}
