/** What a core that wakes waiters does over a run: it serves them in the order they arrived, and no other core gets
    between them, whatever those cores do meanwhile. */
module KernelWakes {
  import opened Rings
  import opened Placement
  import opened Kernel
  import opened KernelInvariants
  import opened KernelSems
  import opened KernelJoins
  import opened KernelTheorems

  /** The core holds the lock of a wait queue and is waking its tasks. */
  predicate Wakes(ph: Phase) {
    ph.Posting? || ph.Burying?
  }

  /** No other core is waking the tasks of the same queue. */
  ghost predicate SoleWaker(s: State, c: Core)
    requires Shaped(s) && Wakes(s.phase[c])
  {
    forall d: Core :: d != c && Wakes(s.phase[d]) ==> Waking(s.phase[d]) != Waking(s.phase[c])
  }

  lemma OneWaker(s: State, c: Core)
    requires Reachable(s) && Wakes(s.phase[c])
    ensures SoleWaker(s, c) && (s.phase[c].Posting? ==> s.phase[c].sem in s.sems)
  {
    ReachableInv(s);
    assert PosterOk(s, c) && DeadOk(s, c);
  }

  /** A core that is waking the tasks of a queue does nothing else until it is done. */
  lemma WakerActs(s: State, e: Event, c: Core)
    requires Enabled(s, e) && Wakes(s.phase[c]) && e.core == c && e != WakeDone(c)
    ensures e.Wake? && Wakes(PhaseAfter(s, e)) && Waking(PhaseAfter(s, e)) == Waking(s.phase[c])
    ensures At(s.own, Waking(s.phase[c])) != []
    ensures EffectOf(s, e).Shift? && EffectOf(s, e).from == Waking(s.phase[c]) && EffectOf(s, e).index == 0
    ensures EffectOf(s, e).to.Ready?
  {
  }

  /** Whoever waits on a queue whose lock is taken is left alone. */
  lemma OthersKeepOff(s: State, e: Event, c: Core)
    requires Enabled(s, e) && Wakes(s.phase[c]) && SoleWaker(s, c) && e.core != c && EffectOf(s, e).Shift?
    ensures EffectOf(s, e).from != Waking(s.phase[c]) && EffectOf(s, e).to != Waking(s.phase[c])
  {
  }

  lemma PlaceLeft(own: map<Place, seq<Tid>>, f: Effect, pid: Tid, w: Place)
    requires Fits(own, f) && w.Wait? && (f.Shift? ==> f.from != w && f.to != w)
    ensures At(Moved(own, f, pid), w) == At(own, w)
  {
  }

  /** An event of the waking core takes the first task of the queue; one of another core leaves the queue alone. */
  lemma QueueServed(s: State, e: Event, c: Core)
    requires Enabled(s, e) && Fits(s.own, EffectOf(s, e)) && Wakes(s.phase[c]) && SoleWaker(s, c) && e != WakeDone(c)
    ensures e.core == c ==> e.Wake? && Wakes(PhaseAfter(s, e)) && Waking(PhaseAfter(s, e)) == Waking(s.phase[c])
    ensures At(Moved(s.own, EffectOf(s, e), s.nextPid), Waking(s.phase[c]))
      == if e.core == c then At(s.own, Waking(s.phase[c]))[1..] else At(s.own, Waking(s.phase[c]))
    ensures e.core == c ==> At(s.own, Waking(s.phase[c])) != []
  {
    if e.core == c {
      WakerActs(s, e, c);
    } else {
      if EffectOf(s, e).Shift? { OthersKeepOff(s, e, c); }
      PlaceLeft(s.own, EffectOf(s, e), s.nextPid, Waking(s.phase[c]));
    }
  }

  /** The task an event of core `c` wakes, if it wakes one. */
  function Takes(s: State, e: Event, c: Core): seq<Tid>
    requires Enabled(s, e)
  {
    if e.Wake? && e.core == c then [First(s, Waking(s.phase[c]))] else []
  }

  /** The tasks core `c` wakes along a run, in order. */
  function Woken(s: State, es: seq<Event>, c: Core): seq<Tid>
    requires Runs(s, es)
    decreases es
  {
    if es == [] then [] else Takes(s, es[0], c) + Woken(After(s, es[0]), es[1..], c)
  }

  /** One event at a time. */
  lemma WakeStep(s: State, e: Event, c: Core, w: Place, r: State)
    requires Reachable(s) && Enabled(s, e) && Wakes(s.phase[c])
    requires w == Waking(s.phase[c]) && e != WakeDone(c) && r == After(s, e)
    ensures Reachable(r) && Wakes(r.phase[c]) && Waking(r.phase[c]) == w
    ensures At(s.own, w) == Takes(s, e, c) + At(r.own, w)
  {
    ReachableStep(s, e);
    OneWaker(s, c);
    EffectFits(s, e);
    QueueServed(s, e, c);
  }

  lemma FirstWoken(s: State, es: seq<Event>, c: Core, r: State)
    requires es != [] && Runs(s, es) && Enabled(s, es[0]) && r == After(s, es[0])
    ensures Runs(r, es[1..]) && End(s, es) == End(r, es[1..])
    ensures Woken(s, es, c) == Takes(s, es[0], c) + Woken(r, es[1..], c)
  {
  }

  /** While core `c` wakes the tasks of a queue, it takes them from the front one by one, nobody joins them and
      nobody else takes one. */
  lemma {:induction false} WakeOrder(s: State, es: seq<Event>, c: Core, w: Place, end: State)
    requires Reachable(s) && Runs(s, es) && Wakes(s.phase[c]) && w == Waking(s.phase[c]) && WakeDone(c) !in es
    requires end == End(s, es)
    ensures Reachable(end) && Wakes(end.phase[c]) && Waking(end.phase[c]) == w
    ensures At(s.own, w) == Woken(s, es, c) + At(end.own, w)
    decreases es
  {
    if es != [] {
      var r := After(s, es[0]);
      WakeStep(s, es[0], c, w, r);
      FirstWoken(s, es, c, r);
      WakeOrder(r, es[1..], c, w, end);
      Glue(Takes(s, es[0], c), Woken(r, es[1..], c), At(end.own, w));
    }
  }

  lemma Glue<N>(x: seq<N>, y: seq<N>, z: seq<N>)
    ensures x + (y + z) == x + y + z
  {
  }

  // ---------------------------------------------------------------- posting

  /** The semaphore after its poster has woken `n` more waiters, having woken `before` already. */
  function Served(sem: Sem, n: nat, before: nat): Sem {
    sem.(grants := sem.grants + n, extra := sem.extra + if before == 0 && n > 0 then n - 1 else n)
  }

  /** While a core wakes the waiters of a semaphore, only its own wakes change the semaphore. */
  lemma PosterOwns(s: State, e: Event, c: Core, q: nat)
    requires Enabled(s, e) && s.phase[c].Posting? && s.phase[c].sem == q
    requires q in s.sems && SoleWaker(s, c) && e != WakeDone(c)
    ensures q in SemsAfter(s, e) && SemsAfter(s, e)[q] == Served(s.sems[q], |Takes(s, e, c)|, s.phase[c].woken)
    ensures e.core == c ==> PhaseAfter(s, e) == Posting(q, s.phase[c].woken + |Takes(s, e, c)|)
  {
    if e.core == c {
      WakerActs(s, e, c);
    } else {
      OthersLeaveSem(s, e, c, q);
    }
  }

  lemma OthersLeaveSem(s: State, e: Event, c: Core, q: nat)
    requires Enabled(s, e) && s.phase[c].Posting? && s.phase[c].sem == q && q in s.sems && SoleWaker(s, c)
    requires e.core != c
    ensures q in SemsAfter(s, e) && SemsAfter(s, e)[q] == s.sems[q]
  {
    if e.Wake? && s.phase[e.core].Posting? { assert Waking(s.phase[e.core]) != Waking(s.phase[c]); }
  }

  /** From `s` to `r` core `c`, which holds the lock of the semaphore throughout, has woken `n` waiters, and nothing
      else has happened to it. */
  predicate Waked(s: State, r: State, c: Core, q: nat, n: nat) {
    && Shaped(s) && Shaped(r) && s.phase[c].Posting? && s.phase[c].sem == q && q in s.sems && q in r.sems
    && r.bounded == s.bounded
    && r.phase[c] == Posting(q, s.phase[c].woken + n) && r.sems[q] == Served(s.sems[q], n, s.phase[c].woken)
  }

  lemma WakedTwice(s: State, r: State, u: State, c: Core, q: nat, a: nat, b: nat, n: nat)
    requires Waked(s, r, c, q, a) == true && Waked(r, u, c, q, b) == true && n == a + b
    ensures Waked(s, u, c, q, n) == true
  {
  }

  lemma PostStep(s: State, e: Event, c: Core, q: nat, r: State)
    requires Reachable(s) && Enabled(s, e) && s.phase[c].Posting?
    requires s.phase[c].sem == q && e != WakeDone(c) && r == After(s, e)
    ensures Reachable(r) && Waked(s, r, c, q, |Takes(s, e, c)|)
  {
    ReachableStep(s, e);
    OneWaker(s, c);
    PosterOwns(s, e, c, q);
  }

  lemma {:induction false} PostHistory(s: State, es: seq<Event>, c: Core, q: nat, end: State)
    requires Reachable(s) && Runs(s, es) && s.phase[c].Posting? && s.phase[c].sem == q && WakeDone(c) !in es
    requires end == End(s, es)
    ensures Waked(s, end, c, q, |Woken(s, es, c)|) == true
    decreases es
  {
    if es == [] {
      NoneWaked(s, c, q);
    } else {
      var r := After(s, es[0]);
      PostFirst(s, es, c, q, r, |Takes(s, es[0], c)|);
      PostHistory(r, es[1..], c, q, end);
      WakedTwice(s, r, end, c, q, |Takes(s, es[0], c)|, |Woken(r, es[1..], c)|, |Woken(s, es, c)|);
    }
  }

  lemma NoneWaked(s: State, c: Core, q: nat)
    requires Reachable(s) && s.phase[c].Posting? && s.phase[c].sem == q
    ensures Waked(s, s, c, q, 0) == true
  {
    OneWaker(s, c);
  }

  lemma PostFirst(s: State, es: seq<Event>, c: Core, q: nat, r: State, n: nat)
    requires Reachable(s) && es != [] && Runs(s, es) && s.phase[c].Posting? && s.phase[c].sem == q && WakeDone(c) !in es
    requires r == After(s, es[0]) && n == |Takes(s, es[0], c)|
    ensures Reachable(r) && Runs(r, es[1..]) && r.phase[c].Posting? && r.phase[c].sem == q && WakeDone(c) !in es[1..]
    ensures End(s, es) == End(r, es[1..]) && |Woken(s, es, c)| == n + |Woken(r, es[1..], c)|
    ensures Waked(s, r, c, q, n) == true
  {
    PostStep(s, es[0], c, q, r);
    FirstWoken(s, es, c, r);
  }

  /** sem_post on a semaphore with waiters, from its lock to its unlock. As written it empties the wait list: every
      task that waited is woken, in arrival order, all but one of them beyond what the post put in. With nr honoured
      it wakes exactly the one that waited longest. */
  lemma PostServes(s: State, es: seq<Event>, c: Core, q: nat, r: State, end: State)
    requires Reachable(s) && Enabled(s, SemPost(c, q)) && Waiters(s, q) != [] && r == After(s, SemPost(c, q))
    requires Runs(r, es) && WakeDone(c) !in es && end == End(r, es) && Enabled(end, WakeDone(c))
    ensures Woken(r, es, c) == if s.bounded then Waiters(s, q)[..1] else Waiters(s, q)
    ensures Waiters(end, q) == if s.bounded then Waiters(s, q)[1..] else []
    ensures q in end.sems && end.sems[q] == Served(s.sems[q].(posts := s.sems[q].posts + 1), |Woken(r, es, c)|, 0)
  {
    Posted(s, c, q, r);
    PostingEnds(r, es, c, q, end);
  }

  lemma PostingEnds(s: State, es: seq<Event>, c: Core, q: nat, end: State)
    requires Reachable(s) && s.phase[c] == Posting(q, 0) && Waiters(s, q) != []
    requires q in s.sems && !s.sems[q].doomed
    requires Runs(s, es) && WakeDone(c) !in es && end == End(s, es) && Enabled(end, WakeDone(c))
    ensures Woken(s, es, c) == if s.bounded then Waiters(s, q)[..1] else Waiters(s, q)
    ensures Waiters(end, q) == if s.bounded then Waiters(s, q)[1..] else []
    ensures q in end.sems && q in s.sems && end.sems[q] == Served(s.sems[q], |Woken(s, es, c)|, 0)
  {
    WakeOrder(s, es, c, Wait(SemQ(q)), end);
    PostHistory(s, es, c, q, end);
    PostEnds(s, end, c, q, |Woken(s, es, c)|);
    if s.bounded { OneWoken(s, es, c, q); }
  }

  lemma Posted(s: State, c: Core, q: nat, r: State)
    requires Reachable(s) && Enabled(s, SemPost(c, q)) && Waiters(s, q) != [] && r == After(s, SemPost(c, q))
    ensures Reachable(r) && r.phase[c] == Posting(q, 0) && Waiters(r, q) == Waiters(s, q) && r.bounded == s.bounded
    ensures q in r.sems && r.sems[q] == s.sems[q].(posts := s.sems[q].posts + 1)
  {
    ReachableStep(s, SemPost(c, q));
  }

  /** A semaphore that a destroy is done with. */
  predicate Retired(s: State, q: nat) {
    q in s.sems && s.sems[q].doomed && NobodyWakes(s, q)
  }

  /** sem_destroy on a semaphore with waiters, from its lock to the end of its wakes: every task that waited is woken,
      in arrival order and whether or not nr is honoured, the count stays, and the lock stays taken. */
  lemma DestroyServes(s: State, es: seq<Event>, c: Core, q: nat, r: State, end: State)
    requires Reachable(s) && Enabled(s, SemDestroy(c, q)) && Waiters(s, q) != [] && r == After(s, SemDestroy(c, q))
    requires Runs(r, es) && WakeDone(c) !in es && end == End(r, es) && Enabled(end, WakeDone(c))
    ensures Woken(r, es, c) == Waiters(s, q) && Waiters(end, q) == []
    ensures q in end.sems && end.sems[q] == Served(s.sems[q].(doomed := true), |Waiters(s, q)|, 1)
    ensures Retired(After(end, WakeDone(c)), q)
  {
    Destroyed(s, c, q, r);
    WakeOrder(r, es, c, Wait(SemQ(q)), end);
    PostHistory(r, es, c, q, end);
    AllWoken(end, c, q);
  }

  lemma AllWoken(end: State, c: Core, q: nat)
    requires Reachable(end) && Enabled(end, WakeDone(c)) && end.phase[c].Posting? && end.phase[c].sem == q
    requires q in end.sems && end.sems[q].doomed
    ensures Waiters(end, q) == [] && Retired(After(end, WakeDone(c)), q)
  {
    OneWaker(end, c);
    var r := After(end, WakeDone(c));
    forall d: Core ensures !(r.phase[d].Posting? && r.phase[d].sem == q) {
      if d != c { assert r.phase[d] == end.phase[d]; }
    }
  }

  lemma Destroyed(s: State, c: Core, q: nat, r: State)
    requires Reachable(s) && Enabled(s, SemDestroy(c, q)) && Waiters(s, q) != [] && r == After(s, SemDestroy(c, q))
    ensures Reachable(r) && r.phase[c] == Posting(q, 1) && Waiters(r, q) == Waiters(s, q)
    ensures q in r.sems && r.sems[q] == s.sems[q].(doomed := true)
  {
    ReachableStep(s, SemDestroy(c, q));
  }

  /** No call on a destroyed semaphore goes on, and nothing happens to it, until it is initialised again; then it is as
      good as new. */
  lemma RetiredStep(s: State, e: Event, q: nat, r: State)
    requires Reachable(s) && Retired(s, q) && Enabled(s, e) && r == After(s, e)
    ensures !((e.SemWait? || e.SemTryWait? || e.SemPost? || e.SemDestroy?) && e.sem == q)
    ensures Reachable(r) && Waiters(r, q) == [] && q in r.sems && NobodyWakes(r, q)
    ensures r.sems[q] == if Renews(e, q) then Sem(e.init, e.init, 0, 0, 0, false) else s.sems[q]
  {
    ReachableStep(s, e);
    RetiredDeserted(s, q);
    SemPartsAfter(s, e);
    RetiredSame(s, e, q, r);
  }

  lemma RetiredDeserted(s: State, q: nat)
    requires Reachable(s) && Retired(s, q)
    ensures Waiters(s, q) == [] && forall c: Core :: PosterOk(s, c)
  {
    ReachableInv(s);
    assert Deserted(s, q);
  }

  lemma RetiredSame(s: State, e: Event, q: nat, r: State)
    requires Enabled(s, e) && Fits(s.own, EffectOf(s, e)) && SemParts(s, e, r)
    requires Retired(s, q) && Waiters(s, q) == [] && PosterOk(s, e.core)
    ensures !((e.SemWait? || e.SemTryWait? || e.SemPost? || e.SemDestroy?) && e.sem == q)
    ensures Waiters(r, q) == [] && q in r.sems && NobodyWakes(r, q)
    ensures r.sems[q] == if Renews(e, q) then Sem(e.init, e.init, 0, 0, 0, false) else s.sems[q]
  {
    WaitersChange(s, e, q);
    if PhaseAfter(s, e).Posting? { PostingFrom(s, e); }
  }

  lemma {:induction false} RetiredRun(s: State, es: seq<Event>, q: nat, end: State)
    requires Reachable(s) && Retired(s, q) && Runs(s, es) && end == End(s, es) && !Renewed(es, q)
    ensures Retired(end, q) && end.sems[q] == s.sems[q] && Waiters(end, q) == []
    decreases es
  {
    RetiredDeserted(s, q);
    if es != [] {
      RetiredStep(s, es[0], q, After(s, es[0]));
      RetiredRun(After(s, es[0]), es[1..], q, end);
    }
  }

  /** A poster is done when the list is empty, or when it has woken one and the bound counts. */
  lemma PostEnds(s: State, end: State, c: Core, q: nat, n: nat)
    requires Enabled(end, WakeDone(c)) && end.phase[c] == Posting(q, n) && end.bounded == s.bounded
    ensures !s.bounded ==> Waiters(end, q) == []
    ensures s.bounded ==> Waiters(end, q) == [] || n > 0
  {
  }

  /** With nr honoured a poster never wakes a second waiter. */
  lemma {:induction false} OneWoken(s: State, es: seq<Event>, c: Core, q: nat)
    requires Reachable(s) && s.bounded && Runs(s, es) && WakeDone(c) !in es
    requires s.phase[c].Posting? && s.phase[c].sem == q && s.phase[c].woken <= 1
    requires q in s.sems && !s.sems[q].doomed
    ensures s.phase[c].woken + |Woken(s, es, c)| <= 1
    decreases es
  {
    if es != [] {
      var r := After(s, es[0]);
      PostFirst(s, es, c, q, r, |Takes(s, es[0], c)|);
      NoSecond(s, es[0], c, q);
      OneWoken(r, es[1..], c, q);
    }
  }

  lemma NoSecond(s: State, e: Event, c: Core, q: nat)
    requires Enabled(s, e) && s.bounded && s.phase[c].Posting? && s.phase[c].sem == q
    requires q in s.sems && !s.sems[q].doomed
    ensures |Takes(s, e, c)| <= 1 && (s.phase[c].woken > 0 ==> Takes(s, e, c) == [])
  {
  }

  /** As written, a post that finds waiters leaves the balance of the semaphore alone, from its lock to its unlock,
      exactly when it finds a single one; a caller sees the guard in the length of the wait list. */
  lemma PostWakesOne(s: State, es: seq<Event>, c: Core, q: nat, r: State, end: State)
    requires Reachable(s) && !s.bounded && Enabled(s, SemPost(c, q)) && Waiters(s, q) != []
    requires r == After(s, SemPost(c, q))
    requires Runs(r, es) && WakeDone(c) !in es && end == End(r, es) && Enabled(end, WakeDone(c))
    ensures q in end.sems && (end.sems[q].extra == s.sems[q].extra <==> |Waiters(s, q)| == 1)
  {
    PostServes(s, es, c, q, r, end);
  }

  // ---------------------------------------------------------------- exiting

  /** What one wake of proc_exit does for the joiner at the front: its call returns 0, the exit value is where it
      asked for it, and it is at the tail of a run queue it may be in. */
  lemma JoinerServed(s: State, c: Core, seen: Seen, r: State)
    requires Reachable(s) && Enabled(s, Wake(c, seen)) && s.phase[c].Burying? && r == After(s, Wake(c, seen))
    ensures var j := First(s, Waking(s.phase[c]));
      && j in r.tasks && r.tasks[j].ret == 0
      && (r.tasks[j].status.Cell? ==>
            r.tasks[j].status.addr in r.cells && r.cells[r.tasks[j].status.addr] == s.phase[c].value)
      && exists d: Core :: Obeys(r.tasks[j].mask, d)
           && At(r.own, Ready(d, r.tasks[j].prio)) == At(s.own, Ready(d, r.tasks[j].prio)) + [j]
  {
    var j := First(s, Waking(s.phase[c]));
    var mask := s.tasks[j].mask;
    PickCpuObeys(c, mask, seen);
    var d := PickCpu(c, mask, seen);
    assert Obeys(r.tasks[j].mask, d);
    assert At(r.own, Ready(d, r.tasks[j].prio)) == At(s.own, Ready(d, r.tasks[j].prio)) + [j];
  }

  /** proc_exit, from taking waiting.lock to dropping it: every task that had joined is woken, in the order in which
      they joined, and none is left. */
  lemma ExitServes(s: State, es: seq<Event>, c: Core, t: Tid, r: State, end: State)
    requires Reachable(s) && Enabled(s, Bury(c)) && s.phase[c].task == t && r == After(s, Bury(c))
    requires Runs(r, es) && WakeDone(c) !in es && end == End(r, es) && Enabled(end, WakeDone(c))
    ensures Woken(r, es, c) == Joiners(s, t) && Joiners(end, t) == []
  {
    Buried(s, c, t, r);
    WakeOrder(r, es, c, Wait(JoinQ(t)), end);
    BuryEnds(end, c, t);
  }

  lemma Buried(s: State, c: Core, t: Tid, r: State)
    requires Reachable(s) && Enabled(s, Bury(c)) && s.phase[c].task == t && r == After(s, Bury(c))
    ensures Reachable(r) && Wakes(r.phase[c]) && Waking(r.phase[c]) == Wait(JoinQ(t)) && Joiners(r, t) == Joiners(s, t)
  {
    ReachableStep(s, Bury(c));
  }

  lemma BuryEnds(end: State, c: Core, t: Tid)
    requires Enabled(end, WakeDone(c)) && Waking(end.phase[c]) == Wait(JoinQ(t))
    ensures Joiners(end, t) == []
  {
  }
}
