/** Semaphores over every interleaving: what the count, the waiters and the history of posts, grants and destroys
    keep. */
module KernelSems {
  import opened Rings
  import opened Placement
  import opened Kernel
  import opened KernelInvariants

  function Waiters(s: State, q: nat): seq<Tid> {
    At(s.own, Wait(SemQ(q)))
  }

  /** 1 for a core that has counted a post whose first wake is still to come. */
  function Owes(ph: Phase, q: nat): int {
    if ph == Posting(q, 0) then 1 else 0
  }

  function Pending(s: State, q: nat): int
    requires Shaped(s)
  {
    Owes(s.phase[0], q) + Owes(s.phase[1], q) + Owes(s.phase[2], q) + Owes(s.phase[3], q)
  }

  /** What was put in less what was taken out. */
  function Net(sem: Sem): int {
    sem.init + sem.posts + sem.extra - sem.grants
  }

  /** The count is that difference, modulo its width. */
  predicate Balanced(sem: Sem, pending: int) {
    sem.count == (Net(sem) - pending) % UINT32
  }

  /** Only a destroy has woken more than posts put in. */
  predicate Frugal(sem: Sem) {
    !sem.doomed ==> sem.extra == 0
  }

  /** The event initialises the semaphore, for the first time or anew. */
  predicate Renews(e: Event, q: nat) {
    e.SemInit? && e.sem == q
  }

  /** Some event of the run does. */
  predicate Renewed(es: seq<Event>, q: nat) {
    es != [] && (Renews(es[0], q) || Renewed(es[1..], q))
  }

  ghost predicate SemOk(s: State, q: nat)
    requires Shaped(s)
  {
    if q in s.sems then
      && s.sems[q].count < UINT32
      && (Waiters(s, q) != [] ==> s.sems[q].count == 0)
      && (s.bounded ==> Frugal(s.sems[q]))
      && Balanced(s.sems[q], Pending(s, q))
    else Waiters(s, q) == [] && Pending(s, q) == 0
  }

  ghost predicate PosterOk(s: State, c: Core)
    requires Shaped(s)
  {
    s.phase[c].Posting? ==>
      && s.phase[c].sem in s.sems
      && (s.phase[c].woken == 0 ==> Waiters(s, s.phase[c].sem) != [])
      && forall d: Core :: d != c ==> !(s.phase[d].Posting? && s.phase[d].sem == s.phase[c].sem)
  }

  /** Nobody waits where a destroy has been. */
  predicate Deserted(s: State, q: nat) {
    q in s.sems && s.sems[q].doomed && NobodyWakes(s, q) ==> Waiters(s, q) == []
  }

  ghost predicate Sems(s: State) {
    && Shaped(s) && (forall q: nat :: SemOk(s, q)) && (forall q: nat :: Deserted(s, q))
    && forall c: Core :: PosterOk(s, c)
  }

  /** Only a wait that finds the count 0 joins the waiters; only the core holding the lock takes one away. */
  lemma WaitersChange(s: State, e: Event, q: nat)
    requires Enabled(s, e) && Fits(s.own, EffectOf(s, e))
    ensures |At(Moved(s.own, EffectOf(s, e), s.nextPid), Wait(SemQ(q)))| == |Waiters(s, q)|
      + (if e.SemWait? && e.sem == q && s.sems[q].count == 0 then 1 else 0)
      - (if e.Wake? && s.phase[e.core].Posting? && s.phase[e.core].sem == q then 1 else 0)
  {
    MovedLength(s.own, EffectOf(s, e), s.nextPid, Wait(SemQ(q)));
    SemChange(s, e, q);
  }

  lemma SemChange(s: State, e: Event, q: nat)
    requires Enabled(s, e)
    ensures Change(EffectOf(s, e), Wait(SemQ(q))) ==
      (if e.SemWait? && e.sem == q && s.sems[q].count == 0 then 1 else 0)
      - (if e.Wake? && s.phase[e.core].Posting? && s.phase[e.core].sem == q then 1 else 0)
  {
  }

  /** How an event changes the count of a semaphore. */
  function Delta(s: State, e: Event, q: nat): int
    requires Enabled(s, e)
  {
    if e.SemPost? && e.sem == q && Waiters(s, q) == [] then 1
    else if e.SemWait? && e.sem == q && s.sems[q].count > 0 then -1
    else if e.SemTryWait? && e.sem == q && TryGrants(s.sems[q]) then -1
    else 0
  }

  lemma CountStep(s: State, e: Event, q: nat)
    requires Shaped(s) && Enabled(s, e) && q in s.sems && s.sems[q].count < UINT32 && !Renews(e, q)
    ensures q in SemsAfter(s, e) && SemsAfter(s, e)[q].count == (s.sems[q].count + Delta(s, e, q)) % UINT32
  {
    if e.SemTryWait? && e.sem == q && TryGrants(s.sems[q]) { GrantedCount(s.sems[q].count); }
  }

  lemma GrantedCount(count: nat)
    ensures (count + UINT32 - 1) % UINT32 == (count - 1) % UINT32
  {
  }

  /** The history changes as much as the count, for a post, ... */
  lemma HistoryPost(s: State, e: Event, q: nat)
    requires Shaped(s) && e.SemPost? && Enabled(s, e) && q in s.sems
    ensures q in SemsAfter(s, e)
    ensures Net(SemsAfter(s, e)[q]) - Owes(PhaseAfter(s, e), q)
      == Net(s.sems[q]) - Owes(s.phase[e.core], q) + Delta(s, e, q)
  {
  }

  /** ... for one of its wakes, ... */
  lemma HistoryWake(s: State, e: Event, q: nat)
    requires Shaped(s) && e.Wake? && Enabled(s, e) && q in s.sems
    ensures q in SemsAfter(s, e)
    ensures Net(SemsAfter(s, e)[q]) - Owes(PhaseAfter(s, e), q)
      == Net(s.sems[q]) - Owes(s.phase[e.core], q) + Delta(s, e, q)
  {
  }

  /** ... and for any other event. */
  lemma HistoryElse(s: State, e: Event, q: nat)
    requires Shaped(s) && !e.SemPost? && !e.Wake? && !Renews(e, q) && Enabled(s, e) && q in s.sems
    ensures q in SemsAfter(s, e) && Net(SemsAfter(s, e)[q]) == Net(s.sems[q]) + Delta(s, e, q)
  {
  }

  lemma OwesElse(s: State, e: Event, q: nat)
    requires Shaped(s) && !e.SemPost? && !e.Wake? && Enabled(s, e) && PosterOk(s, e.core)
    ensures Owes(PhaseAfter(s, e), q) == Owes(s.phase[e.core], q) == 0
  {
  }

  lemma HistoryStep(s: State, e: Event, q: nat)
    requires Shaped(s) && Enabled(s, e) && q in s.sems && PosterOk(s, e.core) && !Renews(e, q)
    ensures q in SemsAfter(s, e)
    ensures Net(SemsAfter(s, e)[q]) - Owes(PhaseAfter(s, e), q)
      == Net(s.sems[q]) - Owes(s.phase[e.core], q) + Delta(s, e, q)
  {
    if e.SemPost? {
      HistoryPost(s, e, q);
    } else if e.Wake? {
      HistoryWake(s, e, q);
    } else {
      HistoryElse(s, e, q);
      OwesElse(s, e, q);
    }
  }

  lemma ExtraStep(s: State, e: Event, q: nat)
    requires Shaped(s) && Enabled(s, e) && q in s.sems && s.bounded
    ensures q in SemsAfter(s, e) && (Frugal(s.sems[q]) ==> Frugal(SemsAfter(s, e)[q]))
  {
  }

  /** Every change of the count is matched in the history, a post with waiters being owed until its first wake; an
      initialisation after a destroy begins both anew. */
  lemma SemStep(s: State, e: Event, q: nat)
    requires Shaped(s) && Enabled(s, e) && q in s.sems && s.sems[q].count < UINT32 && PosterOk(s, e.core)
    ensures q in SemsAfter(s, e)
    ensures Renews(e, q) ==> SemsAfter(s, e)[q] == Sem(e.init, e.init, 0, 0, 0, false)
    ensures !Renews(e, q) ==> SemsAfter(s, e)[q].count == (s.sems[q].count + Delta(s, e, q)) % UINT32
    ensures !Renews(e, q) ==>
      (Net(SemsAfter(s, e)[q]) - Owes(PhaseAfter(s, e), q)
       == Net(s.sems[q]) - Owes(s.phase[e.core], q) + Delta(s, e, q))
    ensures s.bounded && Frugal(s.sems[q]) ==> Frugal(SemsAfter(s, e)[q])
  {
    if !Renews(e, q) {
      CountStep(s, e, q);
      HistoryStep(s, e, q);
    }
    if s.bounded { ExtraStep(s, e, q); }
  }

  lemma Modular(a: int, b: int, d: int)
    requires a == b % UINT32
    ensures (a + d) % UINT32 == (b + d) % UINT32
  {
    assert b == (b / UINT32) * UINT32 + a;
    assert b + d == (b / UINT32) * UINT32 + (a + d);
    ModShift(a + d, b / UINT32);
  }

  lemma {:induction false} ModShift(x: int, k: int)
    ensures (k * UINT32 + x) % UINT32 == x % UINT32
    decreases if k < 0 then -k else k
  {
    if k > 0 {
      ModShift(x, k - 1);
      assert k * UINT32 + x == ((k - 1) * UINT32 + x) + UINT32;
    } else if k < 0 {
      ModShift(x, k + 1);
      assert k * UINT32 + x == ((k + 1) * UINT32 + x) - UINT32;
    }
  }

  /** The arithmetic of a step: the count and the history, less what is owed, change alike. */
  predicate Together(was: Sem, sem: Sem, d: int, pending: int, after: int) {
    was.count < UINT32 && sem.count == (was.count + d) % UINT32 && Net(sem) - after == Net(was) - pending + d
  }

  lemma BalancedStep(was: Sem, sem: Sem, d: int, pending: int, after: int)
    requires Balanced(was, pending) && Together(was, sem, d, pending, after)
    ensures Balanced(sem, after) == true
  {
    Modular(was.count, Net(was) - pending, d);
  }

  /** The parts of the next state that semaphores depend on. */
  ghost predicate SemParts(s: State, e: Event, r: State)
    requires Enabled(s, e) && Fits(s.own, EffectOf(s, e))
  {
    && |r.length| == NUM_CORES && r.own == Moved(s.own, EffectOf(s, e), s.nextPid)
    && r.phase == s.phase[e.core := PhaseAfter(s, e)] && r.sems == SemsAfter(s, e) && r.bounded == s.bounded
  }

  lemma SemPartsAfter(s: State, e: Event)
    requires Enabled(s, e)
    ensures Fits(s.own, EffectOf(s, e)) && SemParts(s, e, After(s, e)) == true
  {
    EffectFits(s, e);
  }

  lemma OwesSet(s: State, r: State, me: Core, q: nat)
    requires Shaped(s) && Shaped(r) && r.phase == s.phase[me := r.phase[me]]
    ensures Pending(r, q) == Pending(s, q) - Owes(s.phase[me], q) + Owes(r.phase[me], q)
  {
  }

  lemma KnownSemStep(s: State, e: Event, q: nat, r: State)
    requires Sems(s) && Enabled(s, e) && q in s.sems && !Renews(e, q)
    requires Fits(s.own, EffectOf(s, e)) && SemParts(s, e, r)
    ensures q in r.sems && Together(s.sems[q], r.sems[q], Delta(s, e, q), Pending(s, q), Pending(r, q)) == true
    ensures s.bounded ==> Frugal(r.sems[q])
  {
    assert SemOk(s, q) && PosterOk(s, e.core);
    SemStep(s, e, q);
    OwesSet(s, r, e.core, q);
  }

  lemma KnownSemKept(s: State, e: Event, q: nat, r: State)
    requires Sems(s) && Enabled(s, e) && q in s.sems && !Renews(e, q)
    requires Fits(s.own, EffectOf(s, e)) && SemParts(s, e, r)
    ensures q in r.sems && r.sems[q].count < UINT32
    ensures Balanced(r.sems[q], Pending(r, q)) == true
    ensures s.bounded ==> Frugal(r.sems[q])
  {
    assert SemOk(s, q);
    KnownSemStep(s, e, q, r);
    BalancedStep(s.sems[q], r.sems[q], Delta(s, e, q), Pending(s, q), Pending(r, q));
  }

  lemma Created(s: State, e: Event, q: nat)
    requires Enabled(s, e) && q in SemsAfter(s, e) && (q !in s.sems || Renews(e, q))
    requires s.phase[e.core].Posting? ==> s.phase[e.core].sem in s.sems
    ensures Renews(e, q) && SemsAfter(s, e)[q] == Sem(e.init, e.init, 0, 0, 0, false)
  {
  }

  lemma NotOwedYet(s: State, e: Event, q: nat)
    requires Enabled(s, e) && (q !in s.sems || Renews(e, q))
    requires s.phase[e.core].Posting? ==> s.phase[e.core].sem in s.sems
    ensures Owes(PhaseAfter(s, e), q) == Owes(s.phase[e.core], q) == 0
  {
  }

  lemma NothingOwed(s: State, q: nat)
    requires Shaped(s) && NobodyWakes(s, q)
    ensures Pending(s, q) == 0
  {
  }

  /** Before its first initialisation, and before one after a destroy, nobody waits at a semaphore and no post is under
      way. */
  lemma Unused(s: State, e: Event, q: nat)
    requires Sems(s) && Enabled(s, e) && (q !in s.sems || Renews(e, q))
    ensures Waiters(s, q) == [] && Pending(s, q) == 0
  {
    assert SemOk(s, q) && Deserted(s, q);
    if q in s.sems { NothingOwed(s, q); }
  }

  lemma NewSem(s: State, e: Event, q: nat, r: State)
    requires Sems(s) && Enabled(s, e) && (q !in s.sems || Renews(e, q))
    requires Fits(s.own, EffectOf(s, e)) && SemParts(s, e, r)
    ensures Waiters(r, q) == [] && Pending(r, q) == 0
    ensures q in r.sems ==> r.sems[q].count == Net(r.sems[q]) < UINT32 && r.sems[q].extra == 0
  {
    assert PosterOk(s, e.core);
    Unused(s, e, q);
    WaitersChange(s, e, q);
    NotOwedYet(s, e, q);
    OwesSet(s, r, e.core, q);
    if q in r.sems { Created(s, e, q); }
  }

  lemma NewSemOk(s: State, e: Event, q: nat)
    requires Sems(s) && Enabled(s, e) && (q !in s.sems || Renews(e, q))
    ensures if q in SemsAfter(s, e) then
        var sem := SemsAfter(s, e)[q];
        && Waiters(After(s, e), q) == [] && Pending(After(s, e), q) == 0
        && sem.count == Net(sem) < UINT32 && sem.extra == 0
      else Waiters(After(s, e), q) == [] && Pending(After(s, e), q) == 0
  {
    SemPartsAfter(s, e);
    NewSem(s, e, q, After(s, e));
  }

  /** While somebody waits or comes to wait, the count does not change. */
  lemma CountRests(s: State, e: Event, q: nat)
    requires Enabled(s, e) && q in s.sems && s.sems[q].count == 0 && (Waiters(s, q) != [] || (e.SemWait? && e.sem == q))
    requires !Renews(e, q)
    ensures Delta(s, e, q) == 0
  {
  }

  lemma WaitersMeanZero(s: State, e: Event, q: nat, r: State)
    requires Sems(s) && Enabled(s, e) && q in s.sems && Fits(s.own, EffectOf(s, e)) && SemParts(s, e, r)
    requires Waiters(r, q) != [] && !Renews(e, q)
    ensures q in r.sems && r.sems[q].count == 0
  {
    assert SemOk(s, q);
    WaitersChange(s, e, q);
    CountStep(s, e, q);
    CountRests(s, e, q);
  }

  lemma SemOkKept(s: State, e: Event, q: nat, r: State)
    requires Sems(s) && Enabled(s, e) && Fits(s.own, EffectOf(s, e)) && SemParts(s, e, r)
    ensures SemOk(r, q) == true
  {
    if q in s.sems && !Renews(e, q) {
      KnownSemKept(s, e, q, r);
      if Waiters(r, q) != [] { WaitersMeanZero(s, e, q, r); }
    } else {
      NewSem(s, e, q, r);
    }
  }

  /** A destroy goes on until nobody waits, and nobody can come. */
  lemma DesertedKept(s: State, e: Event, q: nat, r: State)
    requires Sems(s) && Enabled(s, e) && Fits(s.own, EffectOf(s, e)) && SemParts(s, e, r)
    ensures Deserted(r, q) == true
  {
    if q in r.sems && r.sems[q].doomed && NobodyWakes(r, q) {
      assert Deserted(s, q) && PosterOk(s, e.core) && r.phase[e.core] == PhaseAfter(s, e);
      DoomedWaiters(s, e, q);
      if s.sems[q].doomed && !NobodyWakes(s, q) { LastWake(s, e, q, r); }
    }
  }

  /** No task joins the waiters of a semaphore that a destroy has taken; a destroy that ends at once found none. */
  lemma DoomedWaiters(s: State, e: Event, q: nat)
    requires Enabled(s, e) && Fits(s.own, EffectOf(s, e)) && q in SemsAfter(s, e) && SemsAfter(s, e)[q].doomed
    requires s.phase[e.core].Posting? ==> s.phase[e.core].sem in s.sems
    ensures q in s.sems && |At(Moved(s.own, EffectOf(s, e), s.nextPid), Wait(SemQ(q)))| <= |Waiters(s, q)|
    ensures !s.sems[q].doomed ==> PhaseAfter(s, e) == Posting(q, 1) || Waiters(s, q) == []
  {
    WaitersChange(s, e, q);
  }

  lemma LastWake(s: State, e: Event, q: nat, r: State)
    requires Enabled(s, e) && Shaped(r) && r.phase == s.phase[e.core := PhaseAfter(s, e)]
    requires q in s.sems && s.sems[q].doomed && !NobodyWakes(s, q) && NobodyWakes(r, q)
    ensures Waiters(s, q) == []
  {
    forall d: Core | d != e.core ensures !(s.phase[d].Posting? && s.phase[d].sem == q) {
      assert r.phase[d] == s.phase[d];
    }
    assert r.phase[e.core] == PhaseAfter(s, e);
  }

  /** A core comes to hold a semaphore's lock by a post or a destroy that found waiters, and only when no core held
      it. */
  lemma PostingFrom(s: State, e: Event)
    requires Enabled(s, e) && PhaseAfter(s, e).Posting?
    ensures var q := PhaseAfter(s, e).sem;
      if e.SemPost?
      then e.sem == q && q in s.sems && SemFree(s, q) && Waiters(s, q) != [] && PhaseAfter(s, e).woken == 0
      else if e.SemDestroy?
      then e.sem == q && q in s.sems && SemFree(s, q) && Waiters(s, q) != [] && PhaseAfter(s, e).woken == 1
      else e.Wake? && s.phase[e.core].Posting? && s.phase[e.core].sem == q && PhaseAfter(s, e).woken > 0
  {
  }

  lemma SemsGrow(s: State, e: Event)
    requires Enabled(s, e)
    ensures s.sems.Keys <= SemsAfter(s, e).Keys
  {
  }

  /** What may become of a core that posts, or comes to: nobody else posts to its semaphore, and before the first wake
      somebody waits. */
  ghost predicate Posts(s: State, me: Core, ph: Phase, waiters: seq<Tid>)
    requires Shaped(s)
  {
    ph.Posting? ==>
      && ph.sem in s.sems
      && if s.phase[me].Posting? then s.phase[me].sem == ph.sem && ph.woken > 0
         else NobodyWakes(s, ph.sem) && (ph.woken == 0 ==> waiters != [])
  }

  lemma PosterOkMoved(s: State, r: State, me: Core, c: Core)
    requires Shaped(s) && (forall d: Core :: PosterOk(s, d)) && Shaped(r) && r.phase == s.phase[me := r.phase[me]]
    requires s.sems.Keys <= r.sems.Keys
    requires Posts(s, me, r.phase[me], if r.phase[me].Posting? then Waiters(r, r.phase[me].sem) else [])
    requires c != me && s.phase[c].Posting? && Waiters(s, s.phase[c].sem) != [] ==> Waiters(r, s.phase[c].sem) != []
    ensures PosterOk(r, c) == true
  {
    assert PosterOk(s, c) && PosterOk(s, me);
  }

  lemma PostsAfter(s: State, e: Event)
    requires Sems(s) && Enabled(s, e) && Fits(s.own, EffectOf(s, e)) && PhaseAfter(s, e).Posting?
    ensures Posts(s, e.core, PhaseAfter(s, e),
                  At(Moved(s.own, EffectOf(s, e), s.nextPid), Wait(SemQ(PhaseAfter(s, e).sem)))) == true
  {
    PostingFrom(s, e);
    assert PosterOk(s, e.core);
    WaitersChange(s, e, PhaseAfter(s, e).sem);
  }

  lemma PosterOkKept(s: State, e: Event, c: Core, r: State)
    requires Sems(s) && Enabled(s, e) && Fits(s.own, EffectOf(s, e)) && SemParts(s, e, r)
    ensures PosterOk(r, c) == true
  {
    SemsGrow(s, e);
    assert PosterOk(s, c);
    if PhaseAfter(s, e).Posting? { PostsAfter(s, e); }
    if c != e.core && s.phase[c].Posting? { WaitersChange(s, e, s.phase[c].sem); }
    PosterOkMoved(s, r, e.core, c);
  }

  lemma AllSems(s: State)
    requires Shaped(s) && (forall q: nat :: SemOk(s, q) == true) && (forall q: nat :: Deserted(s, q) == true)
    requires forall c: Core :: PosterOk(s, c) == true
    ensures Sems(s) == true
  {
  }

  lemma SemsKept(s: State, e: Event)
    requires Sems(s) == true && Enabled(s, e)
    ensures Sems(After(s, e)) == true
  {
    SemPartsAfter(s, e);
    var r := After(s, e);
    forall q: nat ensures SemOk(r, q) == true { SemOkKept(s, e, q, r); }
    forall q: nat ensures Deserted(r, q) == true { DesertedKept(s, e, q, r); }
    forall c: Core ensures PosterOk(r, c) == true { PosterOkKept(s, e, c, r); }
    AllSems(r);
  }
}
