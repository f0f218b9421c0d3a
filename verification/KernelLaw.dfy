/** The textbook law of semaphores, count + grants = initial value + posts, over whole runs of the code as written:
    it holds at the end exactly when, since the semaphore was last initialised, no post found more than one task
    waiting and no destroy found any. */
module KernelLaw {
  import opened Rings
  import opened Placement
  import opened Kernel
  import opened KernelInvariants
  import opened KernelSems
  import opened KernelTheorems
  import opened KernelCounts

  /** The wakes beyond one per post that a core waking the waiters of the semaphore has still to make. */
  function OwedBy(ph: Phase, q: nat, waiting: nat): int {
    if ph.Posting? && ph.sem == q then waiting - (if ph.woken == 0 then 1 else 0) else 0
  }

  function Owed(s: State, q: nat): int
    requires Shaped(s)
  {
    OwedBy(s.phase[0], q, |Waiters(s, q)|) + OwedBy(s.phase[1], q, |Waiters(s, q)|)
    + OwedBy(s.phase[2], q, |Waiters(s, q)|) + OwedBy(s.phase[3], q, |Waiters(s, q)|)
  }

  /** The extra wakes made, and those under way. */
  function Surplus(s: State, q: nat): int
    requires Shaped(s)
  {
    if q in s.sems then s.sems[q].extra + Owed(s, q) else 0
  }

  /** What a post or a destroy adds to it. */
  function Crowd(s: State, e: Event, q: nat): nat
    requires Enabled(s, e)
  {
    if e.SemPost? && e.sem == q && |Waiters(s, q)| > 0 then |Waiters(s, q)| - 1
    else if e.SemDestroy? && e.sem == q then |Waiters(s, q)|
    else 0
  }

  /** A core that posts to the semaphore, or destroys it, or is about to. */
  predicate Tends(s: State, e: Event, q: nat)
    requires Shaped(s)
  {
    ((e.SemPost? || e.SemDestroy?) && e.sem == q) || (s.phase[e.core].Posting? && s.phase[e.core].sem == q)
  }

  ghost predicate NobodyElse(s: State, c: Core, q: nat)
    requires Shaped(s)
  {
    forall d: Core :: d != c ==> !(s.phase[d].Posting? && s.phase[d].sem == q)
  }

  /** Where nobody else posts to the semaphore, what is owed is owed by this core. */
  lemma OwedAlone(s: State, c: Core, q: nat)
    requires Shaped(s) && NobodyElse(s, c, q)
    ensures Owed(s, q) == OwedBy(s.phase[c], q, |Waiters(s, q)|)
  {
  }

  /** An event of such a core. */
  lemma OwnStep(s: State, e: Event, q: nat, waiting: nat)
    requires Shaped(s) && Enabled(s, e) && q in s.sems && !s.bounded && PosterOk(s, e.core)
    requires Fits(s.own, EffectOf(s, e))
    requires waiting == |At(Moved(s.own, EffectOf(s, e), s.nextPid), Wait(SemQ(q)))|
    requires Tends(s, e, q)
    ensures q in SemsAfter(s, e)
    ensures SemsAfter(s, e)[q].extra + OwedBy(PhaseAfter(s, e), q, waiting)
      == s.sems[q].extra + OwedBy(s.phase[e.core], q, |Waiters(s, q)|) + Crowd(s, e, q)
  {
    WaitersChange(s, e, q);
  }

  /** An event of any other core changes neither the waiters nor the history while somebody posts. */
  lemma OtherStep(s: State, e: Event, q: nat)
    requires Shaped(s) && Enabled(s, e) && q in s.sems && Fits(s.own, EffectOf(s, e))
    requires !e.SemPost? && !e.SemDestroy? && !Tends(s, e, q) && !Renews(e, q)
    ensures q in SemsAfter(s, e) && SemsAfter(s, e)[q].extra == s.sems[q].extra && Crowd(s, e, q) == 0
    ensures !(PhaseAfter(s, e).Posting? && PhaseAfter(s, e).sem == q)
    ensures NobodyWakes(s, q) || |At(Moved(s.own, EffectOf(s, e), s.nextPid), Wait(SemQ(q)))| == |Waiters(s, q)|
  {
    WaitersChange(s, e, q);
    if PhaseAfter(s, e).Posting? { PostingFrom(s, e); }
  }

  lemma NobodyOwes(s: State, q: nat)
    requires Shaped(s) && NobodyWakes(s, q)
    ensures Owed(s, q) == 0
  {
  }

  /** A post adds the waiters beyond the first to the surplus, a destroy adds all, an initialisation begins at 0;
      nothing else matters. */
  lemma SurplusStep(s: State, e: Event, q: nat)
    requires Sems(s) && Enabled(s, e) && !s.bounded
    ensures Shaped(After(s, e))
    ensures Surplus(After(s, e), q) == (if Renews(e, q) then 0 else Surplus(s, q)) + Crowd(s, e, q)
  {
    if q !in s.sems || Renews(e, q) {
      SurplusNew(s, e, q);
    } else if Tends(s, e, q) {
      SurplusTended(s, e, q, After(s, e));
    } else {
      SurplusElsewhere(s, e, q, After(s, e));
    }
  }

  lemma SurplusTended(s: State, e: Event, q: nat, r: State)
    requires Sems(s) && Enabled(s, e) && !s.bounded && q in s.sems && Tends(s, e, q) && r == After(s, e)
    ensures Shaped(r) && Surplus(r, q) == Surplus(s, q) + Crowd(s, e, q)
  {
    SemPartsAfter(s, e);
    assert PosterOk(s, e.core);
    TendsAlone(s, e, q, r);
    OwnStep(s, e, q, |Waiters(r, q)|);
    OwedAlone(s, e.core, q);
    OwedAlone(r, e.core, q);
  }

  lemma TendsAlone(s: State, e: Event, q: nat, r: State)
    requires Enabled(s, e) && Tends(s, e, q) && PosterOk(s, e.core)
    requires Shaped(r) && r.phase == s.phase[e.core := PhaseAfter(s, e)]
    ensures NobodyElse(s, e.core, q) && NobodyElse(r, e.core, q)
  {
  }

  /** What does not touch the semaphore, and is done by a core that does not post to it, leaves the surplus alone. */
  lemma SurplusSame(s: State, r: State, me: Core, q: nat)
    requires Shaped(s) && Shaped(r) && r.phase == s.phase[me := r.phase[me]] && q in s.sems && q in r.sems
    requires r.sems[q].extra == s.sems[q].extra && (NobodyWakes(s, q) || |Waiters(r, q)| == |Waiters(s, q)|)
    requires !(s.phase[me].Posting? && s.phase[me].sem == q) && !(r.phase[me].Posting? && r.phase[me].sem == q)
    ensures Surplus(r, q) == Surplus(s, q)
  {
    if NobodyWakes(s, q) {
      NobodyOwes(s, q);
      NobodyOwes(r, q);
    }
  }

  lemma SurplusElsewhere(s: State, e: Event, q: nat, r: State)
    requires Sems(s) && Enabled(s, e) && q in s.sems && r == After(s, e)
    requires !Tends(s, e, q) && !Renews(e, q)
    ensures Surplus(r, q) == Surplus(s, q) && Crowd(s, e, q) == 0
  {
    SemPartsAfter(s, e);
    if e.SemPost? || e.SemDestroy? { PostElsewhere(s, e, q); } else { OtherStep(s, e, q); }
    SurplusSame(s, r, e.core, q);
  }

  lemma PostElsewhere(s: State, e: Event, q: nat)
    requires Shaped(s) && Enabled(s, e) && q in s.sems && Fits(s.own, EffectOf(s, e))
    requires (e.SemPost? || e.SemDestroy?) && e.sem != q
    ensures q in SemsAfter(s, e) && SemsAfter(s, e)[q].extra == s.sems[q].extra
    ensures !(PhaseAfter(s, e).Posting? && PhaseAfter(s, e).sem == q)
    ensures |At(Moved(s.own, EffectOf(s, e), s.nextPid), Wait(SemQ(q)))| == |Waiters(s, q)|
  {
  }

  lemma SurplusNew(s: State, e: Event, q: nat)
    requires Sems(s) && Enabled(s, e) && (q !in s.sems || Renews(e, q))
    ensures Shaped(After(s, e)) && Surplus(After(s, e), q) == 0 && Crowd(s, e, q) == 0
  {
    Unused(s, e, q);
    NewSemOk(s, e, q);
    NoneWaiting(After(s, e), q);
  }

  lemma NoneWaiting(s: State, q: nat)
    requires Shaped(s) && Waiters(s, q) == [] && Pending(s, q) == 0
    ensures Owed(s, q) == 0
  {
  }

  // ---------------------------------------------------------------- runs

  /** Some post of the run finds more than one task waiting, or some destroy finds one, and the semaphore is not
      initialised after it. */
  predicate Crowded(s: State, es: seq<Event>, q: nat)
    requires Runs(s, es)
    decreases es
  {
    && es != []
    && ((Crowd(s, es[0], q) > 0 && !Renewed(es[1..], q)) || Crowded(After(s, es[0]), es[1..], q))
  }

  lemma {:induction false} SurplusRun(s: State, es: seq<Event>, q: nat)
    requires Inv(s) && Runs(s, es) && !s.bounded
    ensures Inv(End(s, es)) && !End(s, es).bounded
    ensures var from := if Renewed(es, q) then 0 else Surplus(s, q);
      Surplus(End(s, es), q) >= from && (Surplus(End(s, es), q) == from <==> !Crowded(s, es, q))
    decreases es
  {
    if es != [] {
      StepInv(s, es[0]);
      SurplusStep(s, es[0], q);
      SurplusRun(After(s, es[0]), es[1..], q);
    }
  }

  /** The law, for every run from before boot that ends with nobody waking the semaphore's waiters, until 2^32 units
      have been put in since its last initialisation: it holds exactly when, from there on, every post found at most one
      waiter and no destroy found any. */
  lemma LawExactly(s: State, es: seq<Event>, q: nat, end: State)
    requires Initial(s) && !s.bounded && Runs(s, es) && end == End(s, es)
    requires q in end.sems && NobodyWakes(end, q) && Supply(end.sems[q]) < UINT32
    ensures end.sems[q].count + end.sems[q].grants == end.sems[q].init + end.sems[q].posts <==> !Crowded(s, es, q)
  {
    InitialInv(s);
    InitialReachable(s);
    ReachableRun(s, es);
    SurplusRun(s, es, q);
    NobodyOwes(end, q);
    Conservation(end, q);
  }
}
