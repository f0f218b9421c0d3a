/** No core of the step system ever comes to a stop for want of anything but a lock: in every reachable state each core
    has an event that can happen, but for one that is about to take a waiting.lock that another core holds; and that
    core has one. */
module KernelProgress {
  import opened Rings
  import opened Placement
  import opened Kernel
  import opened KernelInvariants
  import opened KernelIdle
  import opened KernelSems
  import opened KernelJoins
  import opened KernelTheorems
  import opened KernelWakes
  import KernelAlone

  /** In proc_join, before the lock of a task whose joiners another core is waking. */
  predicate WaitsForLock(s: State, c: Core)
    requires Shaped(s)
  {
    s.phase[c].Looked? && !JoinFree(s, s.phase[c].target)
  }

  // ---------------------------------------------------------------- late stores have a task to store to

  ghost predicate Storable(s: State) {
    NoneStuck(s) && forall c: Core :: s.phase[c].Returning? ==> s.phase[c].task in s.tasks
  }

  lemma ReturningFrom(s: State, e: Event)
    requires Enabled(s, e) && PhaseAfter(s, e).Returning?
    ensures PhaseAfter(s, e).task in s.tasks
  {
  }

  lemma NotStuck(s: State, e: Event)
    requires Inv(s) && Enabled(s, e)
    ensures PhaseAfter(s, e) != Stuck
  {
    if e.Look? { LookNeverFails(s, e.core); }
    StuckOnlyByLook(s, e);
  }

  lemma NextParts(s: State, e: Event, r: State)
    requires Enabled(s, e) && r == After(s, e)
    ensures Shaped(r) && r.phase == s.phase[e.core := PhaseAfter(s, e)] && r.phase[e.core] == PhaseAfter(s, e)
    ensures r.tasks == TasksAfter(s, e)
  {
  }

  lemma StorableStep(s: State, e: Event, r: State)
    requires Inv(s) == true && Storable(s) && Enabled(s, e) && r == After(s, e)
    ensures Storable(r)
  {
    NotStuck(s, e);
    TasksKeys(s, e);
    NextParts(s, e, r);
    if PhaseAfter(s, e).Returning? { ReturningFrom(s, e); }
    StorableMoved(s, r, e.core);
  }

  lemma StorableMoved(s: State, r: State, me: Core)
    requires Storable(s) && Shaped(r) && r.phase == s.phase[me := r.phase[me]] && s.tasks.Keys <= r.tasks.Keys
    requires r.phase[me] != Stuck && (r.phase[me].Returning? ==> r.phase[me].task in s.tasks)
    ensures Storable(r)
  {
    forall c: Core | r.phase[c].Returning? ensures r.phase[c].task in r.tasks {
      assert r.phase[c].task in s.tasks.Keys;
    }
  }

  lemma {:induction false} TraceStorable(states: seq<State>, es: seq<Event>, k: nat)
    requires Trace(states, es) == true && k <= |es|
    ensures Storable(states[k])
  {
    if k > 0 {
      TraceStorable(states, es, k - 1);
      TraceInv(states, es, k - 1);
      TraceStep(states, es, k - 1, k);
      StorableStep(states[k - 1], es[k - 1], states[k]);
    }
  }

  lemma ReachableStorable(s: State)
    requires Reachable(s)
    ensures Storable(s)
  {
    var states, es :| Trace(states, es) && states[|es|] == s;
    TraceStorable(states, es, |es|);
  }

  // ---------------------------------------------------------------- what each core can do

  const NOBODY: Seen := Seen([0, 0, 0, 0], 0, 0)

  lemma HasTask(s: State, pl: Place)
    requires Held(s) && At(s.own, pl) != []
    ensures Has(s, pl)
  {
    MemberAt(s.own, pl, 0);
  }

  /** A core that wakes the tasks of a queue wakes the next one, or is done. */
  lemma WakerCan(s: State, c: Core) returns (e: Event)
    requires Inv(s) && (s.phase[c].Posting? || s.phase[c].Burying?)
    ensures e.core == c && Enabled(s, e)
  {
    assert PhasedAt(s, c) && PosterOk(s, c);
    var w := Waking(s.phase[c]);
    if s.phase[c].Posting? { HasTask(s, Running(c)); }
    if At(s.own, w) == [] || Sated(s, s.phase[c]) {
      e := WakeDone(c);
    } else {
      HasTask(s, w);
      e := Wake(c, NOBODY);
    }
  }

  /** A core in proc_create goes on with its new task. */
  lemma MakerCan(s: State, c: Core) returns (e: Event)
    requires Inv(s) && s.phase[c].Making?
    ensures e.core == c && Enabled(s, e)
  {
    assert PhasedAt(s, c);
    HasTask(s, Hand(c));
    e := if s.phase[c].registered then Start(c, NOBODY) else Register(c);
  }

  /** Nobody else can hold the waiting.lock of a task that is about to take it in proc_exit. */
  lemma DyingFree(s: State, c: Core)
    requires Inv(s) && s.phase[c].Dying?
    ensures JoinFree(s, s.phase[c].task)
  {
    assert DeadOk(s, c);
  }

  /** A core with a task goes on with it. */
  lemma BusyCan(s: State, c: Core) returns (e: Event)
    requires Inv(s) && (s.phase[c] == User || s.phase[c] == Leaving || (s.phase[c].Looked? && !WaitsForLock(s, c)))
    ensures e.core == c && Enabled(s, e)
  {
    assert PhasedAt(s, c);
    HasTask(s, Running(c));
    e := if s.phase[c] == User then Resched(c, NOBODY) else if s.phase[c] == Leaving then SwitchTo(c) else JoinSleep(c);
  }

  lemma CanStep(s: State, c: Core) returns (e: Event)
    requires Reachable(s) && !WaitsForLock(s, c)
    ensures e.core == c && Enabled(s, e)
  {
    ReachableInv(s);
    ReachableStorable(s);
    match s.phase[c]
    case Off => e := Boot(c);
    case Making(registered, next) => e := MakerCan(s, c);
    case Rooting => e := Root(c);
    case User => e := BusyCan(s, c);
    case Looked(target) => e := BusyCan(s, c);
    case Leaving => e := BusyCan(s, c);
    case Returning(t) => e := Return(c);
    case Posting(q, woken) => e := WakerCan(s, c);
    case Dying(t, value) =>
      DyingFree(s, c);
      e := Bury(c);
    case Burying(t, value, woken) => e := WakerCan(s, c);
    case Unlinking(t) => e := Unlink(c);
    case Scan(p) => e := Look(c);
    case Stuck => assert false;
  }

  lemma WaitingCannot(s: State, c: Core, e: Event)
    requires Shaped(s) && WaitsForLock(s, c) && e.core == c
    ensures !Enabled(s, e)
  {
  }

  /** Exactly when a core has something to do. */
  lemma StepsExactly(s: State, c: Core)
    requires Reachable(s)
    ensures (exists e: Event :: e.core == c && Enabled(s, e)) <==> !WaitsForLock(s, c)
  {
    if WaitsForLock(s, c) {
      forall e: Event | e.core == c ensures !Enabled(s, e) { WaitingCannot(s, c, e); }
    } else {
      var e := CanStep(s, c);
    }
  }

  /** A core that waits for a lock waits for a core that has something to do: there is no circle. */
  lemma HolderSteps(s: State, c: Core) returns (d: Core, e: Event)
    requires Reachable(s) && WaitsForLock(s, c)
    ensures s.phase[d].Burying? && s.phase[d].task == s.phase[c].target && e.core == d && Enabled(s, e)
  {
    d :| s.phase[d].Burying? && s.phase[d].task == s.phase[c].target;
    e := CanStep(s, d);
  }

  /** The same for a semaphore's lock, which a call in user mode may be about to take: unless a destroy has kept it. */
  lemma PosterSteps(s: State, q: nat) returns (d: Core, e: Event)
    requires Reachable(s) && !SemFree(s, q) && (q in s.sems ==> !s.sems[q].doomed)
    ensures s.phase[d].Posting? && s.phase[d].sem == q && e.core == d && Enabled(s, e)
  {
    d :| d < |s.phase| && s.phase[d].Posting? && s.phase[d].sem == q;
    e := CanStep(s, d);
  }

  /** A waking core lets go of the lock after as many steps of its own as there are tasks left to wake, and one more, if
      nobody else does anything. */
  lemma {:induction false} LetsGo(s: State, c: Core) returns (es: seq<Event>)
    requires Reachable(s) && Wakes(s.phase[c])
    ensures OwnRun(s, es, c) && |es| <= |At(s.own, Waking(s.phase[c]))| + 1
    decreases |At(s.own, Waking(s.phase[c]))|
  {
    var e := CanStep(s, c);
    if e == WakeDone(c) {
      es := [e];
      LastStep(s, c);
    } else {
      var r := WakesOne(s, e, c);
      var rest := LetsGo(r, c);
      es := [e] + rest;
      OneMoreStep(s, e, rest, c);
    }
  }

  /** A run of the core's own events after which it has let go. */
  ghost predicate OwnRun(s: State, es: seq<Event>, c: Core) {
    && Runs(s, es) && (forall e :: e in es ==> e.core == c) && Shaped(End(s, es)) && !Wakes(End(s, es).phase[c])
  }

  lemma LastStep(s: State, c: Core)
    requires Enabled(s, WakeDone(c))
    ensures OwnRun(s, [WakeDone(c)], c)
  {
    KernelAlone.RunFrom(s, WakeDone(c), []);
    assert [WakeDone(c)] + [] == [WakeDone(c)];
  }

  lemma OneMoreStep(s: State, e: Event, rest: seq<Event>, c: Core)
    requires Enabled(s, e) && e.core == c && OwnRun(After(s, e), rest, c) == true
    ensures OwnRun(s, [e] + rest, c) == true
  {
    KernelAlone.RunFrom(s, e, rest);
  }

  lemma WakesOne(s: State, e: Event, c: Core) returns (r: State)
    requires Reachable(s) && Enabled(s, e) && e.core == c && Wakes(s.phase[c]) && e != WakeDone(c)
    ensures r == After(s, e) && Reachable(r) && Wakes(r.phase[c])
    ensures |At(r.own, Waking(r.phase[c]))| < |At(s.own, Waking(s.phase[c]))|
  {
    r := After(s, e);
    WakeStep(s, e, c, Waking(s.phase[c]), r);
    OwnWake(s, e, c);
  }

  lemma OwnWake(s: State, e: Event, c: Core)
    requires Enabled(s, e) && e.core == c && Wakes(s.phase[c]) && e != WakeDone(c)
    ensures e.Wake?
  {
  }
}
