/** Whole runs: the order in which tasks are dispatched and woken, and what becomes of joiners. Between any two events
    of the core in question the other cores may do anything they are able to. */
module KernelRuns {
  import opened Rings
  import opened Placement
  import opened Kernel
  import opened KernelInvariants
  import opened KernelSems
  import opened KernelJoins
  import opened KernelTheorems

  // ---------------------------------------------------------------- round robin

  predicate Dispatches(s: State, e: Event, c: Core)
    requires Enabled(s, e)
  {
    e == Look(c) && At(s.own, Ready(c, s.phase[c].prio)) != []
  }

  /** The tasks next() dispatches on core `c` along a run, in order. */
  function Dispatched(s: State, es: seq<Event>, c: Core): seq<Tid>
    requires Runs(s, es)
    decreases es
  {
    if es == [] then [] else
      (if Dispatches(s, es[0], c) then [At(s.own, Ready(c, s.phase[c].prio))[0]] else [])
      + Dispatched(After(s, es[0]), es[1..], c)
  }

  /** No dispatch of the run on core `c` takes a task of higher priority than `p`. */
  predicate NothingAbove(s: State, es: seq<Event>, c: Core, p: Prio)
    requires Runs(s, es)
    decreases es
  {
    es == [] || ((Dispatches(s, es[0], c) ==> s.phase[c].prio <= p) && NothingAbove(After(s, es[0]), es[1..], c, p))
  }

  /** The core's current scan has already gone below priority `p`. */
  predicate Past(s: State, c: Core, p: Prio)
    requires Shaped(s)
  {
    s.phase[c].Scan? && s.phase[c].prio < p
  }

  /** Nothing but next() and the pull takes a task out of a run queue. */
  lemma TakenBy(s: State, e: Event, c: Core, p: Prio)
    requires Enabled(s, e) && !e.Pull? && EffectOf(s, e).Shift? && EffectOf(s, e).from == Ready(c, p)
    ensures Dispatches(s, e, c) && s.phase[c].prio == p && EffectOf(s, e) == Shift(Ready(c, p), 0, Running(c))
  {
  }

  /** A list from which nothing is taken only grows at its tail. */
  lemma OnlyGrows(own: map<Place, seq<Tid>>, f: Effect, pid: Tid, c: Core, p: Prio)
    requires Fits(own, f) && (f.Shift? ==> f.from != Ready(c, p))
    ensures At(own, Ready(c, p)) <= At(Moved(own, f, pid), Ready(c, p))
  {
  }

  lemma LosesHead(own: map<Place, seq<Tid>>, c: Core, p: Prio)
    requires At(own, Ready(c, p)) != []
    ensures At(Move(own, Ready(c, p), 0, Running(c)), Ready(c, p)) == At(own, Ready(c, p))[1..]
  {
  }

  /** A scan goes below a priority only by finding its list empty. */
  lemma ScanGoesOn(s: State, e: Event, p: Prio)
    requires Enabled(s, e) && !Past(s, e.core, p) && At(s.own, Ready(e.core, p)) != [] && PhaseAfter(s, e).Scan?
    ensures PhaseAfter(s, e).prio >= p
  {
  }

  /** What one event does to a run queue: the head dispatched, or nothing but arrivals at the tail. */
  lemma QueueMoved(s: State, e: Event, c: Core, p: Prio)
    requires Enabled(s, e) && Fits(s.own, EffectOf(s, e)) && !e.Pull? && !Past(s, c, p) && At(s.own, Ready(c, p)) != []
    requires Dispatches(s, e, c) ==> s.phase[c].prio <= p
    ensures Dispatches(s, e, c) ==>
      s.phase[c].prio == p && At(Moved(s.own, EffectOf(s, e), s.nextPid), Ready(c, p)) == At(s.own, Ready(c, p))[1..]
    ensures !Dispatches(s, e, c) ==> At(s.own, Ready(c, p)) <= At(Moved(s.own, EffectOf(s, e), s.nextPid), Ready(c, p))
  {
    if Dispatches(s, e, c) {
      assert s.phase[c].Scan? && s.phase[c].prio == p;
      assert EffectOf(s, e) == Shift(Ready(c, p), 0, Running(c));
      LosesHead(s.own, c, p);
    } else {
      if EffectOf(s, e).Shift? && EffectOf(s, e).from == Ready(c, p) { TakenBy(s, e, c, p); }
      OnlyGrows(s.own, EffectOf(s, e), s.nextPid, c, p);
    }
  }

  lemma QueueStep(s: State, e: Event, c: Core, p: Prio, r: State)
    requires Reachable(s) && Enabled(s, e) && !Past(s, c, p) && At(s.own, Ready(c, p)) != []
    requires (Dispatches(s, e, c) ==> s.phase[c].prio <= p) && r == After(s, e)
    ensures Shaped(r) && !Past(r, c, p)
    ensures Dispatches(s, e, c) ==> s.phase[c].prio == p && At(r.own, Ready(c, p)) == At(s.own, Ready(c, p))[1..]
    ensures !Dispatches(s, e, c) ==> At(s.own, Ready(c, p)) <= At(r.own, Ready(c, p))
  {
    EffectFits(s, e);
    if e.Pull? { PullIsDead(s, e.core, e.busy, e.index); }
    QueueMoved(s, e, c, p);
    assert r.phase == s.phase[e.core := PhaseAfter(s, e)];
    if c == e.core && PhaseAfter(s, e).Scan? { ScanGoesOn(s, e, p); }
  }

  /** The first event of a run, and what is left to say about the rest of it. */
  lemma FirstOfRun(s: State, es: seq<Event>, c: Core, p: Prio, r: State)
    requires Reachable(s) && es != [] && Runs(s, es) && NothingAbove(s, es, c, p)
    requires Enabled(s, es[0]) && r == After(s, es[0])
    ensures Reachable(r) && Runs(r, es[1..]) && NothingAbove(r, es[1..], c, p)
    ensures Dispatches(s, es[0], c) ==> s.phase[c].prio <= p && At(s.own, Ready(c, s.phase[c].prio)) != []
    ensures Dispatched(s, es, c) ==
      (if Dispatches(s, es[0], c) then [At(s.own, Ready(c, s.phase[c].prio))[0]] else []) + Dispatched(r, es[1..], c)
  {
    ReachableStep(s, es[0]);
  }

  /** Round robin: the task at index k of a queue is the one dispatched k+1-th, whatever the cores queue behind it
      meanwhile. */
  lemma {:induction false} RoundRobin(s: State, es: seq<Event>, c: Core, p: Prio, k: nat)
    requires Reachable(s) && Runs(s, es) && !Past(s, c, p) && NothingAbove(s, es, c, p)
    requires k < |At(s.own, Ready(c, p))| && k < |Dispatched(s, es, c)|
    ensures Dispatched(s, es, c)[k] == At(s.own, Ready(c, p))[k]
    decreases es
  {
    var e, r := es[0], After(s, es[0]);
    FirstOfRun(s, es, c, p, r);
    QueueStep(s, e, c, p, r);
    if !Dispatches(s, e, c) {
      RoundRobin(r, es[1..], c, p, k);
    } else if k > 0 {
      RoundRobin(r, es[1..], c, p, k - 1);
    }
  }

  // ---------------------------------------------------------------- joiners

  /** No proc_join of the run goes to sleep on a task that will not wake it. */
  ghost predicate JoinsInTime(s: State, es: seq<Event>)
    requires Runs(s, es)
    decreases es
  {
    es == [] || (JoinInTime(s, es[0]) && JoinsInTime(After(s, es[0]), es[1..]))
  }

  /** A joiner left behind waits for ever. */
  lemma {:induction false} OrphanStays(s: State, es: seq<Event>, t: Tid)
    requires Inv(s) && Runs(s, es) && t in s.tasks && !WillWake(s, t) && Joiners(s, t) != []
    ensures !NoOrphans(End(s, es))
    decreases es
  {
    if es != [] {
      StepInv(s, es[0]);
      LeftBehind(s, es[0], t);
      OrphanStays(After(s, es[0]), es[1..], t);
    }
  }

  /** A task to blame when some joiner waits for one that will not wake it. */
  lemma OrphanOf(s: State) returns (t: Tid)
    requires Inv(s) && !NoOrphans(s)
    ensures t in s.tasks && !WillWake(s, t) && Joiners(s, t) != []
  {
    t :| Joiners(s, t) != [] && !WillWake(s, t);
  }

  /** Over any run, nobody ends up waiting for a task that has exited exactly when every proc_join of the run that
      went to sleep did so before its target had finished waking its joiners. */
  lemma {:induction false} JoinsSafe(s: State, es: seq<Event>)
    requires Inv(s) && NoOrphans(s) && Runs(s, es)
    ensures NoOrphans(End(s, es)) <==> JoinsInTime(s, es)
    decreases es
  {
    if es != [] {
      var r := After(s, es[0]);
      StepInv(s, es[0]);
      OrphanStep(s, es[0]);
      if NoOrphans(r) {
        JoinsSafe(r, es[1..]);
      } else {
        var t := OrphanOf(r);
        OrphanStays(r, es[1..], t);
      }
    }
  }

  /** Were proc_join and proc_exit each one section: no lookup while a core is in proc_exit, and every sleep straight
      after its lookup. */
  ghost predicate Atomic(s: State, es: seq<Event>)
    requires Runs(s, es)
    decreases es
  {
    es == [] ||
    if es[0].JoinLookup? && |es| > 1 && es[1] == JoinSleep(es[0].core) then
      TwoEvents(s, es);
      (forall c: Core :: !Dead(s.phase[c])) && Atomic(After(After(s, es[0]), es[1]), es[2..])
    else !es[0].JoinSleep? && Atomic(After(s, es[0]), es[1..])
  }

  /** A registered task lives, or is exiting. */
  lemma FoundAlive(s: State, e: Event, r: State)
    requires Inv(s) && Enabled(s, e) && e.JoinLookup? && r == After(s, e)
    requires forall c: Core :: !Dead(s.phase[c])
    requires Enabled(r, JoinSleep(e.core))
    ensures JoinInTime(r, JoinSleep(e.core))
  {
    assert r.phase[e.core].target in s.registered;
    assert r.own == s.own;
  }

  lemma SleepsInTime(s: State, e: Event, r: State, end: State)
    requires Inv(s) && NoOrphans(s) && Enabled(s, e) && e.JoinLookup? && r == After(s, e)
    requires forall c: Core :: !Dead(s.phase[c])
    requires Enabled(r, JoinSleep(e.core)) && end == After(r, JoinSleep(e.core))
    ensures Inv(end) && NoOrphans(end)
  {
    StepInv(s, e);
    StepInv(r, JoinSleep(e.core));
    FoundAlive(s, e, r);
    OrphanStep(s, e);
    OrphanStep(r, JoinSleep(e.core));
  }

  /** With the two calls atomic, no run leaves a task waiting for one that has exited. */
  lemma {:induction false} AtomicJoinsSafe(s: State, es: seq<Event>)
    requires Inv(s) && NoOrphans(s) && Runs(s, es) && Atomic(s, es)
    ensures NoOrphans(End(s, es))
    decreases es
  {
    if es == [] {
    } else if es[0].JoinLookup? && |es| > 1 && es[1] == JoinSleep(es[0].core) {
      TwoEvents(s, es);
      SleepsInTime(s, es[0], After(s, es[0]), After(After(s, es[0]), es[1]));
      AtomicJoinsSafe(After(After(s, es[0]), es[1]), es[2..]);
    } else {
      StepInv(s, es[0]);
      OrphanStep(s, es[0]);
      AtomicJoinsSafe(After(s, es[0]), es[1..]);
    }
  }

  lemma TwoEvents(s: State, es: seq<Event>)
    requires |es| > 1 && Runs(s, es)
    ensures Enabled(s, es[0]) && Enabled(After(s, es[0]), es[1])
    ensures Runs(After(After(s, es[0]), es[1]), es[2..]) && End(s, es) == End(After(After(s, es[0]), es[1]), es[2..])
  {
    assert es[1..][0] == es[1] && es[1..][1..] == es[2..];
  }
}
