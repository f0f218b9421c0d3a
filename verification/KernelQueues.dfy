/** Waiting is first come, first served, over whole runs: whatever all cores do, a wait queue hands its tasks to the
    scheduler in the order in which they came to it. */
module KernelQueues {
  import opened Rings
  import opened Placement
  import opened Kernel
  import opened KernelInvariants
  import opened KernelSems
  import opened KernelJoins

  /** The task an event adds to a queue, if it adds one. */
  function Comes(s: State, e: Event, w: Place): seq<Tid>
    requires Enabled(s, e)
  {
    EffectFits(s, e);
    var f := EffectOf(s, e);
    if f.Shift? && f.to == w then [At(s.own, f.from)[f.index]] else []
  }

  /** The task it takes from a queue. */
  function Goes(s: State, e: Event, w: Place): seq<Tid>
    requires Enabled(s, e)
  {
    EffectFits(s, e);
    var f := EffectOf(s, e);
    if f.Shift? && f.from == w then [At(s.own, f.from)[f.index]] else []
  }

  /** The tasks that any core adds to a queue along a run, in order, ... */
  function Come(s: State, es: seq<Event>, w: Place): seq<Tid>
    requires Runs(s, es)
    decreases es
  {
    if es == [] then [] else Comes(s, es[0], w) + Come(After(s, es[0]), es[1..], w)
  }

  /** ... and those that any core takes from it. */
  function Gone(s: State, es: seq<Event>, w: Place): seq<Tid>
    requires Runs(s, es)
    decreases es
  {
    if es == [] then [] else Goes(s, es[0], w) + Gone(After(s, es[0]), es[1..], w)
  }

  /** A task leaves a wait queue at its front, for a run queue, by a wake of the core that holds the queue's lock. */
  lemma LeavesFront(s: State, e: Event, w: Place)
    requires Enabled(s, e) && w.Wait? && EffectOf(s, e).Shift? && EffectOf(s, e).from == w
    ensures EffectOf(s, e).index == 0 && EffectOf(s, e).to.Ready?
    ensures e.Wake? && Waking(s.phase[e.core]) == w && Has(s, w)
  {
  }

  /** A task comes to a wait queue from its core, by a sem_wait that finds no unit or the sleep of a proc_join. */
  lemma ComesFromCore(s: State, e: Event, w: Place)
    requires Enabled(s, e) && w.Wait? && EffectOf(s, e).Shift? && EffectOf(s, e).to == w
    ensures EffectOf(s, e) == Shift(Running(e.core), 0, w) && Has(s, Running(e.core))
    ensures || (e.SemWait? && s.sems[e.sem].count == 0 && w == Wait(SemQ(e.sem)))
            || (e.JoinSleep? && w == Wait(JoinQ(s.phase[e.core].target)))
  {
  }

  /** What a shift does to a list it takes the front of, adds to, or leaves alone. */
  lemma ShiftedList(own: map<Place, seq<Tid>>, from: Place, i: nat, to: Place, w: Place)
    requires i < |At(own, from)| && (from == w ==> i == 0 && to != w)
    ensures At(own, w) + (if to == w then [At(own, from)[i]] else [])
      == (if from == w then [At(own, from)[i]] else []) + At(Move(own, from, i, to), w)
  {
  }

  lemma FifoStep(s: State, e: Event, w: Place, r: State)
    requires Enabled(s, e) && w.Wait? && r == After(s, e)
    ensures At(s.own, w) + Comes(s, e, w) == Goes(s, e, w) + At(r.own, w)
  {
    EffectFits(s, e);
    var f := EffectOf(s, e);
    if f.Shift? {
      if f.from == w { LeavesFront(s, e, w); }
      ShiftedList(s.own, f.from, f.index, f.to, w);
    }
  }

  lemma Regroup<N>(a: seq<N>, b: seq<N>, c: seq<N>, d: seq<N>, g: seq<N>, h: seq<N>, z: seq<N>)
    requires a + b == c + d && d + g == h + z
    ensures a + (b + g) == (c + h) + z
  {
    assert a + (b + g) == a + b + g == c + (d + g) == c + h + z;
  }

  /** Whatever all cores do: what a wait queue holds, with what comes to it during a run, is what is taken from it, with
      what it holds in the end, in this order. */
  lemma {:induction false} Fifo(s: State, es: seq<Event>, w: Place)
    requires Runs(s, es) && w.Wait?
    ensures At(s.own, w) + Come(s, es, w) == Gone(s, es, w) + At(End(s, es).own, w)
    decreases es
  {
    if es != [] {
      var e, r := es[0], After(s, es[0]);
      FifoStep(s, e, w, r);
      Fifo(r, es[1..], w);
      Regroup(At(s.own, w), Comes(s, e, w), Goes(s, e, w), At(r.own, w), Come(r, es[1..], w), Gone(r, es[1..], w),
              At(End(s, es).own, w));
    }
  }

  /** The task is now behind all that the run queue of its priority on core `d` held, and may run there. */
  predicate QueuedLast(s: State, r: State, t: Tid, d: Core) {
    && t in r.tasks && Obeys(r.tasks[t].mask, d)
    && At(r.own, Ready(d, r.tasks[t].prio)) == At(s.own, Ready(d, r.tasks[t].prio)) + [t]
  }

  /** This is what a wake does with the task it takes. */
  lemma ReachesScheduler(s: State, c: Core, seen: Seen, r: State)
    requires Enabled(s, Wake(c, seen)) && r == After(s, Wake(c, seen))
    ensures exists d: Core :: QueuedLast(s, r, First(s, Waking(s.phase[c])), d)
  {
    var t := First(s, Waking(s.phase[c]));
    var mask := s.tasks[t].mask;
    PickCpuObeys(c, mask, seen);
    assert QueuedLast(s, r, t, PickCpu(c, mask, seen));
  }

  // ---------------------------------------------------------------- semaphores

  /** The callers of sem_wait that find no unit, in the order of their calls. */
  function Blocked(s: State, es: seq<Event>, q: nat): seq<Tid>
    requires Runs(s, es)
    decreases es
  {
    if es == [] then [] else
      (if es[0].SemWait? && es[0].sem == q && s.sems[q].count == 0 then [First(s, Running(es[0].core))] else [])
      + Blocked(After(s, es[0]), es[1..], q)
  }

  /** The tasks that posts and destroys make ready, in the order in which they do. */
  function Granted(s: State, es: seq<Event>, q: nat): seq<Tid>
    requires Runs(s, es)
    decreases es
  {
    if es == [] then [] else
      (if es[0].Wake? && Waking(s.phase[es[0].core]) == Wait(SemQ(q)) then [First(s, Wait(SemQ(q)))] else [])
      + Granted(After(s, es[0]), es[1..], q)
  }

  lemma SemComes(s: State, e: Event, q: nat)
    requires Enabled(s, e)
    ensures Comes(s, e, Wait(SemQ(q)))
      == if e.SemWait? && e.sem == q && s.sems[q].count == 0 then [First(s, Running(e.core))] else []
  {
    EffectFits(s, e);
    if EffectOf(s, e).Shift? && EffectOf(s, e).to == Wait(SemQ(q)) { ComesFromCore(s, e, Wait(SemQ(q))); }
  }

  lemma WaitGoes(s: State, e: Event, w: Place)
    requires Enabled(s, e) && w.Wait?
    ensures Goes(s, e, w) == if e.Wake? && Waking(s.phase[e.core]) == w then [First(s, w)] else []
  {
    EffectFits(s, e);
    if EffectOf(s, e).Shift? && EffectOf(s, e).from == w { LeavesFront(s, e, w); }
  }

  lemma {:induction false} SemRun(s: State, es: seq<Event>, q: nat)
    requires Runs(s, es)
    ensures Come(s, es, Wait(SemQ(q))) == Blocked(s, es, q) && Gone(s, es, Wait(SemQ(q))) == Granted(s, es, q)
    decreases es
  {
    if es != [] {
      SemComes(s, es[0], q);
      WaitGoes(s, es[0], Wait(SemQ(q)));
      SemRun(After(s, es[0]), es[1..], q);
    }
  }

  /** Semaphores: whatever waits, posts and destroys all cores do, waiters reach the scheduler in the order of their
      calls, those already waiting first. */
  lemma SemFifo(s: State, es: seq<Event>, q: nat)
    requires Runs(s, es)
    ensures Waiters(s, q) + Blocked(s, es, q) == Granted(s, es, q) + Waiters(End(s, es), q)
  {
    Fifo(s, es, Wait(SemQ(q)));
    SemRun(s, es, q);
  }

  // ---------------------------------------------------------------- joins

  /** The callers of proc_join that go to sleep on a task, in the order in which they do. */
  function Joined(s: State, es: seq<Event>, t: Tid): seq<Tid>
    requires Runs(s, es)
    decreases es
  {
    if es == [] then [] else
      (if es[0].JoinSleep? && s.phase[es[0].core].target == t then [First(s, Running(es[0].core))] else [])
      + Joined(After(s, es[0]), es[1..], t)
  }

  /** The joiners that the task's proc_exit makes ready. */
  function Released(s: State, es: seq<Event>, t: Tid): seq<Tid>
    requires Runs(s, es)
    decreases es
  {
    if es == [] then [] else
      (if es[0].Wake? && Waking(s.phase[es[0].core]) == Wait(JoinQ(t)) then [First(s, Wait(JoinQ(t)))] else [])
      + Released(After(s, es[0]), es[1..], t)
  }

  lemma JoinComes(s: State, e: Event, t: Tid)
    requires Enabled(s, e)
    ensures Comes(s, e, Wait(JoinQ(t)))
      == if e.JoinSleep? && s.phase[e.core].target == t then [First(s, Running(e.core))] else []
  {
    EffectFits(s, e);
    if EffectOf(s, e).Shift? && EffectOf(s, e).to == Wait(JoinQ(t)) { ComesFromCore(s, e, Wait(JoinQ(t))); }
  }

  lemma {:induction false} JoinRun(s: State, es: seq<Event>, t: Tid)
    requires Runs(s, es)
    ensures Come(s, es, Wait(JoinQ(t))) == Joined(s, es, t) && Gone(s, es, Wait(JoinQ(t))) == Released(s, es, t)
    decreases es
  {
    if es != [] {
      JoinComes(s, es[0], t);
      WaitGoes(s, es[0], Wait(JoinQ(t)));
      JoinRun(After(s, es[0]), es[1..], t);
    }
  }

  /** Joins: joiners reach the scheduler in the order in which they went to sleep. */
  lemma JoinFifo(s: State, es: seq<Event>, t: Tid)
    requires Runs(s, es)
    ensures Joiners(s, t) + Joined(s, es, t) == Released(s, es, t) + Joiners(End(s, es), t)
  {
    Fifo(s, es, Wait(JoinQ(t)));
    JoinRun(s, es, t);
  }

  /** From before boot: the k-th task to be made ready is the k-th that had to wait, for a semaphore or for a task. */
  lemma ServedInTurn(s: State, es: seq<Event>, q: nat, t: Tid)
    requires Initial(s) && Runs(s, es)
    ensures Granted(s, es, q) <= Blocked(s, es, q) && Released(s, es, t) <= Joined(s, es, t)
  {
    SemFifo(s, es, q);
    JoinFifo(s, es, t);
    assert Blocked(s, es, q) == [] + Blocked(s, es, q) && Joined(s, es, t) == [] + Joined(s, es, t);
  }
}
