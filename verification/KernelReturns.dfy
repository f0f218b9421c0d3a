/** What a task finds in X0 when its system call returns. __sem_wait puts its caller on the wait list, lets go of the
    semaphore's lock, and only then stores the return value; by that time another core may have taken the task on. */
module KernelReturns {
  import opened Rings
  import opened Placement
  import opened Kernel
  import opened KernelInvariants
  import opened KernelTheorems

  /** Places a task passes between the lock section of its call and its return to user mode: a semaphore's wait list,
      the run queues, and a core that is about to switch to it. */
  predicate OffAt(s: State, t: Tid, pl: Place) {
    && Shaped(s) && t in At(s.own, pl)
    && match pl
       case Ready(c, p) => true
       case Wait(q) => q.SemQ?
       case Running(c) => s.phase[c] == Leaving
       case Hand(c) => false
  }

  ghost predicate Off(s: State, t: Tid) {
    exists pl :: OffAt(s, t, pl)
  }

  /** The event returns task `t` to user mode. */
  predicate Enters(s: State, e: Event, t: Tid)
    requires Enabled(s, e)
  {
    e.SwitchTo? && First(s, Running(e.core)) == t
  }

  /** The event is the late store of a __sem_wait that `t` called. */
  predicate LateStore(s: State, e: Event, t: Tid)
    requires Enabled(s, e)
  {
    e.Return? && s.phase[e.core].task == t
  }

  /** Whose return value an event may set: the caller's, or that of the joiner it wakes, or that of a late store. */
  predicate Untold(s: State, e: Event, t: Tid)
    requires Enabled(s, e)
  {
    && t in s.tasks && t != s.nextPid
    && (Has(s, Running(e.core)) && s.phase[e.core] != Leaving ==> t != First(s, Running(e.core)))
    && (e.Wake? && s.phase[e.core].Burying? ==> t != First(s, Waking(s.phase[e.core])))
  }

  lemma RetStored(s: State, e: Event, t: Tid)
    requires Enabled(s, e) && Untold(s, e, t) && e.Return?
    ensures t in TasksAfter(s, e) && TasksAfter(s, e)[t].ret == if LateStore(s, e, t) then 0 else s.tasks[t].ret
  {
  }

  lemma RetKept(s: State, e: Event, t: Tid)
    requires Enabled(s, e) && Untold(s, e, t) && !e.Return? && !Enters(s, e, t)
    ensures t in TasksAfter(s, e) && TasksAfter(s, e)[t].ret == s.tasks[t].ret
  {
  }

  /** A task that is off the cores is not the one an event sets the value of. */
  lemma OffApart(s: State, e: Event, t: Tid, pl: Place)
    requires Held(s) && Phased(s) && Enabled(s, e) && OffAt(s, t, pl)
    ensures Untold(s, e, t)
  {
    var i :| 0 <= i < |At(s.own, pl)| && At(s.own, pl)[i] == t;
    MemberAt(s.own, pl, i);
    if Has(s, Running(e.core)) && t == First(s, Running(e.core)) { UniquePlace(s.own, pl, i, Running(e.core), 0); }
    if e.Wake? && s.phase[e.core].Burying? && t == First(s, Waking(s.phase[e.core])) {
      UniquePlace(s.own, pl, i, Waking(s.phase[e.core]), 0);
    }
  }

  /** From such a place a task only ever goes to another one, until it enters user mode. */
  lemma OffMoves(s: State, e: Event, t: Tid, pl: Place)
    requires Held(s) && Phased(s) && Enabled(s, e) && OffAt(s, t, pl) && !Enters(s, e, t) && Fits(s.own, EffectOf(s, e))
    requires EffectOf(s, e).Shift? && EffectOf(s, e).from == pl && At(s.own, pl)[EffectOf(s, e).index] == t
    ensures OffAt(After(s, e), t, EffectOf(s, e).to)
  {
    MovedTo(s.own, EffectOf(s, e), s.nextPid, EffectOf(s, e).to, t);
  }

  /** ... or stays where it is. */
  lemma OffStays(s: State, e: Event, t: Tid, pl: Place)
    requires Held(s) && Phased(s) && Enabled(s, e) && OffAt(s, t, pl) && !Enters(s, e, t) && Fits(s.own, EffectOf(s, e))
    requires EffectOf(s, e).Shift? ==> At(s.own, EffectOf(s, e).from)[EffectOf(s, e).index] != t
    ensures OffAt(After(s, e), t, pl)
  {
    OffApart(s, e, t, pl);
    MovedTo(s.own, EffectOf(s, e), s.nextPid, pl, t);
    LeavingStays(s, e, t, pl);
  }

  /** A core that is about to switch to a task does nothing else. */
  lemma LeavingOnly(s: State, e: Event)
    requires Enabled(s, e) && s.phase[e.core] == Leaving
    ensures e.SwitchTo?
  {
  }

  lemma LeavingStays(s: State, e: Event, t: Tid, pl: Place)
    requires Phased(s) && Enabled(s, e) && OffAt(s, t, pl) && !Enters(s, e, t)
    ensures pl.Running? ==> After(s, e).phase[pl.core] == Leaving
  {
    if pl.Running? {
      assert |At(s.own, pl)| == 1 by { assert PhasedAt(s, pl.core); }
      if e.core == pl.core { LeavingOnly(s, e); }
    }
  }

  lemma OffStep(s: State, e: Event, t: Tid)
    requires Held(s) && Phased(s) && Enabled(s, e) && Off(s, t) && !Enters(s, e, t)
    ensures Off(After(s, e), t) && t in s.tasks && t in TasksAfter(s, e)
    ensures TasksAfter(s, e)[t].ret == if LateStore(s, e, t) then 0 else s.tasks[t].ret
  {
    var pl :| OffAt(s, t, pl);
    EffectFits(s, e);
    OffApart(s, e, t, pl);
    if e.Return? { RetStored(s, e, t); } else { RetKept(s, e, t); }
    var f := EffectOf(s, e);
    if f.Shift? && At(s.own, f.from)[f.index] == t {
      var i :| 0 <= i < |At(s.own, pl)| && At(s.own, pl)[i] == t;
      UniquePlace(s.own, pl, i, f.from, f.index);
      OffMoves(s, e, t, pl);
    } else {
      OffStays(s, e, t, pl);
    }
  }

  // ---------------------------------------------------------------- runs

  /** Task `t` does not enter user mode during the run. */
  predicate StaysOff(s: State, es: seq<Event>, t: Tid)
    requires Runs(s, es)
    decreases es
  {
    es == [] || (!Enters(s, es[0], t) && StaysOff(After(s, es[0]), es[1..], t))
  }

  /** A late store for `t` falls into the run. */
  predicate Stored(s: State, es: seq<Event>, t: Tid)
    requires Runs(s, es)
    decreases es
  {
    es != [] && (LateStore(s, es[0], t) || Stored(After(s, es[0]), es[1..], t))
  }

  /** Until a task enters user mode its return value stays what its call made it, unless a late store comes. */
  lemma {:induction false} RetWhileOff(s: State, es: seq<Event>, t: Tid)
    requires Inv(s) && Off(s, t) && Runs(s, es) && StaysOff(s, es, t)
    ensures t in s.tasks && t in End(s, es).tasks
    ensures End(s, es).tasks[t].ret == if Stored(s, es, t) then 0 else s.tasks[t].ret
    decreases es
  {
    if es == [] {
      var pl :| OffAt(s, t, pl);
      var i :| 0 <= i < |At(s.own, pl)| && At(s.own, pl)[i] == t;
      MemberAt(s.own, pl, i);
    } else {
      StepInv(s, es[0]);
      OffStep(s, es[0], t);
      RetWhileOff(After(s, es[0]), es[1..], t);
    }
  }

  /** The task on core `d` enters user mode. */
  predicate Goes(s: State, d: Core, t: Tid, r: State) {
    Enabled(s, SwitchTo(d)) && First(s, Running(d)) == t && r == After(s, SwitchTo(d))
  }

  /** Task `t` calls sem_wait on core `c` and has to wait. */
  predicate Blocks(s: State, c: Core, q: nat, t: Tid, r: State) {
    Enabled(s, SemWait(c, q)) && s.sems[q].count == 0 && t == First(s, Running(c)) && r == After(s, SemWait(c, q))
  }

  /** Task `t` calls sem_wait on core `c` and is granted a unit at once. */
  predicate GrantsAtOnce(s: State, c: Core, q: nat, t: Tid, r: State) {
    Enabled(s, SemWait(c, q)) && s.sems[q].count > 0 && t == First(s, Running(c)) && r == After(s, SemWait(c, q))
  }

  /** Entering user mode, a task finds its return value in X0. */
  lemma GoesWith(s: State, d: Core, t: Tid, r: State)
    requires Goes(s, d, t, r)
    ensures t in s.tasks && t in r.tasks && r.tasks[t].x0 == s.tasks[t].ret
  {
  }

  /** What a task finds in X0 is what its call answered, unless a late store has come in between: then it is 0. */
  lemma AnswerDelivered(s: State, t: Tid, es: seq<Event>, end: State, d: Core, out: State)
    requires Reachable(s) && Off(s, t) && Runs(s, es) && StaysOff(s, es, t) && end == End(s, es) && Goes(end, d, t, out)
    ensures t in s.tasks && t in out.tasks && out.tasks[t].x0 == if Stored(s, es, t) then 0 else s.tasks[t].ret
  {
    ReachableInv(s);
    RetWhileOff(s, es, t);
    GoesWith(end, d, t, out);
  }

  lemma OffWhenBlocked(s: State, c: Core, q: nat, t: Tid, r: State)
    requires Inv(s) && Blocks(s, c, q, t, r)
    ensures Inv(r) && Off(r, t) && t in s.tasks && t in r.tasks && r.tasks[t].ret == s.tasks[t].ret
  {
    StepInv(s, SemWait(c, q));
    MovedTo(s.own, EffectOf(s, SemWait(c, q)), s.nextPid, Wait(SemQ(q)), t);
    assert OffAt(r, t, Wait(SemQ(q)));
  }

  lemma OffWhenGranted(s: State, c: Core, q: nat, t: Tid, r: State)
    requires Inv(s) && GrantsAtOnce(s, c, q, t, r)
    ensures Inv(r) && Off(r, t) && t in r.tasks && r.tasks[t].ret == 0
  {
    StepInv(s, SemWait(c, q));
    assert OffAt(r, t, Running(c));
  }

  /** A sem_wait that blocks returns 0 exactly when some late store for the task, its own among them, comes before
      the task enters user mode again, or the task had 0 to return already. */
  lemma BlockedReturns(s: State, c: Core, q: nat, t: Tid, r: State, es: seq<Event>, end: State, d: Core, out: State)
    requires Reachable(s) && Blocks(s, c, q, t, r)
    requires Runs(r, es) && StaysOff(r, es, t) && end == End(r, es) && Goes(end, d, t, out)
    ensures t in s.tasks && t in out.tasks && (out.tasks[t].x0 == 0 <==> Stored(r, es, t) || s.tasks[t].ret == 0)
  {
    ReachableInv(s);
    OffWhenBlocked(s, c, q, t, r);
    ReachableStep(s, SemWait(c, q));
    AnswerDelivered(r, t, es, end, d, out);
  }

  /** One that is granted a unit at once always returns 0. */
  lemma GrantedReturns(s: State, c: Core, q: nat, t: Tid, r: State, es: seq<Event>, end: State, d: Core, out: State)
    requires Reachable(s) && GrantsAtOnce(s, c, q, t, r)
    requires Runs(r, es) && StaysOff(r, es, t) && end == End(r, es) && Goes(end, d, t, out)
    ensures t in out.tasks && out.tasks[t].x0 == 0
  {
    ReachableInv(s);
    OffWhenGranted(s, c, q, t, r);
    RetWhileOff(r, es, t);
    GoesWith(end, d, t, out);
  }
}
