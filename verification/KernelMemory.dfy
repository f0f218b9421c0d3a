/** Joining from end to end, whatever all cores do in between: what a task passes to pthread_exit comes to stand where
    the task that joined it asked for it, and the join answers 0. */
module KernelMemory {
  import opened Rings
  import opened Placement
  import opened Kernel
  import opened KernelInvariants
  import opened KernelJoins
  import opened KernelTheorems
  import opened KernelReturns

  // ---------------------------------------------------------------- the three calls and steps

  /** Task `j` calls pthread_join for task `t`, which does not fail at once. */
  predicate LooksUp(s: State, e: Event, j: Tid, t: Tid, status: StatusPtr) {
    && Enabled(s, e) && e.JoinLookup? && e.target == t && e.status == status
    && First(s, Running(e.core)) == j && !JoinFails(s, e.core, t)
  }

  /** Task `t` calls pthread_exit with this value. */
  predicate EndsWith(s: State, e: Event, t: Tid, value: int) {
    Enabled(s, e) && e.Exit? && e.value == value && First(s, Running(e.core)) == t
  }

  /** The joiner `j` is woken. */
  predicate Released(s: State, e: Event, j: Tid) {
    Enabled(s, e) && e.Wake? && s.phase[e.core].Burying? && First(s, Waking(s.phase[e.core])) == j
  }

  // ---------------------------------------------------------------- the joiner

  /** Where a task is that has looked up `t` and has not been woken yet. */
  predicate JoinsAt(s: State, j: Tid, t: Tid, pl: Place) {
    && Shaped(s) && j in At(s.own, pl)
    && match pl
       case Running(c) => s.phase[c] == Looked(t)
       case Wait(q) => q == JoinQ(t)
       case _ => false
  }

  /** Where it is from then until it enters user mode. */
  predicate RestsAt(s: State, j: Tid, pl: Place) {
    && Shaped(s) && j in At(s.own, pl)
    && match pl
       case Running(c) => s.phase[c] == Leaving
       case Ready(c, p) => true
       case _ => false
  }

  /** The task has looked up `t`, and has given this pointer; once woken it is going to answer 0. */
  predicate Joined(s: State, j: Tid, t: Tid, status: StatusPtr, pl: Place) {
    && j in s.tasks && s.tasks[j].status == status
    && (JoinsAt(s, j, t, pl) || (RestsAt(s, j, pl) && s.tasks[j].ret == 0))
  }

  /** A status pointer is what its task's own pthread_join has passed, and does not change otherwise. */
  lemma StatusKept(s: State, e: Event, j: Tid)
    requires Enabled(s, e) && j in s.tasks && j != s.nextPid
    ensures j in TasksAfter(s, e)
    ensures TasksAfter(s, e)[j].status == if e.JoinLookup? && LooksUp(s, e, j, e.target, e.status) then e.status
      else s.tasks[j].status
  {
  }

  lemma JoinedApart(s: State, e: Event, j: Tid, t: Tid, status: StatusPtr, pl: Place)
    requires Held(s) && Enabled(s, e) && Joined(s, j, t, status, pl)
    ensures j != s.nextPid
    ensures Has(s, Running(e.core)) && j == First(s, Running(e.core)) ==> pl == Running(e.core)
    ensures Released(s, e, j) ==> pl == Wait(JoinQ(s.phase[e.core].task))
  {
    var i :| 0 <= i < |At(s.own, pl)| && At(s.own, pl)[i] == j;
    MemberAt(s.own, pl, i);
    if Has(s, Running(e.core)) && j == First(s, Running(e.core)) { UniquePlace(s.own, pl, i, Running(e.core), 0); }
    if Released(s, e, j) { UniquePlace(s.own, pl, i, Waking(s.phase[e.core]), 0); }
  }

  /** A core that has looked up a task does nothing else but go to sleep. */
  lemma LookedOnly(s: State, e: Event)
    requires Enabled(s, e) && s.phase[e.core].Looked?
    ensures e.JoinSleep?
  {
  }

  lemma JoinedFields(s: State, e: Event, j: Tid, t: Tid, status: StatusPtr, pl: Place)
    requires Held(s) && Enabled(s, e) && Joined(s, j, t, status, pl) && !Enters(s, e, j)
    ensures j in TasksAfter(s, e) && TasksAfter(s, e)[j].status == status
    ensures TasksAfter(s, e)[j].ret == s.tasks[j].ret || TasksAfter(s, e)[j].ret == 0
    ensures Released(s, e, j) ==> TasksAfter(s, e)[j].ret == 0
  {
    JoinedApart(s, e, j, t, status, pl);
    StatusKept(s, e, j);
    if Has(s, Running(e.core)) && j == First(s, Running(e.core)) {
      OnItsCore(s, e, j, t);
    } else if !Released(s, e, j) {
      if e.Return? { RetStored(s, e, j); } else { RetKept(s, e, j); }
    }
  }

  lemma OnItsCore(s: State, e: Event, j: Tid, t: Tid)
    requires Enabled(s, e) && Has(s, Running(e.core)) && j == First(s, Running(e.core)) && !Enters(s, e, j)
    requires s.phase[e.core] == Looked(t) || s.phase[e.core] == Leaving
    ensures e.JoinSleep? && TasksAfter(s, e) == s.tasks
  {
    if s.phase[e.core] == Leaving { LeavingOnly(s, e); } else { LookedOnly(s, e); }
  }

  /** Moved, it goes to sleep, is woken, or goes on to a core. */
  lemma JoinedMoves(s: State, e: Event, j: Tid, t: Tid, status: StatusPtr, pl: Place, r: State)
    requires Held(s) && Enabled(s, e) && Joined(s, j, t, status, pl) && !Enters(s, e, j)
    requires Fits(s.own, EffectOf(s, e)) && JoinParts(s, e, r) && j in r.tasks && r.tasks[j].status == status
    requires r.tasks[j].ret == s.tasks[j].ret || r.tasks[j].ret == 0
    requires Released(s, e, j) ==> r.tasks[j].ret == 0
    requires EffectOf(s, e).Shift? && EffectOf(s, e).from == pl && At(s.own, pl)[EffectOf(s, e).index] == j
    ensures Joined(r, j, t, status, EffectOf(s, e).to)
  {
    MovedTo(s.own, EffectOf(s, e), s.nextPid, EffectOf(s, e).to, j);
  }

  lemma JoinedStays(s: State, e: Event, j: Tid, t: Tid, status: StatusPtr, pl: Place, r: State)
    requires Held(s) && Phased(s) && Enabled(s, e) && Joined(s, j, t, status, pl) && !Enters(s, e, j)
    requires Fits(s.own, EffectOf(s, e)) && JoinParts(s, e, r) && j in r.tasks && r.tasks[j].status == status
    requires r.tasks[j].ret == s.tasks[j].ret || r.tasks[j].ret == 0
    requires EffectOf(s, e).Shift? ==> At(s.own, EffectOf(s, e).from)[EffectOf(s, e).index] != j
    ensures Joined(r, j, t, status, pl)
  {
    JoinedApart(s, e, j, t, status, pl);
    MovedTo(s.own, EffectOf(s, e), s.nextPid, pl, j);
    if pl.Running? {
      assert |At(s.own, pl)| == 1 by { assert PhasedAt(s, pl.core); }
      if e.core == pl.core { OnItsCore(s, e, j, t); }
    }
  }

  lemma JoinedStep(s: State, e: Event, j: Tid, t: Tid, status: StatusPtr, pl: Place, r: State) returns (to: Place)
    requires Held(s) && Phased(s) && Enabled(s, e) && Joined(s, j, t, status, pl) && !Enters(s, e, j)
    requires r == After(s, e)
    ensures Joined(r, j, t, status, to)
  {
    JoinPartsAfter(s, e);
    JoinedFields(s, e, j, t, status, pl);
    var f := EffectOf(s, e);
    if f.Shift? && At(s.own, f.from)[f.index] == j {
      var i :| 0 <= i < |At(s.own, pl)| && At(s.own, pl)[i] == j;
      UniquePlace(s.own, pl, i, f.from, f.index);
      JoinedMoves(s, e, j, t, status, pl, r);
      to := f.to;
    } else {
      JoinedStays(s, e, j, t, status, pl, r);
      to := pl;
    }
  }

  lemma LookupJoins(s: State, e: Event, j: Tid, t: Tid, status: StatusPtr, r: State)
    requires LooksUp(s, e, j, t, status) && r == After(s, e)
    ensures Joined(r, j, t, status, Running(e.core))
  {
  }

  // ---------------------------------------------------------------- runs from before boot

  /** Task `j` does not enter user mode between the events `i` and `m`. */
  ghost predicate Outside(states: seq<State>, es: seq<Event>, i: nat, m: nat, j: Tid) {
    && i < m <= |es| && |states| == |es| + 1
    && forall n {:trigger states[n], es[n]} :: i < n < m ==> Enabled(states[n], es[n]) && !Enters(states[n], es[n], j)
  }

  lemma {:induction false} JoinedRun(states: seq<State>, es: seq<Event>, i: nat, m: nat, j: Tid, t: Tid,
                                     status: StatusPtr)
      returns (pl: Place)
    requires Trace(states, es) == true && Outside(states, es, i, m, j) == true
    requires LooksUp(states[i], es[i], j, t, status) == true
    ensures Joined(states[m], j, t, status, pl) == true
    decreases m
  {
    if m == i + 1 {
      pl := JoinedFirst(states, es, i, m, j, t, status);
    } else {
      var before := JoinedRun(states, es, i, m - 1, j, t, status);
      OutsideAt(states, es, i, m, m - 1, j);
      pl := JoinedNext(states, es, m - 1, m, j, t, status, before);
    }
  }

  lemma JoinedFirst(states: seq<State>, es: seq<Event>, i: nat, m: nat, j: Tid, t: Tid, status: StatusPtr)
      returns (pl: Place)
    requires Trace(states, es) == true && m == i + 1 <= |es| && LooksUp(states[i], es[i], j, t, status) == true
    ensures Joined(states[m], j, t, status, pl) == true
  {
    TraceStep(states, es, i, m);
    LookupJoins(states[i], es[i], j, t, status, states[m]);
    pl := Running(es[i].core);
  }

  lemma OutsideAt(states: seq<State>, es: seq<Event>, i: nat, m: nat, n: nat, j: Tid)
    requires Outside(states, es, i, m, j) && i < n < m
    ensures Enabled(states[n], es[n]) && !Enters(states[n], es[n], j)
  {
  }

  lemma JoinedNext(states: seq<State>, es: seq<Event>, n: nat, m: nat, j: Tid, t: Tid, status: StatusPtr, before: Place)
      returns (pl: Place)
    requires Trace(states, es) == true && m == n + 1 <= |es|
    requires Enabled(states[n], es[n]) && !Enters(states[n], es[n], j)
    requires Joined(states[n], j, t, status, before) == true
    ensures Joined(states[m], j, t, status, pl) == true
  {
    TraceInv(states, es, n);
    TraceStep(states, es, n, m);
    pl := JoinedStep(states[n], es[n], j, t, status, before, states[m]);
  }

  // ---------------------------------------------------------------- the task that exits

  /** The core is in proc_exit, with the value still in hand. */
  predicate Tells(ph: Phase, t: Tid, value: int) {
    (ph.Dying? || ph.Burying?) && ph.task == t && ph.value == value
  }

  lemma TellsFrom(s: State, e: Event, t: Tid, value: int)
    requires Enabled(s, e) && Tells(PhaseAfter(s, e), t, value)
    ensures Tells(s.phase[e.core], t, value) || EndsWith(s, e, t, value)
  {
  }

  lemma OnePhase(s: State, e: Event, d: Core, r: State)
    requires Enabled(s, e) && r == After(s, e)
    ensures Shaped(r) && r.phase[d] == if d == e.core then PhaseAfter(s, e) else s.phase[d]
  {
  }

  /** A value in hand is one that the task has passed. */
  lemma {:induction false} ToldBefore(states: seq<State>, es: seq<Event>, m: nat, d: Core, t: Tid, value: int)
      returns (k: nat)
    requires Trace(states, es) == true && m <= |es| && Shaped(states[m]) && Tells(states[m].phase[d], t, value)
    ensures k < m && EndsWith(states[k], es[k], t, value)
  {
    if m > 0 {
      TraceStep(states, es, m - 1, m);
      OnePhase(states[m - 1], es[m - 1], d, states[m]);
      if d == es[m - 1].core { TellsFrom(states[m - 1], es[m - 1], t, value); }
      k := m - 1;
      if !EndsWith(states[m - 1], es[m - 1], t, value) { k := ToldBefore(states, es, m - 1, d, t, value); }
    }
  }

  /** A task that has exited is held nowhere from then on. */
  lemma {:induction false} GoneAfter(states: seq<State>, es: seq<Event>, k: nat, m: nat, t: Tid, value: int)
    requires Trace(states, es) == true && k < m <= |es| && EndsWith(states[k], es[k], t, value) == true
    ensures Away(states[m], t) == true
  {
    if m == k + 1 {
      GoesAway(states, es, k, m, t, value);
    } else {
      GoneAfter(states, es, k, m - 1, t, value);
      StaysAway(states, es, m - 1, m, t);
    }
  }

  ghost predicate Away(s: State, t: Tid) {
    t in s.tasks && t !in Members(s.own)
  }

  lemma GoesAway(states: seq<State>, es: seq<Event>, k: nat, m: nat, t: Tid, value: int)
    requires Trace(states, es) == true && m == k + 1 <= |es| && EndsWith(states[k], es[k], t, value) == true
    ensures Away(states[m], t) == true
  {
    TraceInv(states, es, k);
    TraceStep(states, es, k, m);
    ExitKnown(states[k], es[k]);
    UnheldStay(states[k], es[k], states[m]);
    assert t in states[k].tasks.Keys;
  }

  lemma StaysAway(states: seq<State>, es: seq<Event>, n: nat, m: nat, t: Tid)
    requires Trace(states, es) == true && m == n + 1 <= |es| && Away(states[n], t) == true
    ensures Away(states[m], t) == true
  {
    TraceInv(states, es, n);
    TraceStep(states, es, n, m);
    UnheldStay(states[n], es[n], states[m]);
    assert t in states[n].tasks.Keys;
  }

  lemma StillThere(s: State, e: Event, t: Tid, value: int)
    requires EndsWith(s, e, t, value)
    ensures t in Members(s.own)
  {
    MemberAt(s.own, Running(e.core), 0);
  }

  /** No task exits twice. */
  lemma ExitsOnce(states: seq<State>, es: seq<Event>, k: nat, n: nat, t: Tid, v: int, w: int)
    requires Trace(states, es) == true && k < |es| && n < |es|
    requires EndsWith(states[k], es[k], t, v) && EndsWith(states[n], es[n], t, w)
    ensures k == n && v == w
  {
    StillThere(states[k], es[k], t, v);
    StillThere(states[n], es[n], t, w);
    if k < n { GoneAfter(states, es, k, n, t, v); }
    if n < k { GoneAfter(states, es, n, k, t, w); }
  }

  // ---------------------------------------------------------------- from end to end

  /** One wake of a joiner: what it writes. */
  lemma ReleaseWrites(s: State, e: Event, j: Tid, t: Tid, status: StatusPtr, pl: Place, r: State)
    requires Held(s) && Released(s, e, j) && Joined(s, j, t, status, pl) && r == After(s, e)
    ensures s.phase[e.core].task == t && j in r.tasks && r.tasks[j].ret == 0
    ensures r.cells == if status.Cell? then s.cells[status.addr := s.phase[e.core].value] else s.cells
  {
    JoinedApart(s, e, j, t, status, pl);
  }

  /** A task that has joined `t` and is woken has been woken because `t` has exited; the value that `t` passed to
      pthread_exit is now where the joiner wanted it, and nothing else in memory has changed. */
  lemma ExitValueDelivered(states: seq<State>, es: seq<Event>, i: nat, m: nat, j: Tid, t: Tid, status: StatusPtr)
      returns (k: nat, value: int)
    requires Trace(states, es) && m < |es| && Outside(states, es, i, m, j)
    requires LooksUp(states[i], es[i], j, t, status) && Released(states[m], es[m], j)
    ensures k < m && EndsWith(states[k], es[k], t, value)
    ensures states[m + 1].cells == if status.Cell? then states[m].cells[status.addr := value] else states[m].cells
    ensures j in states[m + 1].tasks && states[m + 1].tasks[j].ret == 0
  {
    var pl := JoinedRun(states, es, i, m, j, t, status);
    TraceInv(states, es, m);
    TraceStep(states, es, m, m + 1);
    ReleaseWrites(states[m], es[m], j, t, status, pl, states[m + 1]);
    value := states[m].phase[es[m].core].value;
    k := ToldBefore(states, es, m, es[m].core, t, value);
  }

  /** No other event writes to user memory but a pthread_create, which writes where it is to tell the pid. */
  lemma MemoryKept(s: State, e: Event, a: nat)
    requires Enabled(s, e) && !(e.Create? && e.thread == a)
    requires forall j :: Released(s, e, j) ==> s.tasks[j].status != Cell(a)
    ensures a in After(s, e).cells <==> a in s.cells
    ensures a in s.cells ==> After(s, e).cells[a] == s.cells[a]
  {
    if e.Wake? && s.phase[e.core].Burying? { assert Released(s, e, First(s, Waking(s.phase[e.core]))); }
  }

  // ---------------------------------------------------------------- what pthread_join answers

  lemma {:induction false} JoinedRest(s: State, es: seq<Event>, j: Tid, t: Tid, status: StatusPtr, pl: Place,
                                      end: State)
      returns (to: Place)
    requires Inv(s) == true && Joined(s, j, t, status, pl) == true
    requires Runs(s, es) && StaysOff(s, es, j) && end == End(s, es)
    ensures Joined(end, j, t, status, to) == true
    decreases es
  {
    if es == [] {
      to := pl;
    } else {
      StepInv(s, es[0]);
      var next := JoinedStep(s, es[0], j, t, status, pl, After(s, es[0]));
      to := JoinedRest(After(s, es[0]), es[1..], j, t, status, next, end);
    }
  }
}
