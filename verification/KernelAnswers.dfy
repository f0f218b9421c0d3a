/** What each call answers: what its caller finds in X0 when it next enters user mode, whatever all cores do until
    then. */
module KernelAnswers {
  import opened Rings
  import opened Placement
  import opened Kernel
  import opened KernelInvariants
  import opened KernelJoins
  import opened KernelTheorems
  import opened KernelCounts
  import opened KernelReturns
  import opened KernelMemory

  // ---------------------------------------------------------------- calls that answer 0

  /** Task `t` calls pthread_create, sem_init, sem_post, sem_destroy or sched_setaffinity, or a sem_wait that finds a
      unit. */
  predicate AnswersZero(s: State, e: Event, t: Tid) {
    && Enabled(s, e)
    && (e.Create? || e.SemInit? || e.SemPost? || e.SemDestroy? || e.SetAffinity?
        || (e.SemWait? && s.sems[e.sem].count > 0))
    && First(s, Running(e.core)) == t
  }

  /** Where a task is that is going to answer 0: on the core that wakes tasks, or makes one, for it, or with the 0
      already stored on a core about to switch to it or in a run queue. */
  predicate ZeroAt(s: State, t: Tid, pl: Place) {
    && Shaped(s) && t in At(s.own, pl) && t in s.tasks
    && match pl
       case Running(c) =>
         || s.phase[c].Posting?
         || (s.tasks[t].ret == 0 && (s.phase[c] == Leaving || (s.phase[c].Making? && s.phase[c].next == ThenReturn)))
       case Ready(c, p) => s.tasks[t].ret == 0
       case _ => false
  }

  lemma ZeroApart(s: State, e: Event, t: Tid, pl: Place)
    requires Held(s) && Enabled(s, e) && ZeroAt(s, t, pl)
    ensures t != s.nextPid
    ensures Has(s, Running(e.core)) && t == First(s, Running(e.core)) ==> pl == Running(e.core)
    ensures e.Wake? ==> t != First(s, Waking(s.phase[e.core]))
  {
    var i :| 0 <= i < |At(s.own, pl)| && At(s.own, pl)[i] == t;
    MemberAt(s.own, pl, i);
    if Has(s, Running(e.core)) && t == First(s, Running(e.core)) { UniquePlace(s.own, pl, i, Running(e.core), 0); }
    if e.Wake? && t == First(s, Waking(s.phase[e.core])) { UniquePlace(s.own, pl, i, Waking(s.phase[e.core]), 0); }
  }

  /** What the core does for its own task. */
  lemma ZeroOnCore(s: State, e: Event, t: Tid)
    requires Enabled(s, e) && ZeroAt(s, t, Running(e.core)) && Has(s, Running(e.core)) && t == First(s, Running(e.core))
    requires !Enters(s, e, t) && t != s.nextPid && (e.Wake? ==> t != First(s, Waking(s.phase[e.core])))
    ensures EffectOf(s, e).Shift? ==> EffectOf(s, e).from != Running(e.core)
    ensures t in TasksAfter(s, e)
    ensures var ph := PhaseAfter(s, e);
      ph.Posting?
      || (TasksAfter(s, e)[t].ret == 0 && (ph == Leaving || (ph.Making? && ph.next == ThenReturn)))
  {
  }

  lemma ZeroElsewhere(s: State, e: Event, t: Tid)
    requires Enabled(s, e) && t in s.tasks && t != s.nextPid && (e.Wake? ==> t != First(s, Waking(s.phase[e.core])))
    requires Has(s, Running(e.core)) ==> t != First(s, Running(e.core))
    ensures t in TasksAfter(s, e) && (s.tasks[t].ret == 0 ==> TasksAfter(s, e)[t].ret == 0)
  {
    if e.Return? {
      RetStored(s, e, t);
    } else {
      RetKept(s, e, t);
    }
  }

  /** From a run queue the task goes to another one, or to a core. */
  lemma ZeroMoves(s: State, e: Event, t: Tid, pl: Place, r: State)
    requires Held(s) && Enabled(s, e) && ZeroAt(s, t, pl) && pl.Ready?
    requires Fits(s.own, EffectOf(s, e)) && JoinParts(s, e, r)
    requires t in r.tasks && r.tasks[t].ret == 0
    requires EffectOf(s, e).Shift? && EffectOf(s, e).from == pl && At(s.own, pl)[EffectOf(s, e).index] == t
    ensures ZeroAt(r, t, EffectOf(s, e).to)
  {
    MovedTo(s.own, EffectOf(s, e), s.nextPid, EffectOf(s, e).to, t);
  }

  lemma ZeroStays(s: State, e: Event, t: Tid, pl: Place, r: State)
    requires Held(s) && Phased(s) && Enabled(s, e) && ZeroAt(s, t, pl) && !Enters(s, e, t)
    requires Fits(s.own, EffectOf(s, e)) && JoinParts(s, e, r)
    requires EffectOf(s, e).Shift? ==> At(s.own, EffectOf(s, e).from)[EffectOf(s, e).index] != t
    ensures ZeroAt(r, t, pl)
  {
    ZeroApart(s, e, t, pl);
    if pl.Running? { Alone(s, pl.core, t); }
    if pl == Running(e.core) { ZeroOnCore(s, e, t); } else { ZeroElsewhere(s, e, t); }
    NotDead(s, e, t, pl);
    MovedTo(s.own, EffectOf(s, e), s.nextPid, pl, t);
  }

  lemma NotDead(s: State, e: Event, t: Tid, pl: Place)
    requires Held(s) && Enabled(s, e) && ZeroAt(s, t, pl)
    ensures EffectOf(s, e).Death? ==> At(s.own, Running(EffectOf(s, e).core))[0] != t
  {
    ZeroApart(s, e, t, pl);
  }

  lemma Alone(s: State, c: Core, t: Tid)
    requires Held(s) && Phased(s) && t in At(s.own, Running(c))
    ensures Has(s, Running(c)) && First(s, Running(c)) == t
  {
    assert PhasedAt(s, c);
    MemberAt(s.own, Running(c), 0);
  }

  lemma ZeroStep(s: State, e: Event, t: Tid, pl: Place, r: State) returns (to: Place)
    requires Held(s) && Phased(s) && Enabled(s, e) && ZeroAt(s, t, pl) && !Enters(s, e, t) && r == After(s, e)
    ensures ZeroAt(r, t, to) == true
  {
    JoinPartsAfter(s, e);
    ZeroApart(s, e, t, pl);
    var f := EffectOf(s, e);
    if f.Shift? && At(s.own, f.from)[f.index] == t {
      var i :| 0 <= i < |At(s.own, pl)| && At(s.own, pl)[i] == t;
      UniquePlace(s.own, pl, i, f.from, f.index);
      StaysOnCore(s, e, t, pl);
      ZeroElsewhere(s, e, t);
      ZeroMoves(s, e, t, pl, r);
      to := f.to;
    } else {
      ZeroStays(s, e, t, pl, r);
      to := pl;
    }
  }

  /** No event takes such a task off its core. */
  lemma StaysOnCore(s: State, e: Event, t: Tid, pl: Place)
    requires Enabled(s, e) && ZeroAt(s, t, pl)
    ensures pl.Running? && EffectOf(s, e).Shift? ==> EffectOf(s, e).from != pl
  {
  }

  lemma ZeroNow(s: State, e: Event, t: Tid, r: State) returns (pl: Place)
    requires Held(s) && Phased(s) && AnswersZero(s, e, t) && r == After(s, e)
    ensures ZeroAt(r, t, pl) == true
  {
    EffectFits(s, e);
    MemberAt(s.own, Running(e.core), 0);
    assert PhasedAt(s, e.core);
    pl := if e.SetAffinity? && e.core in e.mask then EffectOf(s, e).to else Running(e.core);
  }

  lemma {:induction false} ZeroRun(s: State, es: seq<Event>, t: Tid, pl: Place, end: State) returns (to: Place)
    requires Inv(s) == true && ZeroAt(s, t, pl) == true && Runs(s, es) && StaysOff(s, es, t) && end == End(s, es)
    ensures Inv(end) == true && ZeroAt(end, t, to) == true
    decreases es
  {
    if es == [] {
      to := pl;
    } else {
      StepInv(s, es[0]);
      var next := ZeroStep(s, es[0], t, pl, After(s, es[0]));
      to := ZeroRun(After(s, es[0]), es[1..], t, next, end);
    }
  }

  lemma GoesWithZero(end: State, t: Tid, pl: Place, d: Core, out: State)
    requires Held(end) && ZeroAt(end, t, pl) && Goes(end, d, t, out)
    ensures t in out.tasks && out.tasks[t].x0 == 0
  {
    var i :| 0 <= i < |At(end.own, pl)| && At(end.own, pl)[i] == t;
    UniquePlace(end.own, pl, i, Running(d), 0);
    GoesWith(end, d, t, out);
  }

  /** These calls always answer 0. */
  lemma ZeroReturns(s: State, e: Event, t: Tid, r: State, es: seq<Event>, end: State, d: Core, out: State)
    requires Reachable(s) && AnswersZero(s, e, t) && r == After(s, e)
    requires Runs(r, es) && StaysOff(r, es, t) && end == End(r, es) && Goes(end, d, t, out)
    ensures t in out.tasks && out.tasks[t].x0 == 0
  {
    ReachableInv(s);
    StepInv(s, e);
    var pl := ZeroNow(s, e, t, r);
    var to := ZeroRun(r, es, t, pl, end);
    GoesWithZero(end, t, to, d, out);
  }

  // ---------------------------------------------------------------- pthread_join

  lemma FailsAtOnce(s: State, e: Event, t: Tid, r: State)
    requires Enabled(s, e) && e.JoinLookup? && t == First(s, Running(e.core)) && r == After(s, e)
    requires JoinFails(s, e.core, e.target)
    ensures OffAt(r, t, Running(e.core)) && t in r.tasks && r.tasks[t].ret == EINVAL
  {
  }

  lemma RestsWithZero(end: State, j: Tid, t: Tid, status: StatusPtr, pl: Place, d: Core, out: State)
    requires Held(end) && Joined(end, j, t, status, pl) && Goes(end, d, j, out)
    ensures j in out.tasks && out.tasks[j].x0 == 0
  {
    var i :| 0 <= i < |At(end.own, pl)| && At(end.own, pl)[i] == j;
    UniquePlace(end.own, pl, i, Running(d), 0);
    GoesWith(end, d, j, out);
  }

  /** pthread_join answers EINVAL exactly for pid 0, a task that is not in the table, and the caller itself, unless a
      late store comes in between; otherwise 0. */
  lemma JoinReturns(s: State, e: Event, j: Tid, r: State, es: seq<Event>, end: State, d: Core, out: State)
    requires Reachable(s) && Enabled(s, e) && e.JoinLookup? && j == First(s, Running(e.core)) && r == After(s, e)
    requires Runs(r, es) && StaysOff(r, es, j) && end == End(r, es) && Goes(end, d, j, out)
    ensures j in out.tasks
    ensures out.tasks[j].x0 ==
      if (e.target == 0 || e.target !in s.registered || e.target == j) && !Stored(r, es, j) then EINVAL else 0
  {
    ReachableStep(s, e);
    if JoinFails(s, e.core, e.target) {
      FailsAtOnce(s, e, j, r);
      AnswerDelivered(r, j, es, end, d, out);
    } else {
      LookupJoins(s, e, j, e.target, e.status, r);
      ReachableInv(r);
      var pl := JoinedRest(r, es, j, e.target, e.status, Running(e.core), end);
      RunInv(r, es);
      RestsWithZero(end, j, e.target, e.status, pl, d, out);
    }
  }

  // ---------------------------------------------------------------- the others

  lemma TriedSo(s: State, e: Event, t: Tid, r: State)
    requires Reachable(s) && Enabled(s, e) && e.SemTryWait? && t == First(s, Running(e.core)) && r == After(s, e)
    ensures OffAt(r, t, Running(e.core)) && t in r.tasks
    ensures r.tasks[t].ret == if 1 <= UnitsLeft(s.sems[e.sem]) <= UINT32 / 2 then 0 else EAGAIN
  {
    TryWaitAnswers(s, e.core, e.sem, r);
  }

  /** sem_trywait, told by the history of the semaphore. */
  lemma TryWaitReturns(s: State, e: Event, t: Tid, r: State, es: seq<Event>, end: State, d: Core, out: State)
    requires Reachable(s) && Enabled(s, e) && e.SemTryWait? && t == First(s, Running(e.core)) && r == After(s, e)
    requires Runs(r, es) && StaysOff(r, es, t) && end == End(r, es) && Goes(end, d, t, out)
    ensures t in out.tasks
    ensures out.tasks[t].x0 ==
      if 1 <= UnitsLeft(s.sems[e.sem]) <= UINT32 / 2 || Stored(r, es, t) then 0 else EAGAIN
  {
    ReachableStep(s, e);
    TriedSo(s, e, t, r);
    AnswerDelivered(r, t, es, end, d, out);
  }

  lemma Unanswered(s: State, e: Event, t: Tid, r: State)
    requires Enabled(s, e) && e.Resched? && t == First(s, Running(e.core)) && r == After(s, e)
    ensures OffAt(r, t, EffectOf(s, e).to) && t in r.tasks && r.tasks[t].ret == s.tasks[t].ret
  {
    MovedTo(s.own, EffectOf(s, e), s.nextPid, EffectOf(s, e).to, t);
  }

  /** A yield, or a timer tick, answers what the call before answered. */
  lemma ReschedReturns(s: State, e: Event, t: Tid, r: State, es: seq<Event>, end: State, d: Core, out: State)
    requires Reachable(s) && Enabled(s, e) && e.Resched? && t == First(s, Running(e.core)) && r == After(s, e)
    requires Runs(r, es) && StaysOff(r, es, t) && end == End(r, es) && Goes(end, d, t, out)
    ensures t in s.tasks && t in out.tasks && out.tasks[t].x0 == if Stored(r, es, t) then 0 else s.tasks[t].ret
  {
    ReachableStep(s, e);
    Unanswered(s, e, t, r);
    AnswerDelivered(r, t, es, end, d, out);
  }
}
