/** New tasks, from proc_create to their first entry into user mode, whatever all cores do in between: each is what its
    creator asked for, stands only where it may, and starts with its argument in X0. */
module KernelBirths {
  import opened Rings
  import opened Placement
  import opened Kernel
  import opened KernelInvariants
  import opened KernelTheorems
  import opened KernelReturns
  import opened KernelProgress

  /** What the creator of a task asks for. */
  datatype Wish = Wish(prio: Prio, mask: set<Core>, kind: Kind, arg: int)

  /** kernel_start asks for its core's idle task and its root task, both tied to the core, pthread_create for a
      thread. */
  predicate Asks(e: Event, w: Wish) {
    match e
    case Boot(c) => w == Wish(PRIORITY_IDLE, {c}, IdleOf(c), 0)
    case Root(c) => w == Wish(PRIORITY_MED, {c}, Thread, 0)
    case Create(c, thread, mask, arg) => w == Wish(PRIORITY_MED, mask, Thread, arg)
    case _ => false
  }

  /** Where a task may be that has not been in user mode yet: in the hand of the core that makes it, in a run queue of
      its priority on a core it may run on, or on such a core that is about to switch to it. */
  predicate Unborn(s: State, t: Tid, w: Wish, pl: Place) {
    && Shaped(s) && t in At(s.own, pl)
    && match pl
       case Hand(c) => true
       case Ready(c, p) => p == w.prio && Obeys(w.mask, c)
       case Running(c) => s.phase[c] == Leaving && Obeys(w.mask, c)
       case Wait(q) => false
  }

  /** The task is as asked for, with its argument as its return value. */
  predicate As(tasks: map<Tid, Task>, t: Tid, w: Wish) {
    && t in tasks && tasks[t].prio == w.prio && tasks[t].mask == w.mask && tasks[t].kind == w.kind
    && tasks[t].ret == w.arg
  }

  ghost predicate AsAsked(s: State, t: Tid, w: Wish) {
    && As(s.tasks, t, w) && (exists pl :: Unborn(s, t, w, pl))
    && forall c: Core :: c < |s.phase| ==> s.phase[c] != Returning(t)
  }

  /** No event is about such a task but those that move it. */
  lemma UnbornApart(s: State, e: Event, t: Tid, w: Wish, pl: Place)
    requires Held(s) && Enabled(s, e) && Unborn(s, t, w, pl) && t in s.tasks
    ensures Untold(s, e, t)
    ensures e.SetAffinity? ==> t != First(s, Running(e.core))
  {
    var i :| 0 <= i < |At(s.own, pl)| && At(s.own, pl)[i] == t;
    MemberAt(s.own, pl, i);
    if Has(s, Running(e.core)) && t == First(s, Running(e.core)) { UniquePlace(s.own, pl, i, Running(e.core), 0); }
    if e.Wake? && s.phase[e.core].Burying? && t == First(s, Waking(s.phase[e.core])) {
      UniquePlace(s.own, pl, i, Waking(s.phase[e.core]), 0);
    }
  }

  lemma AsKept(s: State, e: Event, t: Tid, w: Wish, pl: Place)
    requires Held(s) && Enabled(s, e) && Unborn(s, t, w, pl) && As(s.tasks, t, w) && !Enters(s, e, t)
    requires s.phase[e.core] != Returning(t)
    ensures As(TasksAfter(s, e), t, w)
  {
    UnbornApart(s, e, t, w, pl);
    FieldsKept(s, e, t);
    if e.Return? { RetStored(s, e, t); } else { RetKept(s, e, t); }
  }

  /** From such a place a task is only moved to another one. */
  lemma UnbornMoves(s: State, e: Event, t: Tid, w: Wish, pl: Place, r: State)
    requires Held(s) && Phased(s) && Enabled(s, e) && Unborn(s, t, w, pl) && As(s.tasks, t, w) && !Enters(s, e, t)
    requires r == After(s, e) && As(r.tasks, t, w) && Fits(s.own, EffectOf(s, e))
    requires EffectOf(s, e).Shift? && EffectOf(s, e).from == pl && At(s.own, pl)[EffectOf(s, e).index] == t
    ensures Unborn(r, t, w, EffectOf(s, e).to)
  {
    MovedTo(s.own, EffectOf(s, e), s.nextPid, EffectOf(s, e).to, t);
    if EffectOf(s, e).to.Ready? { ArrivesSorted(s, e); }
  }

  lemma UnbornStays(s: State, e: Event, t: Tid, w: Wish, pl: Place, r: State)
    requires Held(s) && Phased(s) && Enabled(s, e) && Unborn(s, t, w, pl) && t in s.tasks && !Enters(s, e, t)
    requires r == After(s, e) && Fits(s.own, EffectOf(s, e))
    requires EffectOf(s, e).Shift? ==> At(s.own, EffectOf(s, e).from)[EffectOf(s, e).index] != t
    ensures Unborn(r, t, w, pl)
  {
    UnbornApart(s, e, t, w, pl);
    MovedTo(s.own, EffectOf(s, e), s.nextPid, pl, t);
    if pl.Running? {
      assert |At(s.own, pl)| == 1 by { assert PhasedAt(s, pl.core); }
      if e.core == pl.core { LeavingOnly(s, e); }
    }
  }

  lemma UnbornNext(s: State, e: Event, t: Tid, w: Wish, r: State)
    requires Held(s) && Phased(s) && Enabled(s, e) && AsAsked(s, t, w) && !Enters(s, e, t) && r == After(s, e)
    ensures As(r.tasks, t, w) && exists pl :: Unborn(r, t, w, pl)
  {
    var pl :| Unborn(s, t, w, pl);
    EffectFits(s, e);
    AsKept(s, e, t, w, pl);
    var f := EffectOf(s, e);
    if f.Shift? && At(s.own, f.from)[f.index] == t {
      var i :| 0 <= i < |At(s.own, pl)| && At(s.own, pl)[i] == t;
      UniquePlace(s.own, pl, i, f.from, f.index);
      UnbornMoves(s, e, t, w, pl, r);
    } else {
      UnbornStays(s, e, t, w, pl, r);
    }
  }

  /** A task whose call stores late has been in user mode. */
  lemma ReturnsLate(s: State, e: Event, t: Tid)
    requires Enabled(s, e) && PhaseAfter(s, e) == Returning(t)
    ensures e.SemWait? && Has(s, Running(e.core)) && s.phase[e.core] == User && t == First(s, Running(e.core))
  {
  }

  lemma AsAskedStep(s: State, e: Event, t: Tid, w: Wish, r: State)
    requires Held(s) && Phased(s) && Enabled(s, e) && AsAsked(s, t, w) && !Enters(s, e, t) && r == After(s, e)
    ensures AsAsked(r, t, w) == true
  {
    UnbornNext(s, e, t, w, r);
    if PhaseAfter(s, e) == Returning(t) {
      ReturnsLate(s, e, t);
      var pl :| Unborn(s, t, w, pl);
      UnbornApart(s, e, t, w, pl);
    }
    NextParts(s, e, r);
  }

  lemma BornThere(s: State, e: Event, w: Wish, r: State)
    requires Enabled(s, e) && Asks(e, w) && r == After(s, e)
    ensures As(r.tasks, s.nextPid, w) && Unborn(r, s.nextPid, w, Hand(e.core)) && r.phase[e.core].Making?
  {
    assert At(r.own, Hand(e.core)) == At(s.own, Hand(e.core)) + [s.nextPid];
  }

  /** The event by which it comes into being. */
  lemma BornSo(s: State, e: Event, w: Wish, r: State)
    requires Reachable(s) && Enabled(s, e) && Asks(e, w) && r == After(s, e)
    ensures AsAsked(r, s.nextPid, w) == true && s.nextPid !in s.tasks
  {
    ReachableInv(s);
    ReachableStorable(s);
    BornThere(s, e, w, r);
    NextParts(s, e, r);
  }

  /** pthread_create answers with the pid of the new task, which no task has had before. */
  lemma PidTold(s: State, e: Event, r: State)
    requires Reachable(s) && Enabled(s, e) && e.Create? && r == After(s, e)
    ensures e.thread in r.cells && r.cells[e.thread] >= 0
    ensures r.cells[e.thread] !in s.tasks && r.cells[e.thread] in r.tasks
    ensures forall a :: a in s.cells && a != e.thread ==> a in r.cells && r.cells[a] == s.cells[a]
  {
    ReachableInv(s);
    BornThere(s, e, Wish(PRIORITY_MED, e.mask, Thread, e.arg), r);
  }

  lemma {:induction false} AsAskedRun(s: State, es: seq<Event>, t: Tid, w: Wish, end: State)
    requires Inv(s) == true && AsAsked(s, t, w) == true && Runs(s, es) && StaysOff(s, es, t) && end == End(s, es)
    ensures AsAsked(end, t, w) == true
    decreases es
  {
    if es != [] {
      StepInv(s, es[0]);
      AsAskedStep(s, es[0], t, w, After(s, es[0]));
      AsAskedRun(After(s, es[0]), es[1..], t, w, end);
    }
  }

  /** Until it first enters user mode a new task is what was asked for, and only ever stands where it may run. */
  lemma BornAsAsked(s: State, e: Event, w: Wish, r: State, es: seq<Event>, end: State)
    requires Reachable(s) && Enabled(s, e) && Asks(e, w) && r == After(s, e)
    requires Runs(r, es) && StaysOff(r, es, s.nextPid) && end == End(r, es)
    ensures s.nextPid !in s.tasks && AsAsked(end, s.nextPid, w)
  {
    BornSo(s, e, w, r);
    ReachableStep(s, e);
    ReachableInv(r);
    AsAskedRun(r, es, s.nextPid, w, end);
  }

  /** And it enters on a core that its mask allows, with its argument in X0. */
  lemma StartsAsAsked(s: State, e: Event, w: Wish, r: State, es: seq<Event>, end: State, d: Core, out: State)
    requires Reachable(s) && Enabled(s, e) && Asks(e, w) && r == After(s, e)
    requires Runs(r, es) && StaysOff(r, es, s.nextPid) && end == End(r, es) && Goes(end, d, s.nextPid, out)
    ensures Obeys(w.mask, d) && s.nextPid in out.tasks && out.tasks[s.nextPid].x0 == w.arg
    ensures out.tasks[s.nextPid].mask == w.mask && out.tasks[s.nextPid].prio == w.prio
  {
    BornAsAsked(s, e, w, r, es, end);
    ReachableStep(s, e);
    ReachableRun(r, es);
    ReachableInv(end);
    GoesOn(end, d, s.nextPid, w, out);
  }

  lemma GoesOn(end: State, d: Core, t: Tid, w: Wish, out: State)
    requires Held(end) && AsAsked(end, t, w) && Goes(end, d, t, out)
    ensures Obeys(w.mask, d) && As(out.tasks, t, w) && out.tasks[t].x0 == w.arg
  {
    var pl :| Unborn(end, t, w, pl);
    var i :| 0 <= i < |At(end.own, pl)| && At(end.own, pl)[i] == t;
    UniquePlace(end.own, pl, i, Running(d), 0);
  }
}
