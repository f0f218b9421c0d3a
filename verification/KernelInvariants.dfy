/** What every event of the kernel keeps. */
module KernelInvariants {
  import opened Rings
  import opened Placement
  import opened Kernel

  // ---------------------------------------------------------------- who holds each task, and how many there are

  /** No task is held twice, each is in the task table, and live_procs counts them. */
  ghost predicate Held(s: State) {
    && Shaped(s) && Separate(s.own)
    && (forall t :: t in Members(s.own) ==> t in s.tasks)
    && 0 < s.nextPid && (forall t :: t in s.tasks ==> 0 < t < s.nextPid)
    && s.liveProcs == |Members(s.own)|
  }

  /** The four run queues of a core together. */
  function Queued<N>(own: map<Place, seq<N>>, c: Core): nat {
    |At(own, Ready(c, 0))| + |At(own, Ready(c, 1))| + |At(own, Ready(c, 2))| + |At(own, Ready(c, 3))|
  }

  /** ready_queue[c].length is the number of tasks queued on core c. */
  ghost predicate Counted(s: State) {
    Shaped(s) && forall c: Core :: s.length[c] == Queued(s.own, c)
  }

  lemma LengthAfter<N>(own: map<Place, seq<N>>, from: Place, i: nat, to: Place, pl: Place)
    requires i < |At(own, from)|
    ensures |At(Move(own, from, i, to), pl)|
      == |At(own, pl)| - (if pl == from then 1 else 0) + (if pl == to then 1 else 0)
  {
  }

  lemma QueuedAfter<N>(own: map<Place, seq<N>>, from: Place, i: nat, to: Place, c: Core)
    requires i < |At(own, from)|
    ensures Queued(Move(own, from, i, to), c) == Queued(own, c) - On(from, c) + On(to, c)
  {
    LengthAfter(own, from, i, to, Ready(c, 0));
    LengthAfter(own, from, i, to, Ready(c, 1));
    LengthAfter(own, from, i, to, Ready(c, 2));
    LengthAfter(own, from, i, to, Ready(c, 3));
  }

  /** What an effect does to the set of tasks held. */
  lemma MovedMembers(own: map<Place, seq<Tid>>, f: Effect, pid: Tid)
    requires Separate(own) && Fits(own, f) && (f.Birth? ==> pid !in Members(own))
    ensures Separate(Moved(own, f, pid))
    ensures Members(Moved(own, f, pid)) == match f
      case Birth(c) => Members(own) + {pid}
      case Death(c) => Members(own) - {At(own, Running(c))[0]}
      case _ => Members(own)
    ensures f.Death? ==> At(own, Running(f.core))[0] in Members(own)
  {
    match f
    case Still =>
    case Birth(c) => AppendKeeps(own, Hand(c), pid);
    case Shift(from, i, to) => MoveKeeps(own, from, i, to);
    case Death(c) => DropKeeps(own, Running(c), 0); MemberAt(own, Running(c), 0);
  }

  lemma MovedQueues(own: map<Place, seq<Tid>>, f: Effect, pid: Tid, c: Core)
    requires Fits(own, f)
    ensures Queued(Moved(own, f, pid), c) == Queued(own, c) + if f.Shift? then On(f.to, c) - On(f.from, c) else 0
  {
    if f.Shift? { QueuedAfter(own, f.from, f.index, f.to, c); }
  }

  lemma TasksKeys(s: State, e: Event)
    requires Enabled(s, e)
    ensures TasksAfter(s, e).Keys == s.tasks.Keys + if EffectOf(s, e).Birth? then {s.nextPid} else {}
  {
  }

  lemma KeysBelow(tasks: map<Tid, Task>, more: map<Tid, Task>, pid: Tid, born: bool)
    requires 0 < pid && more.Keys == tasks.Keys + (if born then {pid} else {}) && forall t :: t in tasks ==> 0 < t < pid
    ensures forall t :: t in more ==> 0 < t < pid + if born then 1 else 0
  {
    forall t | t in more ensures 0 < t < pid + if born then 1 else 0 { assert t in more.Keys; }
  }

  lemma MembersKnown(s: State, f: Effect, tasks: map<Tid, Task>)
    requires Held(s) && Fits(s.own, f) && tasks.Keys == s.tasks.Keys + if f.Birth? then {s.nextPid} else {}
    ensures Separate(Moved(s.own, f, s.nextPid)) && forall t :: t in Members(Moved(s.own, f, s.nextPid)) ==> t in tasks
    ensures |Members(Moved(s.own, f, s.nextPid))|
      == s.liveProcs + (if f.Birth? then 1 else 0) - (if f.Death? then 1 else 0)
  {
    assert s.nextPid !in Members(s.own);
    MovedMembers(s.own, f, s.nextPid);
    forall t | t in Members(Moved(s.own, f, s.nextPid)) ensures t in tasks.Keys {
      assert t in Members(s.own) ==> t in s.tasks.Keys;
    }
  }

  lemma HeldMoved(s: State, f: Effect, r: State)
    requires Held(s) && Fits(s.own, f) && Shaped(r) && r.own == Moved(s.own, f, s.nextPid)
    requires r.tasks.Keys == s.tasks.Keys + if f.Birth? then {s.nextPid} else {}
    requires r.nextPid == s.nextPid + if f.Birth? then 1 else 0
    requires r.liveProcs == s.liveProcs + (if f.Birth? then 1 else 0) - (if f.Death? then 1 else 0)
    ensures Held(r)
  {
    MembersKnown(s, f, r.tasks);
    KeysBelow(s.tasks, r.tasks, s.nextPid, f.Birth?);
  }

  lemma HeldKept(s: State, e: Event)
    requires Held(s) && Enabled(s, e)
    ensures Held(After(s, e))
  {
    EffectFits(s, e);
    TasksKeys(s, e);
    HeldMoved(s, EffectOf(s, e), After(s, e));
  }

  lemma CountedKept(s: State, e: Event)
    requires Counted(s) && Enabled(s, e)
    ensures Counted(After(s, e))
  {
    EffectFits(s, e);
    forall c: Core ensures After(s, e).length[c] == Queued(After(s, e).own, c) {
      MovedQueues(s.own, EffectOf(s, e), s.nextPid, c);
    }
  }

  // ---------------------------------------------------------------- what a core holds in each phase

  /** Phases in which a core has a current task. */
  predicate Busy(ph: Phase) {
    ph == User || ph == Leaving || ph.Looked? || ph.Posting? || (ph.Making? && ph.next == ThenReturn)
  }

  ghost predicate PhasedAt(s: State, c: Core)
    requires Shaped(s)
  {
    && |At(s.own, Running(c))| == (if Busy(s.phase[c]) then 1 else 0)
    && |At(s.own, Hand(c))| == if s.phase[c].Making? then 1 else 0
  }

  ghost predicate Phased(s: State) {
    Shaped(s) && forall c: Core :: PhasedAt(s, c)
  }

  /** How many tasks an effect adds at a place. */
  function Change(f: Effect, pl: Place): int {
    match f
    case Still => 0
    case Birth(c) => if pl == Hand(c) then 1 else 0
    case Shift(from, i, to) => (if pl == to then 1 else 0) - (if pl == from then 1 else 0)
    case Death(c) => if pl == Running(c) then -1 else 0
  }

  lemma MovedLength(own: map<Place, seq<Tid>>, f: Effect, pid: Tid, pl: Place)
    requires Fits(own, f)
    ensures |At(Moved(own, f, pid), pl)| == |At(own, pl)| + Change(f, pl)
  {
  }

  /** An event touches the running and the hand place of its own core only. */
  lemma OwnPlaces(s: State, e: Event, c: Core)
    requires Enabled(s, e) && c != e.core
    ensures Change(EffectOf(s, e), Running(c)) == 0 && Change(EffectOf(s, e), Hand(c)) == 0
  {
  }

  lemma LeavesCore(s: State, e: Event)
    requires Enabled(s, e) && Busy(s.phase[e.core])
    ensures Change(EffectOf(s, e), Running(e.core)) == (if Busy(PhaseAfter(s, e)) then 0 else -1)
  {
  }

  lemma TakesCore(s: State, e: Event)
    requires Enabled(s, e) && !Busy(s.phase[e.core])
    ensures Change(EffectOf(s, e), Running(e.core)) == (if Busy(PhaseAfter(s, e)) then 1 else 0)
  {
  }

  lemma CoreStep(s: State, e: Event)
    requires Shaped(s) && PhasedAt(s, e.core) && Enabled(s, e)
    ensures |At(s.own, Running(e.core))| + Change(EffectOf(s, e), Running(e.core))
      == (if Busy(PhaseAfter(s, e)) then 1 else 0)
  {
    if Busy(s.phase[e.core]) { LeavesCore(s, e); } else { TakesCore(s, e); }
  }

  lemma HandStep(s: State, e: Event)
    requires Shaped(s) && PhasedAt(s, e.core) && Enabled(s, e)
    ensures |At(s.own, Hand(e.core))| + Change(EffectOf(s, e), Hand(e.core))
      == (if PhaseAfter(s, e).Making? then 1 else 0)
  {
  }

  lemma PhasedMoved(s: State, f: Effect, me: Core, ph: Phase, r: State)
    requires Phased(s) && Fits(s.own, f) && Shaped(r)
    requires r.own == Moved(s.own, f, s.nextPid) && r.phase == s.phase[me := ph]
    requires forall c: Core :: c != me ==> Change(f, Running(c)) == 0 && Change(f, Hand(c)) == 0
    requires |At(s.own, Running(me))| + Change(f, Running(me)) == (if Busy(ph) then 1 else 0)
    requires |At(s.own, Hand(me))| + Change(f, Hand(me)) == (if ph.Making? then 1 else 0)
    ensures Phased(r)
  {
    forall c: Core ensures PhasedAt(r, c) {
      assert PhasedAt(s, c);
      MovedLength(s.own, f, s.nextPid, Running(c));
      MovedLength(s.own, f, s.nextPid, Hand(c));
    }
  }

  lemma PhasedKept(s: State, e: Event)
    requires Phased(s) && Enabled(s, e)
    ensures Phased(After(s, e))
  {
    EffectFits(s, e);
    assert PhasedAt(s, e.core);
    CoreStep(s, e);
    HandStep(s, e);
    var f := EffectOf(s, e);
    forall c: Core | c != e.core ensures Change(f, Running(c)) == 0 && Change(f, Hand(c)) == 0 { OwnPlaces(s, e, c); }
    PhasedMoved(s, f, e.core, PhaseAfter(s, e), After(s, e));
  }

  // ---------------------------------------------------------------- priorities and affinity in the run queues

  /** A mask that names a core is obeyed; one that names none leads to core 0. */
  predicate Obeys(mask: set<Core>, c: Core) {
    if mask == {} then c == 0 else c in mask
  }

  /** Every task in a run queue has that queue's priority and may run on that queue's core. */
  ghost predicate Sorted(s: State) {
    forall c: Core, p: Prio, t: Tid :: t in At(s.own, Ready(c, p)) ==>
      t in s.tasks && s.tasks[t].prio == p && Obeys(s.tasks[t].mask, c)
  }

  /** Where the tasks at a place come from. */
  lemma MovedFrom(own: map<Place, seq<Tid>>, f: Effect, pid: Tid, pl: Place, t: Tid)
    requires Fits(own, f) && t in At(Moved(own, f, pid), pl)
    ensures || t in At(own, pl)
            || (f.Shift? && pl == f.to && t == At(own, f.from)[f.index])
            || (f.Birth? && pl == Hand(f.core) && t == pid)
  {
  }

  /** The tasks an event does not move stay where they are; the one it moves arrives. */
  lemma MovedTo(own: map<Place, seq<Tid>>, f: Effect, pid: Tid, pl: Place, t: Tid)
    requires Fits(own, f)
    requires || (f.Shift? && pl == f.to && t == At(own, f.from)[f.index])
             || (&& t in At(own, pl) && (f.Shift? ==> t != At(own, f.from)[f.index])
                 && (f.Death? ==> t != At(own, Running(f.core))[0]))
    ensures t in At(Moved(own, f, pid), pl)
  {
    if f.Shift? && t in At(own, pl) && t != At(own, f.from)[f.index] {
      var j :| 0 <= j < |At(own, pl)| && At(own, pl)[j] == t;
      if pl == f.from {
        assert Without(At(own, pl), f.index)[if j < f.index then j else j - 1] == t;
      }
    }
    if f.Death? && pl == Running(f.core) {
      var j :| 0 <= j < |At(own, pl)| && At(own, pl)[j] == t;
      assert Without(At(own, pl), 0)[j - 1] == t;
    }
  }

  /** Priorities and kinds never change; a mask becomes what its task's own SCHED_SET_AFFINITY asks for, and does not
      change otherwise. */
  lemma FieldsKept(s: State, e: Event, t: Tid)
    requires Enabled(s, e) && t in s.tasks && t != s.nextPid
    ensures t in TasksAfter(s, e) && TasksAfter(s, e)[t].prio == s.tasks[t].prio
    ensures TasksAfter(s, e)[t].kind == s.tasks[t].kind
    ensures TasksAfter(s, e)[t].mask
      == if e.SetAffinity? && t == First(s, Running(e.core)) then e.mask else s.tasks[t].mask
  {
  }

  /** Whatever the unlocked reads return, a task made ready goes to a queue it may be in. */
  lemma ArrivesSorted(s: State, e: Event)
    requires Held(s) && Enabled(s, e) && EffectOf(s, e).Shift? && EffectOf(s, e).to.Ready?
    ensures var f := EffectOf(s, e);
      f.index < |At(s.own, f.from)| && var t := At(s.own, f.from)[f.index];
      t in TasksAfter(s, e) && TasksAfter(s, e)[t].prio == f.to.prio && Obeys(TasksAfter(s, e)[t].mask, f.to.core)
  {
    match e
    case Start(c, seen) => PickCpuObeys(c, FirstTask(s, Hand(c)).mask, seen);
    case Resched(c, seen) => PickCpuObeys(c, FirstTask(s, Running(c)).mask, seen);
    case SetAffinity(c, mask, seen) => PickCpuObeys(c, mask, seen);
    case Wake(c, seen) => PickCpuObeys(c, FirstTask(s, Waking(s.phase[c])).mask, seen);
    case Pull(c, b, i) =>
    case _ =>
  }

  /** The task may be in the queue. */
  predicate SortedAt(tasks: map<Tid, Task>, c: Core, p: Prio, t: Tid) {
    t in tasks && tasks[t].prio == p && Obeys(tasks[t].mask, c)
  }

  lemma SortedOne(s: State, f: Effect, tasks: map<Tid, Task>, c: Core, p: Prio, t: Tid)
    requires Sorted(s) && Fits(s.own, f) && t in At(Moved(s.own, f, s.nextPid), Ready(c, p))
    requires t in At(s.own, Ready(c, p)) ==>
      t in tasks && tasks[t].prio == s.tasks[t].prio && tasks[t].mask == s.tasks[t].mask
    requires f.Shift? && f.to == Ready(c, p) ==> SortedAt(tasks, c, p, At(s.own, f.from)[f.index])
    ensures SortedAt(tasks, c, p, t)
  {
    MovedFrom(s.own, f, s.nextPid, Ready(c, p), t);
  }

  /** A task on a core is in no queue. */
  lemma RunningElsewhere(s: State, c: Core, pl: Place, t: Tid)
    requires Held(s) && Has(s, Running(c)) && pl != Running(c) && t in At(s.own, pl)
    ensures t != First(s, Running(c))
  {
    var j :| 0 <= j < |At(s.own, pl)| && At(s.own, pl)[j] == t;
    if t == First(s, Running(c)) {
      UniquePlace(s.own, pl, j, Running(c), 0);
      assert false;
    }
  }

  /** What a queued task's queue depends on is kept. */
  lemma QueuedKept(s: State, e: Event, c: Core, p: Prio, t: Tid)
    requires Held(s) && Sorted(s) && Enabled(s, e) && t in At(s.own, Ready(c, p))
    ensures t in TasksAfter(s, e) && TasksAfter(s, e)[t].prio == s.tasks[t].prio
    ensures TasksAfter(s, e)[t].mask == s.tasks[t].mask
  {
    FieldsKept(s, e, t);
    if e.SetAffinity? { RunningElsewhere(s, e.core, Ready(c, p), t); }
  }

  lemma SortedKept(s: State, e: Event)
    requires Held(s) && Sorted(s) && Enabled(s, e)
    ensures Sorted(After(s, e))
  {
    EffectFits(s, e);
    var f, tasks := EffectOf(s, e), TasksAfter(s, e);
    if f.Shift? && f.to.Ready? { ArrivesSorted(s, e); }
    forall c: Core, p: Prio, t: Tid | t in At(Moved(s.own, f, s.nextPid), Ready(c, p))
      ensures SortedAt(tasks, c, p, t)
    {
      if t in At(s.own, Ready(c, p)) { QueuedKept(s, e, c, p, t); }
      SortedOne(s, f, tasks, c, p, t);
    }
  }
}
