/** Every started core always has a task to run: its own idle task. */
module KernelIdle {
  import opened Rings
  import opened Placement
  import opened Kernel
  import opened KernelInvariants

  /** Idle tasks are the tasks of idle priority; each is tied by its mask to the core that made it. */
  ghost predicate Kinds(s: State) {
    forall t :: t in s.tasks ==> KindOk(s.tasks[t], s.idle, t)
  }

  predicate KindOk(task: Task, idle: map<Core, Tid>, t: Tid) {
    match task.kind
    case IdleOf(c) => task.prio == PRIORITY_IDLE && task.mask == {c} && c in idle && idle[c] == t
    case Thread => task.prio == PRIORITY_MED
  }

  /** The idle task of a started core is on that core or in its idle list (or still in its hand, at boot). */
  ghost predicate Home(s: State, c: Core)
    requires Shaped(s)
  {
    && (s.phase[c] == Off <==> c !in s.idle)
    && (s.phase[c].Looked? ==> Has(s, Running(c)) && FirstTask(s, Running(c)).kind == Thread)
    && (c in s.idle ==>
      && s.idle[c] in s.tasks && s.tasks[s.idle[c]].kind == IdleOf(c)
      && if s.phase[c].Making? && s.phase[c].next == ThenRoot then s.idle[c] in At(s.own, Hand(c))
         else s.idle[c] in At(s.own, Running(c)) || s.idle[c] in At(s.own, Ready(c, PRIORITY_IDLE)))
  }

  ghost predicate Homes(s: State) {
    Shaped(s) && Kinds(s) && forall c: Core :: Home(s, c)
  }

  lemma KindKept(s: State, e: Event, t: Tid)
    requires Held(s) && Homes(s) && Enabled(s, e) && t in s.tasks
    ensures t in TasksAfter(s, e) && KindOk(TasksAfter(s, e)[t], After(s, e).idle, t)
  {
    assert KindOk(s.tasks[t], s.idle, t);
    assert e.Boot? ==> Home(s, e.core);
    FieldsKept(s, e, t);
  }

  lemma NewKind(s: State, e: Event)
    requires Held(s) && Enabled(s, e) && EffectOf(s, e).Birth?
    ensures s.nextPid in TasksAfter(s, e) && KindOk(TasksAfter(s, e)[s.nextPid], After(s, e).idle, s.nextPid)
  {
  }

  lemma KindsKept(s: State, e: Event)
    requires Held(s) && Homes(s) && Enabled(s, e)
    ensures Kinds(After(s, e))
  {
    TasksKeys(s, e);
    forall t | t in TasksAfter(s, e) ensures KindOk(TasksAfter(s, e)[t], After(s, e).idle, t) {
      assert t in TasksAfter(s, e).Keys;
      if t in s.tasks { KindKept(s, e, t); } else { NewKind(s, e); }
    }
  }

  /** Where the idle task of a started core is. */
  function HomePlace(s: State, c: Core): Place
    requires Shaped(s) && c in s.idle
  {
    if s.phase[c].Making? && s.phase[c].next == ThenRoot then Hand(c)
    else if s.idle[c] in At(s.own, Running(c)) then Running(c)
    else Ready(c, PRIORITY_IDLE)
  }

  /** An idle task moves only between its own core and that core's idle list. */
  lemma IdleMoves(s: State, e: Event, c: Core)
    requires Held(s) && Homes(s) && Enabled(s, e) && c in s.idle
    requires var f := EffectOf(s, e); f.Shift? && Fits(s.own, f) && s.idle[c] == At(s.own, f.from)[f.index]
    ensures var f := EffectOf(s, e);
      && e.core == c && f.from == HomePlace(s, c)
      && f.to == (if f.from == Ready(c, PRIORITY_IDLE) then Running(c) else Ready(c, PRIORITY_IDLE))
      && (f.from == Hand(c) ==> e.Start?)
  {
    assert Home(s, c);
    var f, t, pl := EffectOf(s, e), s.idle[c], HomePlace(s, c);
    var j :| 0 <= j < |At(s.own, pl)| && At(s.own, pl)[j] == t;
    UniquePlace(s.own, pl, j, f.from, f.index);
    if e.Start? || e.Resched? { PickCpuObeys(c, {c}, e.seen); }
  }

  lemma IdleStays(s: State, e: Event, c: Core)
    requires Held(s) && Homes(s) && Enabled(s, e) && c in s.idle && EffectOf(s, e).Death?
    ensures Has(s, Running(e.core)) && s.idle[c] != First(s, Running(e.core))
  {
    assert Home(s, c);
  }

  /** No event takes a task from another core's hands, or puts one there. */
  lemma NotTouched(s: State, e: Event, c: Core)
    requires Enabled(s, e) && c != e.core
    ensures var f := EffectOf(s, e); match f
      case Still => true
      case Birth(d) => d == e.core
      case Death(d) => d == e.core
      case Shift(from, i, to) => from != Running(c) && from != Hand(c) && to != Running(c) && to != Hand(c)
  {
  }

  lemma OthersSame(s: State, e: Event, c: Core)
    requires Enabled(s, e) && Fits(s.own, EffectOf(s, e)) && c != e.core
    ensures At(Moved(s.own, EffectOf(s, e), s.nextPid), Running(c)) == At(s.own, Running(c))
    ensures At(Moved(s.own, EffectOf(s, e), s.nextPid), Hand(c)) == At(s.own, Hand(c))
  {
    NotTouched(s, e, c);
    PlacesSame(s.own, EffectOf(s, e), s.nextPid, e.core, c);
  }

  lemma PlacesSame(own: map<Place, seq<Tid>>, f: Effect, pid: Tid, me: Core, c: Core)
    requires Fits(own, f) && c != me && match f
      case Still => true
      case Birth(d) => d == me
      case Death(d) => d == me
      case Shift(from, i, to) => from != Running(c) && from != Hand(c) && to != Running(c) && to != Hand(c)
    ensures At(Moved(own, f, pid), Running(c)) == At(own, Running(c))
    ensures At(Moved(own, f, pid), Hand(c)) == At(own, Hand(c))
  {
  }

  predicate AtBoot(ph: Phase) {
    ph.Making? && ph.next == ThenRoot
  }

  lemma PhaseFacts(s: State, e: Event)
    requires Enabled(s, e)
    ensures PhaseAfter(s, e) != Off
    ensures AtBoot(PhaseAfter(s, e)) <==> e.Boot? || (e.Register? && AtBoot(s.phase[e.core]))
    ensures AtBoot(s.phase[e.core]) ==> e.Register? || e.Start?
    ensures e.Boot? <==> s.phase[e.core] == Off
    ensures PhaseAfter(s, e).Looked? ==> e.JoinLookup? && EffectOf(s, e) == Still && Calls(s, e.core)
    ensures e.Register? ==> EffectOf(s, e) == Still
    ensures e.Boot? ==> EffectOf(s, e) == Birth(e.core)
  {
  }

  /** The idle task is there after an event. */
  ghost predicate There(own: map<Place, seq<Tid>>, ph: Phase, t: Tid, c: Core) {
    if AtBoot(ph) then t in At(own, Hand(c)) else t in At(own, Running(c)) || t in At(own, Ready(c, PRIORITY_IDLE))
  }

  lemma IdleThereMoved(s: State, e: Event, c: Core)
    requires Held(s) && Homes(s) && Enabled(s, e) && Fits(s.own, EffectOf(s, e)) && c in s.idle
    requires EffectOf(s, e).Shift? && s.idle[c] == At(s.own, EffectOf(s, e).from)[EffectOf(s, e).index]
    ensures There(Moved(s.own, EffectOf(s, e), s.nextPid), After(s, e).phase[c], s.idle[c], c)
  {
    assert Home(s, c);
    PhaseFacts(s, e);
    IdleMoves(s, e, c);
    MovedTo(s.own, EffectOf(s, e), s.nextPid, EffectOf(s, e).to, s.idle[c]);
  }

  lemma IdleThereStayed(s: State, e: Event, c: Core)
    requires Held(s) && Homes(s) && Enabled(s, e) && Fits(s.own, EffectOf(s, e)) && c in s.idle
    requires EffectOf(s, e).Shift? ==> s.idle[c] != At(s.own, EffectOf(s, e).from)[EffectOf(s, e).index]
    ensures s.idle[c] in At(Moved(s.own, EffectOf(s, e), s.nextPid), HomePlace(s, c))
  {
    assert Home(s, c);
    if EffectOf(s, e).Death? { IdleStays(s, e, c); }
    MovedTo(s.own, EffectOf(s, e), s.nextPid, HomePlace(s, c), s.idle[c]);
  }

  /** A started core leaves its boot phase only by making the idle task ready. */
  lemma BootLasts(s: State, e: Event, c: Core)
    requires Held(s) && Phased(s) && Homes(s) && Enabled(s, e) && c in s.idle
    ensures AtBoot(s.phase[c]) <==> AtBoot(After(s, e).phase[c]) || (c == e.core && AtBoot(s.phase[c]) && e.Start?)
    ensures c == e.core && AtBoot(s.phase[c]) && e.Start? ==>
      EffectOf(s, e).Shift? && EffectOf(s, e).from == Hand(c) && EffectOf(s, e).index == 0
  {
    assert Home(s, c);
    PhaseFacts(s, e);
  }

  lemma IdleThere(s: State, e: Event, c: Core)
    requires Held(s) && Phased(s) && Homes(s) && Enabled(s, e) && Fits(s.own, EffectOf(s, e)) && c in s.idle
    ensures There(Moved(s.own, EffectOf(s, e), s.nextPid), After(s, e).phase[c], s.idle[c], c)
  {
    assert Home(s, c) && PhasedAt(s, c);
    if EffectOf(s, e).Shift? && s.idle[c] == At(s.own, EffectOf(s, e).from)[EffectOf(s, e).index] {
      IdleThereMoved(s, e, c);
    } else {
      BootLasts(s, e, c);
      IdleThereStayed(s, e, c);
    }
  }

  /** The parts of the next state that idle tasks depend on. */
  ghost predicate IdleParts(s: State, e: Event, r: State)
    requires Enabled(s, e) && Fits(s.own, EffectOf(s, e))
  {
    && |r.length| == NUM_CORES && r.own == Moved(s.own, EffectOf(s, e), s.nextPid) && r.tasks == TasksAfter(s, e)
    && r.phase == s.phase[e.core := PhaseAfter(s, e)]
    && r.idle == if e.Boot? then s.idle[e.core := s.nextPid] else s.idle
  }

  lemma IdlePartsAfter(s: State, e: Event)
    requires Enabled(s, e)
    ensures Fits(s.own, EffectOf(s, e)) && IdleParts(s, e, After(s, e)) == true
  {
    EffectFits(s, e);
  }

  lemma LookedKept(s: State, e: Event, c: Core, r: State)
    requires Held(s) && Homes(s) && Enabled(s, e) && Fits(s.own, EffectOf(s, e)) && IdleParts(s, e, r)
    requires r.phase[c].Looked?
    ensures Has(r, Running(c)) && FirstTask(r, Running(c)).kind == Thread
  {
    assert Home(s, c);
    PhaseFacts(s, e);
    if c != e.core { OthersSame(s, e, c); }
    FieldsKept(s, e, First(s, Running(c)));
  }

  /** The idle task of a started core is known, as what it is. */
  lemma IdleKnown(s: State, e: Event, c: Core, r: State)
    requires Held(s) && Homes(s) && Enabled(s, e) && Fits(s.own, EffectOf(s, e)) && IdleParts(s, e, r) && c in r.idle
    ensures r.idle[c] in r.tasks && r.tasks[r.idle[c]].kind == IdleOf(c)
  {
    assert Home(s, c) && Home(s, e.core);
    if c in s.idle { FieldsKept(s, e, s.idle[c]); }
  }

  lemma NewIdleThere(s: State, e: Event, r: State)
    requires Held(s) && e.Boot? && Enabled(s, e) && Fits(s.own, EffectOf(s, e)) && IdleParts(s, e, r)
    ensures There(r.own, r.phase[e.core], s.nextPid, e.core)
  {
  }

  lemma StartedIff(s: State, e: Event, c: Core, r: State)
    requires Homes(s) && Enabled(s, e) && Fits(s.own, EffectOf(s, e)) && IdleParts(s, e, r)
    ensures r.phase[c] == Off <==> c !in r.idle
  {
    assert Home(s, c);
    PhaseFacts(s, e);
  }

  lemma HomeFrom(r: State, c: Core)
    requires Shaped(r) && (r.phase[c] == Off <==> c !in r.idle)
    requires r.phase[c].Looked? ==> Has(r, Running(c)) && FirstTask(r, Running(c)).kind == Thread
    requires c in r.idle ==>
      r.idle[c] in r.tasks && r.tasks[r.idle[c]].kind == IdleOf(c) && There(r.own, r.phase[c], r.idle[c], c)
    ensures Home(r, c) == true
  {
  }

  lemma HomeKept(s: State, e: Event, c: Core, r: State)
    requires Held(s) && Phased(s) && Homes(s) && Enabled(s, e) && r == After(s, e)
    ensures Home(r, c) == true
  {
    IdlePartsAfter(s, e);
    StartedIff(s, e, c, r);
    if c in s.idle {
      IdleThere(s, e, c);
    } else if c in r.idle {
      NewIdleThere(s, e, r);
    }
    if c in r.idle { IdleKnown(s, e, c, r); }
    if r.phase[c].Looked? { LookedKept(s, e, c, r); }
    HomeFrom(r, c);
  }

  lemma HomesKept(s: State, e: Event)
    requires Held(s) && Phased(s) && Homes(s) && Enabled(s, e)
    ensures Homes(After(s, e))
  {
    KindsKept(s, e);
    forall c: Core ensures Home(After(s, e), c) == true { HomeKept(s, e, c, After(s, e)); }
  }
}
