/** Joining and exiting over every interleaving. proc_join finds its target and goes to sleep in two separate
    sections, and proc_exit wakes the joiners, then unlinks the task; here is exactly what that guarantees. */
module KernelJoins {
  import opened Rings
  import opened Placement
  import opened Kernel
  import opened KernelInvariants

  /** The core is running proc_exit for `ph.task`. */
  predicate Dead(ph: Phase) {
    ph.Dying? || ph.Burying? || ph.Unlinking?
  }

  ghost predicate Exiting(s: State, t: Tid)
    requires Shaped(s)
  {
    exists c: Core :: Dead(s.phase[c]) && s.phase[c].task == t
  }

  /** An exiting task is held nowhere, still registered, and exits on one core only. */
  ghost predicate DeadOk(s: State, c: Core)
    requires Shaped(s)
  {
    Dead(s.phase[c]) ==>
      var t := s.phase[c].task;
      && t in s.tasks && t !in Members(s.own) && t in s.registered
      && forall d: Core :: d != c ==> !(Dead(s.phase[d]) && s.phase[d].task == t)
  }

  /** Every task held anywhere is registered, except one still being made. */
  ghost predicate Registered(s: State, pl: Place)
    requires Shaped(s)
  {
    (pl.Hand? && s.phase[pl.core].Making? && !s.phase[pl.core].registered)
    || forall t :: t in At(s.own, pl) ==> t in s.registered
  }

  ghost predicate Joins(s: State) {
    && Shaped(s)
    && (forall c: Core :: DeadOk(s, c))
    && (forall pl: Place :: Registered(s, pl))
    && (forall t :: t in s.registered ==> t in s.tasks && (t in Members(s.own) || Exiting(s, t)))
    && (forall c: Core :: s.phase[c].Looked? ==> s.phase[c].target in s.tasks)
    && (forall t: Tid :: At(s.own, Wait(JoinQ(t))) != [] ==> t in s.tasks)
  }

  /** Who is held after an event. */
  lemma HeldAfter(s: State, e: Event)
    requires Held(s) && Enabled(s, e)
    ensures Fits(s.own, EffectOf(s, e))
    ensures Members(After(s, e).own) == match EffectOf(s, e)
      case Birth(c) => Members(s.own) + {s.nextPid}
      case Death(c) => Members(s.own) - {At(s.own, Running(c))[0]}
      case _ => Members(s.own)
    ensures EffectOf(s, e).Death? ==> At(s.own, Running(e.core))[0] in Members(s.own)
  {
    EffectFits(s, e);
    assert s.nextPid !in Members(s.own);
    MovedMembers(s.own, EffectOf(s, e), s.nextPid);
  }

  lemma DeadPhase(s: State, e: Event)
    requires Enabled(s, e)
    ensures Dead(PhaseAfter(s, e)) <==> e.Exit? || (Dead(s.phase[e.core]) && !e.Unlink?)
    ensures Dead(PhaseAfter(s, e)) ==>
      PhaseAfter(s, e).task == if e.Exit? then First(s, Running(e.core)) else s.phase[e.core].task
    ensures e.Unlink? ==> Dead(s.phase[e.core])
  {
  }

  lemma DeathEffect(s: State, e: Event)
    requires Enabled(s, e)
    ensures e.Exit? <==> EffectOf(s, e).Death?
    ensures EffectOf(s, e).Death? ==> EffectOf(s, e).core == e.core
  {
  }

  /** How a core enters and leaves the phases of proc_exit. */
  lemma DeadFrom(s: State, e: Event)
    requires Enabled(s, e)
    ensures Dead(PhaseAfter(s, e)) <==> e.Exit? || (Dead(s.phase[e.core]) && !e.Unlink?)
    ensures Dead(PhaseAfter(s, e)) ==>
      PhaseAfter(s, e).task == if e.Exit? then First(s, Running(e.core)) else s.phase[e.core].task
    ensures e.Exit? <==> EffectOf(s, e).Death?
    ensures EffectOf(s, e).Death? ==> EffectOf(s, e).core == e.core
    ensures e.Unlink? ==> Dead(s.phase[e.core])
    ensures RegisteredAfter(s, e) == if e.Register? then s.registered + {First(s, Hand(e.core))}
      else if e.Unlink? then s.registered - {s.phase[e.core].task} else s.registered
  {
    DeadPhase(s, e);
    DeathEffect(s, e);
  }

  lemma DeadOkMoved(s: State, r: State, me: Core)
    requires Shaped(s) && Shaped(r) && (forall c: Core :: DeadOk(s, c)) && r.phase == s.phase[me := r.phase[me]]
    requires s.tasks.Keys <= r.tasks.Keys
    requires forall t :: t in s.tasks && t !in Members(s.own) ==> t !in Members(r.own)
    requires Dead(r.phase[me]) ==> r.phase[me].task !in Members(r.own)
    requires Dead(r.phase[me]) ==> if Dead(s.phase[me]) then r.phase[me].task == s.phase[me].task
      else r.phase[me].task in s.tasks && r.phase[me].task in s.registered && r.phase[me].task in Members(s.own)
    requires forall t ::
      t in s.registered && t !in r.registered ==> Dead(s.phase[me]) && !Dead(r.phase[me]) && t == s.phase[me].task
    ensures forall c: Core :: DeadOk(r, c) == true
  {
    forall c: Core ensures DeadOk(r, c) == true {
      assert DeadOk(s, c) && DeadOk(s, me);
      assert forall d: Core :: Dead(s.phase[d]) ==> DeadOk(s, d);
    }
  }

  /** The task that exits has been on its core until now, and in the table. */
  lemma ExitKnown(s: State, e: Event)
    requires Held(s) && Joins(s) && Enabled(s, e) && e.Exit?
    ensures var t := First(s, Running(e.core)); t in s.tasks && t in s.registered && t in Members(s.own)
  {
    assert Registered(s, Running(e.core)) && First(s, Running(e.core)) in At(s.own, Running(e.core));
    MemberAt(s.own, Running(e.core), 0);
  }

  /** The tasks that no core holds stay so. */
  lemma UnheldStay(s: State, e: Event, r: State)
    requires Held(s) && Enabled(s, e) && r == After(s, e)
    ensures s.tasks.Keys <= r.tasks.Keys && forall t :: t in s.tasks && t !in Members(s.own) ==> t !in Members(r.own)
    ensures e.Exit? ==> First(s, Running(e.core)) !in Members(r.own)
  {
    HeldAfter(s, e);
    DeathEffect(s, e);
    TasksKeys(s, e);
  }

  lemma DeadOkKept(s: State, e: Event, r: State)
    requires Held(s) && Joins(s) && Enabled(s, e) && r == After(s, e)
    ensures Shaped(r) && forall c: Core :: DeadOk(r, c) == true
  {
    JoinPartsAfter(s, e);
    UnheldStay(s, e, r);
    DeadFrom(s, e);
    assert DeadOk(s, e.core);
    if e.Exit? { ExitKnown(s, e); }
    DeadOkMoved(s, r, e.core);
  }

  lemma ShiftedFrom(s: State, e: Event)
    requires Enabled(s, e)
    ensures EffectOf(s, e).Shift? && EffectOf(s, e).from.Hand? ==>
      EffectOf(s, e).from.core == e.core && s.phase[e.core].Making? && s.phase[e.core].registered
    ensures EffectOf(s, e).Shift? ==> !EffectOf(s, e).to.Hand?
    ensures EffectOf(s, e).Birth? ==>
      EffectOf(s, e).core == e.core && PhaseAfter(s, e).Making? && !PhaseAfter(s, e).registered
    ensures s.phase[e.core].Making? && !s.phase[e.core].registered ==> e.Register?
    ensures e.Register? ==> EffectOf(s, e) == Still
  {
  }

  /** The parts of the next state that joining depends on. */
  ghost predicate JoinParts(s: State, e: Event, r: State)
    requires Enabled(s, e) && Fits(s.own, EffectOf(s, e))
  {
    && |r.length| == NUM_CORES && r.own == Moved(s.own, EffectOf(s, e), s.nextPid) && r.tasks == TasksAfter(s, e)
    && r.phase == s.phase[e.core := PhaseAfter(s, e)] && r.registered == RegisteredAfter(s, e)
  }

  lemma JoinPartsAfter(s: State, e: Event)
    requires Enabled(s, e)
    ensures Fits(s.own, EffectOf(s, e)) && JoinParts(s, e, After(s, e)) == true
  {
    EffectFits(s, e);
  }

  /** A task that is held somewhere does not leave the table. */
  lemma StaysRegistered(s: State, e: Event, pl: Place, t: Tid)
    requires Held(s) && Joins(s) && Enabled(s, e) && t in At(s.own, pl) && t in s.registered
    ensures t in RegisteredAfter(s, e)
  {
    DeadFrom(s, e);
    assert DeadOk(s, e.core);
    var i :| 0 <= i < |At(s.own, pl)| && At(s.own, pl)[i] == t;
    MemberAt(s.own, pl, i);
  }

  lemma RegisteredPlace(s: State, e: Event, pl: Place, t: Tid, r: State)
    requires Held(s) && Phased(s) && Joins(s) && Enabled(s, e) && Fits(s.own, EffectOf(s, e)) && JoinParts(s, e, r)
    requires t in At(r.own, pl)
    ensures (pl.Hand? && r.phase[pl.core].Making? && !r.phase[pl.core].registered) || t in r.registered
  {
    var f := EffectOf(s, e);
    ShiftedFrom(s, e);
    MovedFrom(s.own, f, s.nextPid, pl, t);
    assert Registered(s, pl) && PhasedAt(s, e.core);
    if f.Shift? && pl == f.to && t == At(s.own, f.from)[f.index] {
      assert Registered(s, f.from) && At(s.own, f.from)[f.index] in At(s.own, f.from);
      StaysRegistered(s, e, f.from, t);
    } else if t in At(s.own, pl) && t in s.registered {
      StaysRegistered(s, e, pl, t);
    }
  }

  lemma ExitingAfter(s: State, e: Event, t: Tid, r: State)
    requires Joins(s) && Enabled(s, e) && Shaped(r) && r.phase == s.phase[e.core := PhaseAfter(s, e)]
    requires e.Exit? ==> t == First(s, Running(e.core)) || Exiting(s, t)
    requires !e.Exit? ==> Exiting(s, t) && !(e.Unlink? && t == s.phase[e.core].task)
    ensures Exiting(r, t)
  {
    DeadPhase(s, e);
    if e.Exit? && t == First(s, Running(e.core)) {
      assert Dead(r.phase[e.core]) && r.phase[e.core].task == t;
    } else {
      var c: Core :| Dead(s.phase[c]) && s.phase[c].task == t;
      assert Dead(r.phase[c]) && r.phase[c].task == t;
    }
  }

  lemma RegisteredLive(s: State, e: Event, t: Tid, r: State)
    requires Held(s) && Joins(s) && Enabled(s, e) && r == After(s, e) && t in r.registered
    ensures t in s.tasks && (t in Members(r.own) || Exiting(r, t))
  {
    JoinPartsAfter(s, e);
    HeldAfter(s, e);
    DeadFrom(s, e);
    if e.Register? { MemberAt(s.own, Hand(e.core), 0); }
    if t in s.registered && t !in Members(r.own) { ExitingAfter(s, e, t, r); }
  }

  /** Joiners arrive only through the sleep of proc_join and leave only through the wakes of proc_exit. */
  lemma JoinersChange(s: State, e: Event, t: Tid)
    requires Enabled(s, e)
    ensures Change(EffectOf(s, e), Wait(JoinQ(t))) ==
      (if e.JoinSleep? && s.phase[e.core].target == t then 1 else 0)
      - (if e.Wake? && s.phase[e.core].Burying? && s.phase[e.core].task == t then 1 else 0)
  {
  }

  lemma TargetFrom(s: State, e: Event)
    requires Enabled(s, e)
    ensures PhaseAfter(s, e).Looked? ==> PhaseAfter(s, e).target in s.registered
  {
  }

  lemma JoinsFrom(r: State)
    requires Shaped(r) && (forall c: Core :: DeadOk(r, c) == true) && forall pl: Place :: Registered(r, pl) == true
    requires forall t :: t in r.registered ==> t in r.tasks && (t in Members(r.own) || Exiting(r, t))
    requires forall c: Core :: r.phase[c].Looked? ==> r.phase[c].target in r.tasks
    requires forall t: Tid :: At(r.own, Wait(JoinQ(t))) != [] ==> t in r.tasks
    ensures Joins(r) == true
  {
  }

  lemma PlaceRegistered(s: State, e: Event, pl: Place, r: State)
    requires Held(s) && Phased(s) && Joins(s) && Enabled(s, e) && Fits(s.own, EffectOf(s, e)) && JoinParts(s, e, r)
    ensures Registered(r, pl) == true
  {
    forall t | t in At(r.own, pl)
      ensures (pl.Hand? && r.phase[pl.core].Making? && !r.phase[pl.core].registered) || t in r.registered {
      RegisteredPlace(s, e, pl, t, r);
    }
  }

  lemma TargetKnown(s: State, e: Event, c: Core, r: State)
    requires Held(s) && Joins(s) && Enabled(s, e) && Fits(s.own, EffectOf(s, e)) && JoinParts(s, e, r)
    requires r.phase[c].Looked?
    ensures r.phase[c].target in r.tasks
  {
    TasksKeys(s, e);
    TargetFrom(s, e);
    assert r.phase[c].target in s.tasks.Keys;
  }

  lemma JoinedKnown(s: State, e: Event, t: Tid, r: State)
    requires Held(s) && Joins(s) && Enabled(s, e) && Fits(s.own, EffectOf(s, e)) && JoinParts(s, e, r)
    requires At(r.own, Wait(JoinQ(t))) != []
    ensures t in r.tasks
  {
    TasksKeys(s, e);
    JoinersChange(s, e, t);
    MovedLength(s.own, EffectOf(s, e), s.nextPid, Wait(JoinQ(t)));
    assert t in s.tasks.Keys;
  }

  lemma JoinsKept(s: State, e: Event)
    requires Held(s) && Phased(s) && Joins(s) && Enabled(s, e)
    ensures Joins(After(s, e))
  {
    var r := After(s, e);
    DeadOkKept(s, e, r);
    JoinPartsAfter(s, e);
    TasksKeys(s, e);
    forall pl: Place ensures Registered(r, pl) == true { PlaceRegistered(s, e, pl, r); }
    forall t | t in r.registered ensures t in r.tasks && (t in Members(r.own) || Exiting(r, t)) {
      RegisteredLive(s, e, t, r);
      assert t in s.tasks.Keys;
    }
    forall t: Tid | At(r.own, Wait(JoinQ(t))) != [] ensures t in r.tasks { JoinedKnown(s, e, t, r); }
    forall c: Core | r.phase[c].Looked? ensures r.phase[c].target in r.tasks { TargetKnown(s, e, c, r); }
    JoinsFrom(r);
  }

  // ---------------------------------------------------------------- joiners left behind

  function Joiners(s: State, t: Tid): seq<Tid> {
    At(s.own, Wait(JoinQ(t)))
  }

  /** proc_exit has yet to finish waking the joiners of the task. */
  predicate Mourns(ph: Phase, t: Tid) {
    (ph.Dying? || ph.Burying?) && ph.task == t
  }

  ghost predicate Mourned(phases: seq<Phase>, t: Tid) {
    exists c :: 0 <= c < |phases| && Mourns(phases[c], t)
  }

  /** The task will still wake its joiners: it lives, or is exiting and has not finished waking them. */
  ghost predicate WillWake(s: State, t: Tid)
    requires Shaped(s)
  {
    t in Members(s.own) || Mourned(s.phase, t)
  }

  /** No task waits for one that will never wake it. */
  ghost predicate NoOrphans(s: State) {
    Shaped(s) && forall t: Tid :: Joiners(s, t) != [] ==> WillWake(s, t)
  }

  /** The one thing proc_join would have to check, under the lock, before it sleeps. */
  ghost predicate JoinInTime(s: State, e: Event)
    requires Enabled(s, e)
  {
    e.JoinSleep? ==> WillWake(s, s.phase[e.core].target)
  }

  lemma MournsAfter(s: State, e: Event, t: Tid)
    requires Enabled(s, e)
    ensures Mourns(PhaseAfter(s, e), t) ==> Mourns(s.phase[e.core], t) || (e.Exit? && t == First(s, Running(e.core)))
    ensures Mourns(s.phase[e.core], t) ==> Mourns(PhaseAfter(s, e), t) || (e.WakeDone? && Joiners(s, t) == [])
    ensures e.Exit? ==> Mourns(PhaseAfter(s, e), First(s, Running(e.core)))
  {
  }

  lemma MournedStep(phases: seq<Phase>, me: Core, ph: Phase, t: Tid)
    requires |phases| == NUM_CORES
    ensures Mourned(phases[me := ph], t) ==> Mourned(phases, t) || Mourns(ph, t)
    ensures Mourned(phases, t) ==> Mourned(phases[me := ph], t) || (Mourns(phases[me], t) && !Mourns(ph, t))
    ensures Mourns(ph, t) ==> Mourned(phases[me := ph], t)
    ensures Mourns(phases[me], t) ==> Mourned(phases, t)
  {
    var r := phases[me := ph];
    if Mourned(r, t) {
      var c :| 0 <= c < |r| && Mourns(r[c], t);
      assert c != me ==> Mourns(phases[c], t);
    }
    if Mourned(phases, t) {
      var c :| 0 <= c < |phases| && Mourns(phases[c], t);
      assert c != me ==> Mourns(r[c], t);
    }
    if Mourns(ph, t) { assert Mourns(r[me], t); }
  }

  /** Being able to wake one's joiners ends only with the last wake, and never comes back. */
  lemma WillWakeAfter(s: State, e: Event, t: Tid)
    requires Held(s) && Enabled(s, e) && t in s.tasks
    ensures WillWake(After(s, e), t) ==> WillWake(s, t)
    ensures WillWake(s, t) ==> WillWake(After(s, e), t) || (e.WakeDone? && Joiners(s, t) == [])
  {
    HeldAfter(s, e);
    MournsAfter(s, e, t);
    MournedStep(s.phase, e.core, PhaseAfter(s, e), t);
    DeadFrom(s, e);
  }

  // ---------------------------------------------------------------- exactly when joining is safe

  lemma JoinersAfter(s: State, e: Event, t: Tid)
    requires Enabled(s, e)
    ensures |Joiners(After(s, e), t)| == |Joiners(s, t)|
      + (if e.JoinSleep? && s.phase[e.core].target == t then 1 else 0)
      - (if e.Wake? && s.phase[e.core].Burying? && s.phase[e.core].task == t then 1 else 0)
  {
    EffectFits(s, e);
    JoinersChange(s, e, t);
    MovedLength(s.own, EffectOf(s, e), s.nextPid, Wait(JoinQ(t)));
  }

  /** An event leaves every joiner with a target that will wake it exactly when it is not a proc_join going to
      sleep too late. */
  lemma OrphanStep(s: State, e: Event)
    requires Held(s) && Joins(s) && NoOrphans(s) && Enabled(s, e)
    ensures NoOrphans(After(s, e)) <==> JoinInTime(s, e)
  {
    var r := After(s, e);
    forall t: Tid | Joiners(r, t) != [] && JoinInTime(s, e) ensures WillWake(r, t) {
      JoinersAfter(s, e, t);
      assert t in s.tasks;
      WillWakeAfter(s, e, t);
    }
    if !JoinInTime(s, e) {
      var t := s.phase[e.core].target;
      JoinersAfter(s, e, t);
      WillWakeAfter(s, e, t);
      assert Joiners(r, t) != [];
    }
  }

  /** Once a task can no longer wake its joiners, they wait for ever: no event takes one of them away. */
  lemma LeftBehind(s: State, e: Event, t: Tid)
    requires Held(s) && Joins(s) && Enabled(s, e) && t in s.tasks && !WillWake(s, t)
    ensures t in TasksAfter(s, e) && !WillWake(After(s, e), t)
    ensures Joiners(s, t) <= Joiners(After(s, e), t)
  {
    EffectFits(s, e);
    TasksKeys(s, e);
    assert t in s.tasks.Keys;
    WillWakeAfter(s, e, t);
    JoinersTail(s, e, t);
  }

  lemma JoinersTail(s: State, e: Event, t: Tid)
    requires Enabled(s, e) && Fits(s.own, EffectOf(s, e)) && !Mourned(s.phase, t)
    ensures At(s.own, Wait(JoinQ(t))) <= At(Moved(s.own, EffectOf(s, e), s.nextPid), Wait(JoinQ(t)))
  {
    if e.Wake? { assert !Mourns(s.phase[e.core], t); }
  }
}
