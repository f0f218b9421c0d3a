/** Affinity at every instant: exactly when a core runs a task whose mask does not allow it. Dispatching never brings
    this about; SCHED_SET_AFFINITY, which reschedules only when the core is still allowed, does. */
module KernelAffinity {
  import opened Rings
  import opened Placement
  import opened Kernel
  import opened KernelInvariants
  import opened KernelTheorems

  /** If the core has a task, the task's mask allows the core. */
  ghost predicate Affine(s: State, c: Core)
    requires Shaped(s)
  {
    Busy(s.phase[c]) ==> Has(s, Running(c)) && Obeys(FirstTask(s, Running(c)).mask, c)
  }

  /** The call that leaves the core running a task its mask forbids there. */
  predicate Bars(e: Event, c: Core) {
    e.SetAffinity? && e.core == c && !Obeys(e.mask, c)
  }

  /** The task on a core before and after an event. */
  lemma SameTask(s: State, e: Event, c: Core)
    requires Inv(s) && Enabled(s, e) && Busy(s.phase[c]) && Busy(After(s, e).phase[c])
    ensures At(After(s, e).own, Running(c)) == At(s.own, Running(c)) && Has(s, Running(c))
  {
    EffectFits(s, e);
    assert PhasedAt(s, c);
    MemberAt(s.own, Running(c), 0);
    KeepsRunning(s, e, c);
  }

  lemma KeepsRunning(s: State, e: Event, c: Core)
    requires Enabled(s, e) && Fits(s.own, EffectOf(s, e)) && Busy(s.phase[c])
    requires c == e.core ==> Busy(PhaseAfter(s, e))
    ensures At(Moved(s.own, EffectOf(s, e), s.nextPid), Running(c)) == At(s.own, Running(c))
  {
  }

  /** Its mask changes only by its own call. */
  lemma SameMask(s: State, e: Event, c: Core)
    requires Inv(s) && Enabled(s, e) && Has(s, Running(c)) && Busy(s.phase[c])
    ensures var t := First(s, Running(c));
      && t in TasksAfter(s, e)
      && TasksAfter(s, e)[t].mask == if e.SetAffinity? && e.core == c then e.mask else s.tasks[t].mask
  {
    var t := First(s, Running(c));
    FieldsKept(s, e, t);
    if e.SetAffinity? && e.core != c { RunningElsewhere(s, e.core, Running(c), t); }
  }

  /** What next() puts on a core may run there. */
  lemma ComesAffine(s: State, e: Event, c: Core)
    requires Inv(s) && Enabled(s, e) && !Busy(s.phase[c]) && Busy(After(s, e).phase[c])
    ensures Affine(After(s, e), c)
  {
    ComesBusy(s, e, c);
    var p := s.phase[c].prio;
    assert PhasedAt(s, c) && At(s.own, Ready(c, p))[0] in At(s.own, Ready(c, p));
  }

  lemma ComesBusy(s: State, e: Event, c: Core)
    requires Inv(s) && Enabled(s, e) && !Busy(s.phase[c]) && Busy(After(s, e).phase[c])
    ensures e == Look(c) && s.phase[c].Scan? && At(s.own, Ready(c, s.phase[c].prio)) != []
  {
    assert e.core == c;
    BusyFrom(s, e);
  }

  lemma BusyFrom(s: State, e: Event)
    requires Enabled(s, e) && !Busy(s.phase[e.core]) && Busy(PhaseAfter(s, e))
    ensures e.Look? && s.phase[e.core].Scan? && At(s.own, Ready(e.core, s.phase[e.core].prio)) != []
  {
  }

  /** One event: SCHED_SET_AFFINITY decides by its mask; otherwise a core stays as it was until it gives its task up. */
  lemma AffineStep(s: State, e: Event, c: Core)
    requires Inv(s) && Enabled(s, e)
    ensures Affine(After(s, e), c) <==>
      if e.SetAffinity? && e.core == c then Obeys(e.mask, c) else Affine(s, c) || !Busy(After(s, e).phase[c])
  {
    var r := After(s, e);
    if Busy(r.phase[c]) {
      if Busy(s.phase[c]) {
        SameTask(s, e, c);
        SameMask(s, e, c);
      } else {
        ComesAffine(s, e, c);
      }
    } else if e.SetAffinity? && e.core == c {
      LetsGo(s, e);
    }
  }

  lemma LetsGo(s: State, e: Event)
    requires Enabled(s, e) && e.SetAffinity? && !Busy(PhaseAfter(s, e))
    ensures Obeys(e.mask, e.core)
  {
  }

  // ---------------------------------------------------------------- runs

  /** The core neither gives its task up nor changes the task's mask. */
  predicate Keeps(s: State, es: seq<Event>, c: Core)
    requires Runs(s, es)
    decreases es
  {
    es == [] ||
    ((es[0].core == c ==> !es[0].SetAffinity? && Busy(PhaseAfter(s, es[0]))) && Keeps(After(s, es[0]), es[1..], c))
  }

  /** Some call of the run bars its task from core `c`, and the core then keeps the task and its mask. */
  predicate Strays(s: State, es: seq<Event>, c: Core)
    requires Runs(s, es)
    decreases es
  {
    es != [] && ((Bars(es[0], c) && Keeps(After(s, es[0]), es[1..], c)) || Strays(After(s, es[0]), es[1..], c))
  }

  /** Over any run: the core ends with a task its mask forbids there exactly when it had one and has kept it, or some
      SCHED_SET_AFFINITY has barred the task and the core has neither given it up nor changed its mask since. */
  lemma {:induction false} AffineRun(s: State, es: seq<Event>, c: Core)
    requires Inv(s) && Runs(s, es)
    ensures Shaped(End(s, es)) && (Affine(End(s, es), c) <==> (Affine(s, c) || !Keeps(s, es, c)) && !Strays(s, es, c))
    decreases es
  {
    if es != [] {
      StepInv(s, es[0]);
      AffineStep(s, es[0], c);
      AffineRun(After(s, es[0]), es[1..], c);
    }
  }

  /** From before boot it takes such a call. */
  lemma AffineFromBoot(s: State, es: seq<Event>, c: Core)
    requires Initial(s) && Runs(s, es)
    ensures Shaped(End(s, es)) && (Affine(End(s, es), c) <==> !Strays(s, es, c))
  {
    InitialInv(s);
    AffineRun(s, es, c);
  }
}
