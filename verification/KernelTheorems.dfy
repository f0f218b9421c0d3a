/** What holds in every state the kernel can reach, under every interleaving of its cores. */
module KernelTheorems {
  import opened Rings
  import opened Placement
  import opened Kernel
  import opened KernelInvariants
  import opened KernelIdle
  import opened KernelSems
  import opened KernelJoins

  ghost predicate Inv(s: State) {
    Held(s) && Counted(s) && Phased(s) && Sorted(s) && Homes(s) && Sems(s) && Joins(s)
  }

  lemma InitialInv(s: State)
    requires Initial(s)
    ensures Inv(s)
  {
    assert Members(s.own) == {};
    forall c: Core ensures PhasedAt(s, c) && Home(s, c) && DeadOk(s, c) && PosterOk(s, c) {}
  }

  lemma StepInv(s: State, e: Event)
    requires Inv(s) && Enabled(s, e)
    ensures Inv(After(s, e))
  {
    HeldKept(s, e);
    CountedKept(s, e);
    PhasedKept(s, e);
    SortedKept(s, e);
    HomesKept(s, e);
    SemsKept(s, e);
    JoinsKept(s, e);
  }

  /** The invariant holds after every run of any length. */
  lemma {:induction false} RunInv(s: State, es: seq<Event>)
    requires Inv(s) && Runs(s, es)
    ensures Inv(End(s, es))
    decreases es
  {
    if es != [] {
      StepInv(s, es[0]);
      RunInv(After(s, es[0]), es[1..]);
    }
  }

  /** The states a run from before boot goes through. */
  ghost predicate Trace(states: seq<State>, es: seq<Event>) {
    && |states| == |es| + 1 && Initial(states[0])
    && forall i {:trigger states[i], es[i]} ::
         0 <= i < |es| ==> Enabled(states[i], es[i]) && states[i + 1] == After(states[i], es[i])
  }

  /** A state some run leads to from before boot. */
  ghost predicate Reachable(s: State) {
    Shaped(s) && exists states, es :: Trace(states, es) && states[|es|] == s
  }

  lemma TraceStep(states: seq<State>, es: seq<Event>, i: nat, j: nat)
    requires Trace(states, es) && j == i + 1 <= |es|
    ensures Enabled(states[i], es[i]) && states[j] == After(states[i], es[i])
  {
    assert Enabled(states[i], es[i]) && states[i + 1] == After(states[i], es[i]);
  }

  lemma TraceInvNext(states: seq<State>, es: seq<Event>, i: nat, j: nat)
    requires Trace(states, es) == true && j == i + 1 <= |es| && Inv(states[i]) == true
    ensures Inv(states[j]) == true
  {
    TraceStep(states, es, i, j);
    StepInv(states[i], es[i]);
  }

  lemma {:induction false} TraceInv(states: seq<State>, es: seq<Event>, k: nat)
    requires Trace(states, es) == true && k <= |es|
    ensures Inv(states[k]) == true
  {
    if k == 0 {
      InitialInv(states[0]);
    } else {
      TraceInv(states, es, k - 1);
      TraceInvNext(states, es, k - 1, k);
    }
  }

  lemma ReachableInv(s: State)
    requires Reachable(s)
    ensures Inv(s)
  {
    var states, es :| Trace(states, es) && states[|es|] == s;
    TraceInv(states, es, |es|);
  }

  lemma InitialReachable(s: State)
    requires Initial(s)
    ensures Reachable(s)
  {
    assert Trace([s], []) && [s][0] == s;
  }

  lemma OneMore(states: seq<State>, es: seq<Event>, e: Event, r: State)
    requires Trace(states, es) && Enabled(states[|es|], e) && r == After(states[|es|], e)
    ensures Trace(states + [r], es + [e])
  {
    var more, all := states + [r], es + [e];
    forall i {:trigger more[i], all[i]} | 0 <= i < |all|
      ensures Enabled(more[i], all[i]) && more[i + 1] == After(more[i], all[i])
    {
      if i < |es| { assert Enabled(states[i], es[i]) && states[i + 1] == After(states[i], es[i]); }
    }
  }

  lemma ReachableStep(s: State, e: Event)
    requires Reachable(s) && Enabled(s, e)
    ensures Reachable(After(s, e))
  {
    var states, es :| Trace(states, es) && states[|es|] == s;
    var r := After(s, e);
    OneMore(states, es, e, r);
    assert (states + [r])[|es + [e]|] == r;
  }

  /** Whatever runs from a reachable state ends in one. */
  lemma {:induction false} ReachableRun(s: State, es: seq<Event>)
    requires Reachable(s) && Runs(s, es)
    ensures Reachable(End(s, es))
    decreases es
  {
    if es != [] {
      ReachableStep(s, es[0]);
      ReachableRun(After(s, es[0]), es[1..]);
    }
  }

  // ---------------------------------------------------------------- ownership

  ghost predicate OnlyAt(s: State, t: Tid, pl: Place, i: int) {
    && Filled(s.own, pl, i) && s.own[pl][i] == t
    && forall pl', i' {:trigger Filled(s.own, pl', i')} ::
         Filled(s.own, pl', i') && s.own[pl'][i'] == t ==> pl' == pl && i' == i
  }

  /** A task held anywhere is held at one place, once. */
  lemma OneOwner(s: State, t: Tid)
    requires Reachable(s) && t in Members(s.own)
    ensures exists pl, i :: OnlyAt(s, t, pl, i)
  {
    ReachableInv(s);
    var pl, i := WhereIs(s.own, t);
    forall pl', i' | Filled(s.own, pl', i') && s.own[pl'][i'] == t ensures pl' == pl && i' == i {
      UniquePlace(s.own, pl', i', pl, i);
    }
    assert OnlyAt(s, t, pl, i);
  }

  /** No task is in user mode on two cores, and a core in user mode has exactly one task. */
  lemma OneCore(s: State, c: Core, d: Core)
    requires Reachable(s) && c != d && s.phase[c] == User && s.phase[d] == User
    ensures Has(s, Running(c)) && Has(s, Running(d)) && First(s, Running(c)) != First(s, Running(d))
    ensures |At(s.own, Running(c))| == 1
  {
    ReachableInv(s);
    assert PhasedAt(s, c) && PhasedAt(s, d);
    MemberAt(s.own, Running(c), 0);
    MemberAt(s.own, Running(d), 0);
    if First(s, Running(c)) == First(s, Running(d)) {
      UniquePlace(s.own, Running(c), 0, Running(d), 0);
      assert false;
    }
  }

  predicate Exits(s: State, e: Event, t: Tid)
    requires Enabled(s, e)
  {
    e.Exit? && First(s, Running(e.core)) == t
  }

  predicate NeverExits(s: State, es: seq<Event>, t: Tid)
    requires Runs(s, es)
    decreases es
  {
    es == [] || (!Exits(s, es[0], t) && NeverExits(After(s, es[0]), es[1..], t))
  }

  /** A task is held from its creation until it calls pthread_exit, and never again afterwards. */
  lemma {:induction false} HeldUntilExit(s: State, es: seq<Event>, t: Tid)
    requires Inv(s) && Runs(s, es) && t in s.tasks
    ensures t in Members(End(s, es).own) <==> t in Members(s.own) && NeverExits(s, es, t)
    decreases es
  {
    if es != [] {
      var e := es[0];
      StepInv(s, e);
      HeldAfter(s, e);
      DeadFrom(s, e);
      TasksKeys(s, e);
      assert t in s.tasks.Keys;
      HeldUntilExit(After(s, e), es[1..], t);
    }
  }

  // ---------------------------------------------------------------- accounting

  function PlacesOf(c: Core): set<Place> {
    {Ready(c, 0), Ready(c, 1), Ready(c, 2), Ready(c, 3), Running(c), Hand(c)}
  }

  /** The tasks in wait queues. */
  ghost function Blocked(own: map<Place, seq<Tid>>): nat {
    Total(own - PlacesOf(0) - PlacesOf(1) - PlacesOf(2) - PlacesOf(3))
  }

  function OfCore(own: map<Place, seq<Tid>>, c: Core): nat {
    Queued(own, c) + |At(own, Running(c))| + |At(own, Hand(c))|
  }

  lemma SplitTwo(own: map<Place, seq<Tid>>, a: Place, b: Place)
    requires a != b
    ensures Total(own) == |At(own, a)| + |At(own, b)| + Total(own - {a, b})
  {
    TotalSplit(own, a);
    TotalSplit(own - {a}, b);
    assert own - {a} - {b} == own - {a, b};
  }

  lemma SplitFour(own: map<Place, seq<Tid>>, a: Place, b: Place, c: Place, d: Place)
    requires a != b && a != c && a != d && b != c && b != d && c != d
    ensures Total(own) == |At(own, a)| + |At(own, b)| + |At(own, c)| + |At(own, d)| + Total(own - {a, b, c, d})
  {
    SplitTwo(own, a, b);
    SplitTwo(own - {a, b}, c, d);
    assert own - {a, b} - {c, d} == own - {a, b, c, d};
  }

  lemma CoreSplit(own: map<Place, seq<Tid>>, c: Core)
    ensures Total(own) == OfCore(own, c) + Total(own - PlacesOf(c))
  {
    var q := {Ready(c, 0), Ready(c, 1), Ready(c, 2), Ready(c, 3)};
    SplitFour(own, Ready(c, 0), Ready(c, 1), Ready(c, 2), Ready(c, 3));
    SplitTwo(own - q, Running(c), Hand(c));
    assert own - q - {Running(c), Hand(c)} == own - PlacesOf(c);
  }

  lemma OtherCore(own: map<Place, seq<Tid>>, c: Core, d: Core)
    requires d != c
    ensures OfCore(own - PlacesOf(c), d) == OfCore(own, d)
  {
  }

  lemma FourCores(own: map<Place, seq<Tid>>)
    ensures Total(own) == OfCore(own, 0) + OfCore(own, 1) + OfCore(own, 2) + OfCore(own, 3) + Blocked(own)
  {
    var m1 := own - PlacesOf(0);
    var m2 := m1 - PlacesOf(1);
    var m3 := m2 - PlacesOf(2);
    CoreSplit(own, 0);
    CoreSplit(m1, 1);
    CoreSplit(m2, 2);
    CoreSplit(m3, 3);
    OtherCore(own, 0, 1);
    OtherCore(own, 0, 2);
    OtherCore(m1, 1, 2);
    OtherCore(own, 0, 3);
    OtherCore(m1, 1, 3);
    OtherCore(m2, 2, 3);
  }

  /** The queue lengths, the tasks on cores or in their hands, and the blocked tasks add up to live_procs. */
  lemma Census(s: State)
    requires Reachable(s)
    ensures s.liveProcs ==
      s.length[0] + s.length[1] + s.length[2] + s.length[3]
      + |At(s.own, Running(0))| + |At(s.own, Running(1))| + |At(s.own, Running(2))| + |At(s.own, Running(3))|
      + |At(s.own, Hand(0))| + |At(s.own, Hand(1))| + |At(s.own, Hand(2))| + |At(s.own, Hand(3))|
      + Blocked(s.own)
    ensures forall c: Core :: s.length[c] == Queued(s.own, c)
  {
    ReachableInv(s);
    DisjointCount(s.own);
    FourCores(s.own);
  }

  /** live_procs is never 0 once a core has started, so sched_pickcpu never divides by zero. */
  lemma SomeoneLives(s: State, c: Core)
    requires Reachable(s) && s.phase[c] != Off
    ensures s.liveProcs > 0
  {
    ReachableInv(s);
    assert Home(s, c);
    var pl := HomePlace(s, c);
    assert s.idle[c] in At(s.own, pl);
    assert s.idle[c] in Members(s.own);
    assert {s.idle[c]} <= Members(s.own);
    assert |Members(s.own)| > 0;
  }

  // ---------------------------------------------------------------- something to run, and where it may run

  /** next() never comes back empty-handed: a core that scans its queues finds at least its idle task. */
  lemma LookNeverFails(s: State, c: Core)
    requires Inv(s) && Enabled(s, Look(c))
    ensures PhaseAfter(s, Look(c)) != Stuck
  {
    assert Home(s, c) && PhasedAt(s, c);
  }

  predicate NoneStuck(s: State) {
    Shaped(s) && forall c: Core :: s.phase[c] != Stuck
  }

  lemma {:induction false} NeverStuck(s: State, es: seq<Event>)
    requires Inv(s) && NoneStuck(s) && Runs(s, es)
    ensures NoneStuck(End(s, es))
    decreases es
  {
    if es != [] {
      var e := es[0];
      StepInv(s, e);
      if e.Look? { LookNeverFails(s, e.core); }
      StuckOnlyByLook(s, e);
      NeverStuck(After(s, e), es[1..]);
    }
  }

  lemma StuckOnlyByLook(s: State, e: Event)
    requires Enabled(s, e)
    ensures PhaseAfter(s, e) == Stuck ==> e.Look?
  {
  }

  /** Whatever task next() dispatches on a core may run there, unless its mask names no core at all; then the
      core is core 0. */
  lemma DispatchAllowed(s: State, c: Core)
    requires Reachable(s) && Enabled(s, Look(c)) && PhaseAfter(s, Look(c)) == Leaving
    ensures Has(After(s, Look(c)), Running(c)) && Obeys(FirstTask(After(s, Look(c)), Running(c)).mask, c)
  {
    ReachableInv(s);
    assert PhasedAt(s, c);
    var p := s.phase[c].prio;
    assert At(s.own, Ready(c, p))[0] in At(s.own, Ready(c, p));
  }

  /** The idle list of a core only ever holds a task tied to that core. */
  lemma IdleListTied(s: State, b: Core, i: nat)
    requires Inv(s) && i < |At(s.own, Ready(b, PRIORITY_IDLE))|
    ensures At(s.own, Ready(b, PRIORITY_IDLE))[i] in s.tasks
    ensures s.tasks[At(s.own, Ready(b, PRIORITY_IDLE))[i]].mask == {b}
  {
    var t := At(s.own, Ready(b, PRIORITY_IDLE))[i];
    assert t in At(s.own, Ready(b, PRIORITY_IDLE));
  }

  lemma PullMeans(s: State, c: Core, b: Core, i: nat)
    requires Enabled(s, Pull(c, b, i))
    ensures c != b && i < |At(s.own, Ready(b, PRIORITY_IDLE))| && At(s.own, Ready(b, PRIORITY_IDLE))[i] in s.tasks
    ensures c in s.tasks[At(s.own, Ready(b, PRIORITY_IDLE))[i]].mask
  {
  }

  lemma NoneToPull(s: State, c: Core, b: Core, i: nat)
    requires Reachable(s) && c != b && i < |At(s.own, Ready(b, PRIORITY_IDLE))|
    ensures At(s.own, Ready(b, PRIORITY_IDLE))[i] in s.tasks
    ensures c !in s.tasks[At(s.own, Ready(b, PRIORITY_IDLE))[i]].mask
  {
    ReachableInv(s);
    IdleListTied(s, b, i);
  }

  /** So, as written, pull migration moves nothing in any reachable state: the idle list is the one it scans. */
  lemma PullIsDead(s: State, c: Core, b: Core, i: nat)
    requires Reachable(s)
    ensures !Enabled(s, Pull(c, b, i))
  {
    if c != b && i < |At(s.own, Ready(b, PRIORITY_IDLE))| { NoneToPull(s, c, b, i); }
    if Enabled(s, Pull(c, b, i)) { PullMeans(s, c, b, i); }
  }
}
