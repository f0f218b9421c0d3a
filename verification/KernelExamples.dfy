/** Runs that show where the code as written misses its evident intent: a semaphore that grants more than was posted,
    and a task that joins another too late. Both start before boot and use nothing but the ordinary events. */
module KernelExamples {
  import opened Rings
  import opened Placement
  import opened Kernel
  import opened KernelInvariants
  import opened KernelSems
  import opened KernelIdle
  import opened KernelJoins
  import opened KernelTheorems
  import opened KernelCounts
  import opened KernelWakes

  /** Empty queues, as sched_pickcpu reads them. */
  const QUIET := Seen([0, 0, 0, 0], 0, 1)

  function PreBoot(): (s: State)
    ensures Initial(s) && !s.bounded
  {
    State(map[], [0, 0, 0, 0], map[], [Off, Off, Off, Off], 0, 1, {}, map[], map[], map[], false)
  }

  /** What an event of core `c` that only concerns its own tasks leaves alone. */
  ghost predicate Aside(s: State, r: State, c: Core) {
    && Shaped(s) && Shaped(r) && r.sems == s.sems && r.bounded == s.bounded && s.registered <= r.registered
    && (forall d: Core :: d != c ==> r.phase[d] == s.phase[d])
    && (forall pl: Place :: pl.Wait? || pl.core != c ==> At(r.own, pl) == At(s.own, pl))
    && (forall t :: t in s.tasks ==> t in r.tasks && r.tasks[t] == s.tasks[t].(x0 := r.tasks[t].x0))
  }

  lemma AsideTwice(s: State, r: State, u: State, c: Core)
    requires Aside(s, r, c) && Aside(r, u, c)
    ensures Aside(s, u, c)
  {
  }

  lemma StartsAtHome(c: Core)
    ensures Plausible(QUIET) && PickCpu(c, {c}, QUIET) == c
  {
  }

  /** One more event, the state it leads to being reachable again. */
  lemma Go(s: State, e: Event) returns (r: State)
    requires Reachable(s) && Enabled(s, e)
    ensures r == After(s, e) && Reachable(r)
  {
    r := After(s, e);
    ReachableStep(s, e);
  }

  lemma Untouched(s: State, c: Core)
    requires Reachable(s) && s.phase[c] == Off
    ensures At(s.own, Running(c)) == [] && At(s.own, Hand(c)) == []
    ensures s.nextPid !in s.tasks && s.nextPid + 1 !in s.tasks
  {
    ReachableInv(s);
    assert PhasedAt(s, c);
  }

  /** The state `r` is `s` with the lists `own` and the tasks `tasks`, core `c` being in phase `ph`. */
  predicate Wrote(s: State, r: State, c: Core, ph: Phase, own: map<Place, seq<Tid>>, tasks: map<Tid, Task>) {
    && Shaped(s) && Shaped(r) && r.own == own && r.tasks == tasks && r.phase == s.phase[c := ph]
    && r.sems == s.sems && r.bounded == s.bounded && s.registered <= r.registered
  }

  lemma WroteAside(s: State, r: State, c: Core, ph: Phase, own: map<Place, seq<Tid>>, tasks: map<Tid, Task>)
    requires Wrote(s, r, c, ph, own, tasks)
    requires forall pl: Place :: pl.Wait? || pl.core != c ==> At(own, pl) == At(s.own, pl)
    requires forall t :: t in s.tasks ==> t in tasks && tasks[t] == s.tasks[t]
    ensures Aside(s, r, c)
  {
  }

  // One lemma for each event of kernel_start.

  lemma Creates(s: State, c: Core, e: Event, ph: Phase, task: Task) returns (r: State)
    requires Reachable(s) && Enabled(s, e)
    requires
      if e == Boot(c) then ph == Making(false, ThenRoot) && task == Task(PRIORITY_IDLE, {c}, IdleOf(c), 0, 0, Null)
      else e == Root(c) && ph == Making(false, ThenDispatch) && task == Task(PRIORITY_MED, {c}, Thread, 0, 0, Null)
    ensures Reachable(r) && r.nextPid == s.nextPid + 1
    ensures Wrote(s, r, c, ph, Append(s.own, Hand(c), s.nextPid), s.tasks[s.nextPid := task])
  {
    r := Go(s, e);
  }

  lemma CreatesTask(s: State, c: Core, e: Event, ph: Phase, task: Task) returns (r: State)
    requires Reachable(s) && Enabled(s, e) && s.nextPid !in s.tasks
    requires
      if e == Boot(c) then ph == Making(false, ThenRoot) && task == Task(PRIORITY_IDLE, {c}, IdleOf(c), 0, 0, Null)
      else e == Root(c) && ph == Making(false, ThenDispatch) && task == Task(PRIORITY_MED, {c}, Thread, 0, 0, Null)
    ensures Reachable(r) && Aside(s, r, c) && r.phase[c] == ph && r.nextPid == s.nextPid + 1
    ensures r.own == Append(s.own, Hand(c), s.nextPid) && r.tasks == s.tasks[s.nextPid := task]
  {
    r := Creates(s, c, e, ph, task);
    WroteAside(s, r, c, ph, Append(s.own, Hand(c), s.nextPid), s.tasks[s.nextPid := task]);
  }

  lemma Registers(s: State, c: Core, next: AfterMake, t: Tid) returns (r: State)
    requires Reachable(s) && s.phase[c] == Making(false, next) && At(s.own, Hand(c)) == [t] && t in s.tasks
    ensures Reachable(r) && Aside(s, r, c) && r.phase[c] == Making(true, next) && t in r.registered
    ensures r.own == s.own && r.tasks == s.tasks && r.nextPid == s.nextPid
  {
    r := Go(s, Register(c));
  }

  lemma Started(s: State, c: Core, next: AfterMake, prio: Prio) returns (r: State)
    requires Reachable(s) && s.phase[c] == Making(true, next) && Has(s, Hand(c)) && FirstTask(s, Hand(c)).mask == {c}
    requires FirstTask(s, Hand(c)).prio == prio
    ensures Reachable(r) && Wrote(s, r, c, Made(next), Move(s.own, Hand(c), 0, Ready(c, prio)), s.tasks)
    ensures r.registered == s.registered && r.nextPid == s.nextPid
  {
    StartsAtHome(c);
    r := Go(s, Start(c, QUIET));
  }

  lemma Starts(s: State, c: Core, next: AfterMake, prio: Prio) returns (r: State)
    requires Reachable(s) && s.phase[c] == Making(true, next) && Has(s, Hand(c)) && FirstTask(s, Hand(c)).mask == {c}
    requires FirstTask(s, Hand(c)).prio == prio
    ensures Reachable(r) && Aside(s, r, c) && r.phase[c] == Made(next)
    ensures r.own == Move(s.own, Hand(c), 0, Ready(c, prio))
    ensures r.tasks == s.tasks && r.registered == s.registered && r.nextPid == s.nextPid
  {
    r := Started(s, c, next, prio);
    WroteAside(s, r, c, Made(next), Move(s.own, Hand(c), 0, Ready(c, prio)), s.tasks);
  }

  lemma Passes(s: State, c: Core, p: Prio) returns (r: State)
    requires Reachable(s) && s.phase[c] == Scan(p) && p > 0 && At(s.own, Ready(c, p)) == []
    ensures Reachable(r) && Aside(s, r, c) && r.phase[c] == Scan(p - 1)
    ensures r.own == s.own && r.tasks == s.tasks && r.registered == s.registered
  {
    r := Go(s, Look(c));
  }

  lemma TakesFirst(s: State, c: Core, p: Prio) returns (r: State)
    requires Reachable(s) && s.phase[c] == Scan(p) && At(s.own, Ready(c, p)) != []
    ensures Reachable(r) && Wrote(s, r, c, Leaving, Move(s.own, Ready(c, p), 0, Running(c)), s.tasks)
    ensures r.registered == s.registered
  {
    r := Go(s, Look(c));
  }

  lemma Dispatches(s: State, c: Core, p: Prio, t: Tid) returns (r: State)
    requires Reachable(s) && s.phase[c] == Scan(p) && At(s.own, Ready(c, p)) == [t] && At(s.own, Running(c)) == []
    requires t in s.tasks && s.tasks[t].kind == Thread
    ensures Reachable(r) && Aside(s, r, c) && r.phase[c] == Leaving && At(r.own, Running(c)) == [t]
    ensures At(r.own, Ready(c, p)) == []
    ensures forall i: Prio :: i != p ==> At(r.own, Ready(c, i)) == At(s.own, Ready(c, i))
    ensures r.tasks == s.tasks && r.registered == s.registered
  {
    r := TakesFirst(s, c, p);
    WroteAside(s, r, c, Leaving, Move(s.own, Ready(c, p), 0, Running(c)), s.tasks);
  }

  /** The end of a system call: switch_to and the return to user mode. */
  lemma BackToUser(s: State, c: Core, t: Tid) returns (r: State)
    requires Reachable(s) && s.phase[c] == Leaving && At(s.own, Running(c)) == [t] && t in s.tasks
    requires s.tasks[t].kind == Thread
    ensures Reachable(r) && Wrote(s, r, c, User, s.own, s.tasks[t := s.tasks[t].(x0 := s.tasks[t].ret)])
    ensures Calls(r, c) && First(r, Running(c)) == t && r.registered == s.registered && Aside(s, r, c)
  {
    r := Go(s, SwitchTo(c));
  }

  /** Booting a core: kernel_start makes the idle task and the root task, and dispatches the latter. */
  lemma Boots(s: State, c: Core) returns (r: State, t: Tid)
    requires Reachable(s) && s.phase[c] == Off && forall p: Prio :: At(s.own, Ready(c, p)) == []
    ensures Reachable(r) && Aside(s, r, c) && Calls(r, c) && First(r, Running(c)) == t
    ensures t in r.registered && t !in s.tasks && 0 < t
    ensures At(r.own, Ready(c, PRIORITY_MED)) == [] && At(r.own, Ready(c, PRIORITY_HIGH)) == []
    ensures r.tasks[t].prio == PRIORITY_MED && r.tasks[t].mask == {c}
  {
    Untouched(s, c);
    t := s.nextPid + 1;
    var a := MakesIdle(s, c);
    FreshPid(a);
    var b := MakesRoot(a, c, t);
    var d := Passes(b, c, PRIORITY_HIGH);
    var f := Dispatches(d, c, PRIORITY_MED, t);
    r := BackToUser(f, c, t);
    AsideTwice(s, a, b, c);
    AsideTwice(s, b, d, c);
    AsideTwice(s, d, f, c);
    AsideTwice(s, f, r, c);
  }

  /** A task made, registered and made ready. */
  function HandedOver(own: map<Place, seq<Tid>>, c: Core, t: Tid, p: Prio): map<Place, seq<Tid>> {
    Move(Append(own, Hand(c), t), Hand(c), 0, Ready(c, p))
  }

  lemma HandedOverAt(own: map<Place, seq<Tid>>, c: Core, t: Tid, p: Prio)
    requires At(own, Hand(c)) == []
    ensures var r := HandedOver(own, c, t, p);
      && At(r, Hand(c)) == [] && At(r, Running(c)) == At(own, Running(c))
      && forall q: Prio :: At(r, Ready(c, q)) == At(own, Ready(c, q)) + if q == p then [t] else []
  {
  }

  lemma Makes(s: State, c: Core, e: Event, next: AfterMake, task: Task) returns (r: State)
    requires Reachable(s) && Enabled(s, e) && s.nextPid !in s.tasks && At(s.own, Hand(c)) == []
    requires if e == Boot(c) then next == ThenRoot && task == Task(PRIORITY_IDLE, {c}, IdleOf(c), 0, 0, Null)
      else e == Root(c) && next == ThenDispatch && task == Task(PRIORITY_MED, {c}, Thread, 0, 0, Null)
    ensures Reachable(r) && Aside(s, r, c) && r.phase[c] == Made(next) && r.nextPid == s.nextPid + 1
    ensures r.own == HandedOver(s.own, c, s.nextPid, task.prio)
    ensures s.nextPid in r.registered && s.nextPid in r.tasks && r.tasks[s.nextPid] == task
  {
    var a := CreatesTask(s, c, e, Making(false, next), task);
    assert At(a.own, Hand(c)) == [s.nextPid];
    var b := Registers(a, c, next, s.nextPid);
    r := Starts(b, c, next, task.prio);
    AsideTwice(s, a, b, c);
    AsideTwice(s, b, r, c);
  }

  lemma MakesIdle(s: State, c: Core) returns (r: State)
    requires Reachable(s) && s.phase[c] == Off && forall p: Prio :: At(s.own, Ready(c, p)) == []
    ensures Reachable(r) && Aside(s, r, c) && r.phase[c] == Rooting
    ensures At(r.own, Hand(c)) == [] && At(r.own, Running(c)) == []
    ensures r.nextPid == s.nextPid + 1
    ensures forall p: Prio :: p > 0 ==> At(r.own, Ready(c, p)) == []
  {
    Untouched(s, c);
    r := Makes(s, c, Boot(c), ThenRoot, Task(PRIORITY_IDLE, {c}, IdleOf(c), 0, 0, Null));
    HandedOverAt(s.own, c, s.nextPid, PRIORITY_IDLE);
  }

  lemma MakesRoot(s: State, c: Core, t: Tid) returns (r: State)
    requires Reachable(s) && s.phase[c] == Rooting && At(s.own, Hand(c)) == [] && At(s.own, Running(c)) == []
    requires t == s.nextPid && t !in s.tasks && forall p: Prio :: p > 0 ==> At(s.own, Ready(c, p)) == []
    ensures Reachable(r) && Aside(s, r, c) && r.phase[c] == Scan(PRIORITY_HIGH)
    ensures At(r.own, Ready(c, PRIORITY_HIGH)) == [] && At(r.own, Ready(c, PRIORITY_MED)) == [t]
    ensures At(r.own, Running(c)) == []
    ensures t in r.registered && t in r.tasks && r.tasks[t].kind == Thread && r.tasks[t].prio == PRIORITY_MED
    ensures r.tasks[t].mask == {c}
  {
    r := Makes(s, c, Root(c), ThenDispatch, Task(PRIORITY_MED, {c}, Thread, 0, 0, Null));
    HandedOverAt(s.own, c, s.nextPid, PRIORITY_MED);
  }

  lemma FreshPid(s: State)
    requires Reachable(s)
    ensures 0 < s.nextPid && s.nextPid !in s.tasks
  {
    ReachableInv(s);
  }

  // ---------------------------------------------------------------- joining too late

  lemma LooksUp(s: State, c: Core, d: Core, t: Tid) returns (r: State)
    requires Reachable(s) && Calls(s, c) && Calls(s, d) && c != d
    requires First(s, Running(d)) == t && t in s.registered && t != 0
    ensures Reachable(r) && r.phase[c] == Looked(t) && Calls(r, d) && r.own == s.own && r.phase[d] == s.phase[d]
  {
    OneCore(s, c, d);
    r := Go(s, JoinLookup(c, t, Null));
  }

  lemma ExitsNow(s: State, d: Core, t: Tid) returns (r: State)
    requires Reachable(s) && Calls(s, d) && First(s, Running(d)) == t
    ensures Reachable(r) && r.phase == s.phase[d := Dying(t, 0)] && r.own == Drop(s.own, Running(d), 0)
  {
    r := Go(s, Exit(d, 0));
  }

  lemma ExitAlone(s: State, d: Core)
    requires Reachable(s) && Dead(s.phase[d])
    ensures !s.phase[d].Burying? ==> JoinFree(s, s.phase[d].task)
    ensures s.phase[d].Unlinking? ==> !WillWake(s, s.phase[d].task)
    ensures s.phase[d].task in s.tasks
  {
    ReachableInv(s);
    assert DeadOk(s, d);
    assert forall c: Core :: c != d ==> !(Dead(s.phase[c]) && s.phase[c].task == s.phase[d].task);
  }

  lemma Buries(s: State, d: Core, t: Tid) returns (r: State)
    requires Reachable(s) && s.phase[d] == Dying(t, 0)
    ensures Reachable(r) && r.phase == s.phase[d := Burying(t, 0, 0)] && r.own == s.own
  {
    ExitAlone(s, d);
    r := Go(s, Bury(d));
  }

  lemma WakesNobody(s: State, d: Core, t: Tid) returns (r: State)
    requires Reachable(s) && s.phase[d] == Burying(t, 0, 0) && Joiners(s, t) == []
    ensures Reachable(r) && r.phase == s.phase[d := Unlinking(t)] && r.own == s.own
  {
    r := Go(s, WakeDone(d));
  }

  lemma SleepsLate(s: State, c: Core, d: Core, t: Tid) returns (r: State)
    requires Reachable(s) && s.phase[c] == Looked(t) && s.phase[d] == Unlinking(t) && c != d
    ensures Reachable(r) && !NoOrphans(r)
  {
    ExitAlone(s, d);
    ReachableInv(s);
    assert Home(s, c);
    r := Go(s, JoinSleep(c));
    JoinersAfter(s, JoinSleep(c), t);
    WillWakeAfter(s, JoinSleep(c), t);
  }

  /** Core `c` looks up the task on core `d`, which exits before `c` has gone to sleep. */
  lemma JoinsTooLate(s: State, c: Core, d: Core, t: Tid) returns (r: State)
    requires Reachable(s) && Calls(s, c) && Calls(s, d) && c != d
    requires First(s, Running(d)) == t && t in s.registered && t != 0
    requires Joiners(s, t) == []
    ensures Reachable(r) && !NoOrphans(r)
  {
    var a := LooksUp(s, c, d, t);
    var b := ExitsNow(a, d, t);
    var e := Buries(b, d, t);
    var f := WakesNobody(e, d, t);
    r := SleepsLate(f, c, d, t);
  }

  lemma PreBootReachable()
    ensures Reachable(PreBoot())
  {
    InitialReachable(PreBoot());
  }

  lemma FirstCore() returns (s: State, t: Tid)
    ensures Reachable(s) && Aside(PreBoot(), s, 0) && Calls(s, 0) && First(s, Running(0)) == t && t != 0
  {
    PreBootReachable();
    s, t := Boots(PreBoot(), 0);
  }

  lemma NobodyJoined(s: State, t: Tid)
    requires Reachable(s) && t !in s.tasks
    ensures Joiners(s, t) == []
  {
    ReachableInv(s);
  }

  lemma SecondCore(s: State, t: Tid) returns (r: State, u: Tid)
    requires Reachable(s) && Calls(s, 0) && First(s, Running(0)) == t && s.phase[1] == Off
    requires forall p: Prio :: At(s.own, Ready(1, p)) == []
    ensures Reachable(r) && Aside(s, r, 1) && Calls(r, 0) && Calls(r, 1)
    ensures First(r, Running(0)) == t && First(r, Running(1)) == u && u in r.registered && u != 0 && Joiners(r, u) == []
  {
    r, u := Boots(s, 1);
    NobodyJoined(s, u);
  }

  lemma NotYetUp(a: State, s: State)
    requires Aside(PreBoot(), a, 0) && Aside(a, s, 1)
    ensures s.phase[2] == Off && s.sems == map[] && !s.bounded && forall p: Prio :: At(s.own, Ready(2, p)) == []
  {
  }

  /** Two cores, each running its root task; nobody has joined the second. */
  lemma TwoCores() returns (s: State, t: Tid, u: Tid)
    ensures Reachable(s) && !s.bounded && s.sems == map[] && Calls(s, 0) && Calls(s, 1) && s.phase[2] == Off
    ensures First(s, Running(0)) == t && First(s, Running(1)) == u && u in s.registered && u != 0 && Joiners(s, u) == []
    ensures forall p: Prio :: At(s.own, Ready(2, p)) == []
  {
    var a;
    a, t := FirstCore();
    s, u := SecondCore(a, t);
    NotYetUp(a, s);
  }

  /** So some run leaves a task waiting for one that has exited. */
  lemma OrphanExists() returns (s: State)
    ensures Reachable(s) && !NoOrphans(s)
  {
    var a, t, u := TwoCores();
    s := JoinsTooLate(a, 0, 1, u);
  }

  // ---------------------------------------------------------------- granting more than was posted

  /** Semaphore `q` is known, at 0 and unlocked, with these tasks waiting. */
  ghost predicate Awaited(s: State, q: nat, waiting: seq<Tid>) {
    && Shaped(s) && !s.bounded && q in s.sems && s.sems[q].count == 0 && s.sems[q].extra == 0
    && SemFree(s, q) && Waiters(s, q) == waiting
  }

  lemma UnknownFree(s: State, q: nat)
    requires Reachable(s) && q !in s.sems
    ensures Waiters(s, q) == [] && SemFree(s, q)
  {
    ReachableInv(s);
    assert SemOk(s, q);
    forall c: Core ensures !(s.phase[c].Posting? && s.phase[c].sem == q) { assert PosterOk(s, c); }
  }

  lemma InitsSem(s: State, c: Core, q: nat) returns (r: State)
    requires Reachable(s) && !s.bounded && Calls(s, c) && q !in s.sems
    ensures Reachable(r) && Awaited(r, q, []) && r.own == s.own && r.phase == s.phase[c := Leaving]
    ensures forall t :: t in s.tasks ==> t in r.tasks && r.tasks[t].kind == s.tasks[t].kind
  {
    UnknownFree(s, q);
    r := Go(s, SemInit(c, q, 0));
  }

  lemma OneTask(s: State, c: Core)
    requires Reachable(s) && Calls(s, c)
    ensures At(s.own, Running(c)) == [First(s, Running(c))]
  {
    ReachableInv(s);
    assert PhasedAt(s, c);
  }

  lemma StillCalls(s: State, r: State, c: Core, d: Core)
    requires Calls(s, d) && d != c && Shaped(r) && r.phase[d] == s.phase[d]
    requires At(r.own, Running(d)) == At(s.own, Running(d))
    requires forall t :: t in s.tasks ==> t in r.tasks && r.tasks[t].kind == s.tasks[t].kind
    ensures Calls(r, d) && First(r, Running(d)) == First(s, Running(d))
  {
  }

  lemma HasSem(s: State, c: Core, q: nat) returns (r: State)
    requires Reachable(s) && !s.bounded && Calls(s, c) && q !in s.sems
    ensures Reachable(r) && Awaited(r, q, []) && forall d: Core :: Calls(s, d) ==> Calls(r, d)
  {
    OneTask(s, c);
    var a := InitsSem(s, c, q);
    r := BackToUser(a, c, First(s, Running(c)));
    forall d: Core | Calls(s, d) ensures Calls(r, d) {
      if d != c { StillCalls(s, r, c, d); }
    }
  }

  lemma SleepsOn(s: State, c: Core, q: nat, waiting: seq<Tid>) returns (r: State)
    requires Reachable(s) && Calls(s, c) && Awaited(s, q, waiting)
    ensures Reachable(r) && Awaited(r, q, waiting + [First(s, Running(c))])
    ensures r.phase == s.phase[c := Returning(First(s, Running(c)))]
    ensures r.own == Move(s.own, Running(c), 0, Wait(SemQ(q)))
    ensures forall t :: t in s.tasks ==> t in r.tasks && r.tasks[t].kind == s.tasks[t].kind
  {
    r := Go(s, SemWait(c, q));
  }

  lemma WaitsOn(s: State, c: Core, q: nat, waiting: seq<Tid>) returns (r: State)
    requires Reachable(s) && Calls(s, c) && Awaited(s, q, waiting)
    ensures Reachable(r) && Awaited(r, q, waiting + [First(s, Running(c))])
    ensures forall d: Core :: d != c && Calls(s, d) ==> Calls(r, d) && First(r, Running(d)) == First(s, Running(d))
  {
    r := SleepsOn(s, c, q, waiting);
    forall d: Core | d != c && Calls(s, d) ensures Calls(r, d) && First(r, Running(d)) == First(s, Running(d)) {
      StillCalls(s, r, c, d);
    }
  }

  lemma PostsTo(s: State, c: Core, q: nat, waiting: seq<Tid>) returns (r: State)
    requires Reachable(s) && Calls(s, c) && Awaited(s, q, waiting) && waiting != []
    ensures Reachable(r) && !r.bounded && r.phase[c] == Posting(q, 0) && Waiters(r, q) == waiting
    ensures q in r.sems && r.sems[q].extra == 0 && !r.sems[q].doomed
  {
    r := Go(s, SemPost(c, q));
  }

  lemma WaiterKnown(s: State, c: Core, q: nat)
    requires Reachable(s) && s.phase[c].Posting? && s.phase[c].sem == q && Waiters(s, q) != []
    ensures Has(s, Wait(SemQ(q))) && q in s.sems
  {
    ReachableInv(s);
    assert PosterOk(s, c);
    MemberAt(s.own, Wait(SemQ(q)), 0);
  }

  /** The core's task is the same, and makes system calls if it did. */
  predicate SameThread(s: State, r: State, c: Core) {
    && At(r.own, Running(c)) == At(s.own, Running(c))
    && forall t :: t in s.tasks ==> t in r.tasks && r.tasks[t].kind == s.tasks[t].kind
  }

  lemma WakesOne(s: State, c: Core, q: nat, n: nat, waiting: seq<Tid>) returns (r: State)
    requires Reachable(s) && !s.bounded && s.phase[c] == Posting(q, n) && Waiters(s, q) == waiting && waiting != []
    ensures Reachable(r) && Waked(s, r, c, q, 1) && Waiters(r, q) == waiting[1..] && SameThread(s, r, c)
  {
    WaiterKnown(s, c, q);
    StartsAtHome(c);
    var e := Wake(c, QUIET);
    r := After(s, e);
    assert Takes(s, e, c) == [waiting[0]];
    PostStep(s, e, c, q, r);
    WakeStep(s, e, c, Wait(SemQ(q)), r);
  }

  lemma Posts(s: State, c: Core, q: nat, n: nat) returns (r: State)
    requires Reachable(s) && !s.bounded && s.phase[c] == Posting(q, n) && Waiters(s, q) == []
    requires q in s.sems && !s.sems[q].doomed
    ensures Reachable(r) && SemFree(r, q) && r.sems == s.sems
  {
    ReachableInv(s);
    assert PosterOk(s, c) && PhasedAt(s, c);
    MemberAt(s.own, Running(c), 0);
    r := Go(s, WakeDone(c));
  }

  lemma WakesBoth(s: State, c: Core, q: nat, t: Tid, u: Tid) returns (r: State)
    requires Reachable(s) && !s.bounded && s.phase[c] == Posting(q, 0) && Waiters(s, q) == [t, u]
    requires q in s.sems && !s.sems[q].doomed
    ensures Reachable(r) && !r.bounded && r.phase[c] == Posting(q, 2) && Waiters(r, q) == []
    ensures q in r.sems && r.sems[q].extra == s.sems[q].extra + 1 && !r.sems[q].doomed
  {
    var a := WakesOne(s, c, q, 0, [t, u]);
    assert [t, u][1..] == [u];
    r := WakesOne(a, c, q, 1, [u]);
  }

  /** As written, one post to two waiters releases both. */
  lemma PostsToTwo(s: State, c: Core, q: nat, t: Tid, u: Tid) returns (r: State)
    requires Reachable(s) && Calls(s, c) && Awaited(s, q, [t, u])
    ensures Reachable(r) && SemFree(r, q) && q in r.sems && r.sems[q].extra == 1
  {
    var a := PostsTo(s, c, q, [t, u]);
    var b := WakesBoth(a, c, q, t, u);
    r := Posts(b, c, q, 2);
  }

  lemma ThirdCore() returns (s: State)
    ensures Reachable(s) && !s.bounded && s.sems == map[] && Calls(s, 0) && Calls(s, 1) && Calls(s, 2)
  {
    var a, t, u := TwoCores();
    var v;
    s, v := Boots(a, 2);
  }

  lemma TwoWait(s: State, q: nat) returns (r: State, t: Tid, u: Tid)
    requires Reachable(s) && Calls(s, 0) && Calls(s, 1) && Calls(s, 2) && Awaited(s, q, [])
    ensures Reachable(r) && Calls(r, 2) && Awaited(r, q, [t, u])
  {
    t, u := First(s, Running(0)), First(s, Running(1));
    var a := WaitsOn(s, 0, q, []);
    assert [] + [t] == [t] && [t] + [u] == [t, u];
    r := WaitsOn(a, 1, q, [t]);
  }

  lemma OneExtra(s: State, q: nat)
    requires Reachable(s) && SemFree(s, q) && q in s.sems && s.sems[q].extra == 1
    ensures s.sems[q].count + s.sems[q].grants != s.sems[q].init + s.sems[q].posts
  {
    Conservation(s, q);
  }

  /** So some run, with the semaphore unlocked at its end, breaks the law that count and grants add up to the initial
      value and the posts. */
  lemma OvergrantExists() returns (s: State, q: nat)
    ensures Reachable(s) && q in s.sems && SemFree(s, q)
    ensures s.sems[q].count + s.sems[q].grants != s.sems[q].init + s.sems[q].posts
  {
    var a := ThirdCore();
    q := 0;
    var b := HasSem(a, 0, q);
    var e, t, u := TwoWait(b, q);
    s := PostsToTwo(e, 2, q, t, u);
    OneExtra(s, q);
  }

  // ---------------------------------------------------------------- destroying a semaphore, and using it again

  lemma DestroysIt(s: State, c: Core, q: nat, waiting: seq<Tid>) returns (r: State)
    requires Reachable(s) && Calls(s, c) && Awaited(s, q, waiting) && waiting != []
    ensures Reachable(r) && !r.bounded && r.phase[c] == Posting(q, 1) && Waiters(r, q) == waiting
    ensures q in r.sems && r.sems[q].doomed && SameThread(s, r, c)
  {
    r := Go(s, SemDestroy(c, q));
  }

  lemma WakesLast(s: State, c: Core, q: nat, t: Tid, u: Tid) returns (r: State)
    requires Reachable(s) && !s.bounded && s.phase[c] == Posting(q, 1) && Waiters(s, q) == [t, u]
    requires q in s.sems && s.sems[q].doomed
    ensures Reachable(r) && Waiters(r, q) == [] && r.phase[c] == Posting(q, 3) && q in r.sems && r.sems[q].doomed
    ensures SameThread(s, r, c)
  {
    var a := WakesOne(s, c, q, 1, [t, u]);
    assert [t, u][1..] == [u];
    r := WakesOne(a, c, q, 2, [u]);
  }

  lemma Finishes(s: State, c: Core, q: nat) returns (r: State)
    requires Reachable(s) && s.phase[c].Posting? && s.phase[c].sem == q && Waiters(s, q) == []
    requires q in s.sems && s.sems[q].doomed
    ensures Reachable(r) && Retired(r, q) && r.phase[c] == Leaving && Waiters(r, q) == [] && SameThread(s, r, c)
  {
    ReachableInv(s);
    assert PosterOk(s, c) && PhasedAt(s, c);
    MemberAt(s.own, Running(c), 0);
    assert Enabled(s, WakeDone(c));
    AllWoken(s, c, q);
    r := Go(s, WakeDone(c));
  }

  /** A semaphore with two waiters is destroyed: none waits any more, and its lock is taken for good. */
  lemma DestroyExists() returns (s: State, q: nat)
    ensures Reachable(s) && Retired(s, q) && Waiters(s, q) == [] && s.phase[2] == Leaving
    ensures Has(s, Running(2)) && FirstTask(s, Running(2)).kind == Thread
  {
    var a := ThirdCore();
    q := 0;
    var b := HasSem(a, 2, q);
    var e, t, u := TwoWait(b, q);
    var f := DestroysIt(e, 2, q, [t, u]);
    var g := WakesLast(f, 2, q, t, u);
    s := Finishes(g, 2, q);
  }

  lemma LeavesAlone(s: State, c: Core) returns (r: State)
    requires Reachable(s) && s.phase[c] == Leaving
    requires Has(s, Running(c)) && FirstTask(s, Running(c)).kind == Thread
    ensures Reachable(r) && Enabled(s, SwitchTo(c)) && r == After(s, SwitchTo(c))
    ensures r.sems == s.sems && r.phase == s.phase[c := User] && Calls(r, c)
  {
    r := Go(s, SwitchTo(c));
  }

  lemma StillRetired(s: State, r: State, q: nat, c: Core)
    requires Retired(s, q) && Shaped(s) && r.sems == s.sems && r.phase == s.phase[c := User]
    ensures Retired(r, q)
  {
    forall d: Core | d < |r.phase| ensures !(r.phase[d].Posting? && r.phase[d].sem == q) {
      assert d != c ==> r.phase[d] == s.phase[d];
    }
  }

  lemma InitsAgain(s: State, c: Core, q: nat, n: nat) returns (r: State)
    requires Reachable(s) && Calls(s, c) && Retired(s, q) && n < UINT32
    ensures Reachable(r) && Enabled(s, SemInit(c, q, n)) && r == After(s, SemInit(c, q, n))
    ensures q in r.sems && r.sems[q] == Sem(n, n, 0, 0, 0, false) && SemFree(r, q)
  {
    r := Go(s, SemInit(c, q, n));
    RetiredStep(s, SemInit(c, q, n), q, r);
  }

  /** And initialised again it is as good as new. */
  lemma ReuseExists() returns (s: State, r: State, u: State, q: nat)
    ensures Reachable(s) && Retired(s, q) && Enabled(s, SwitchTo(2)) && r == After(s, SwitchTo(2))
    ensures Enabled(r, SemInit(2, q, 5)) && u == After(r, SemInit(2, q, 5))
    ensures q in u.sems && u.sems[q].count == 5 && SemFree(u, q)
  {
    s, q := DestroyExists();
    r := LeavesAlone(s, 2);
    StillRetired(s, r, q, 2);
    u := InitsAgain(r, 2, q, 5);
  }
}
