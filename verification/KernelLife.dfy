/** The life of a task, in one run from before boot: made on core 0 to run on core 1, it starts there with its argument,
    is joined, exits, and its exit value reaches the task that joined it. */
module KernelLife {
  import opened Rings
  import opened Placement
  import opened Kernel
  import opened KernelInvariants
  import opened KernelJoins
  import opened KernelTheorems
  import opened KernelReturns
  import opened KernelExamples
  import opened KernelWitnesses

  /** The state `r` is `s` but for these fields, core `c` being in phase `ph`. */
  predicate Does(s: State, r: State, c: Core, ph: Phase, own: map<Place, seq<Tid>>, tasks: map<Tid, Task>,
                 registered: set<Tid>, cells: map<nat, int>) {
    && Shaped(s) && Shaped(r) && r.phase == s.phase[c := ph] && r.own == own && r.tasks == tasks
    && r.registered == registered && r.cells == cells
  }

  // One lemma for each event.

  lemma CreatesOn(s: State, c: Core, t: Tid, v: Tid, thread: nat, mask: set<Core>, arg: int) returns (r: State)
    requires Reachable(s) && Calls(s, c) && First(s, Running(c)) == t && v == s.nextPid
    ensures Reachable(r) && Enabled(s, Create(c, thread, mask, arg)) && r == After(s, Create(c, thread, mask, arg))
    ensures Does(s, r, c, Making(false, ThenReturn), Append(s.own, Hand(c), v),
                 s.tasks[t := s.tasks[t].(ret := 0)][v := Task(PRIORITY_MED, mask, Thread, arg, 0, Null)],
                 s.registered, s.cells[thread := v])
  {
    r := Go(s, Create(c, thread, mask, arg));
  }

  lemma RegistersIt(s: State, c: Core, v: Tid) returns (r: State)
    requires Reachable(s) && s.phase[c] == Making(false, ThenReturn) && At(s.own, Hand(c)) == [v] && v in s.tasks
    ensures Reachable(r)
    ensures Does(s, r, c, Making(true, ThenReturn), s.own, s.tasks, s.registered + {v}, s.cells)
  {
    r := Go(s, Register(c));
  }

  lemma GoesThere(c: Core, d: Core)
    ensures Plausible(QUIET) && PickCpu(c, {d}, QUIET) == d
  {
    PickCpuObeys(c, {d}, QUIET);
  }

  lemma StartsThere(s: State, c: Core, v: Tid, d: Core) returns (r: State)
    requires Reachable(s) && s.phase[c] == Making(true, ThenReturn) && At(s.own, Hand(c)) == [v] && v in s.tasks
    requires s.tasks[v].mask == {d} && s.tasks[v].prio == PRIORITY_MED
    ensures Reachable(r)
    ensures Does(s, r, c, Leaving, Move(s.own, Hand(c), 0, Ready(d, PRIORITY_MED)), s.tasks, s.registered, s.cells)
  {
    GoesThere(c, d);
    r := Go(s, Start(c, QUIET));
  }

  lemma EntersUser(s: State, c: Core, t: Tid) returns (r: State)
    requires Reachable(s) && s.phase[c] == Leaving && At(s.own, Running(c)) == [t] && t in s.tasks
    ensures Reachable(r) && Goes(s, c, t, r)
    ensures Does(s, r, c, User, s.own, s.tasks[t := s.tasks[t].(x0 := s.tasks[t].ret)], s.registered, s.cells)
  {
    r := Go(s, SwitchTo(c));
  }

  lemma YieldsOn(s: State, c: Core, u: Tid) returns (r: State)
    requires Reachable(s) && s.phase[c] == User && At(s.own, Running(c)) == [u] && u in s.tasks
    requires s.tasks[u].mask == {c} && s.tasks[u].prio == PRIORITY_MED
    ensures Reachable(r)
    ensures Does(s, r, c, Scan(PRIORITY_HIGH), Move(s.own, Running(c), 0, Ready(c, PRIORITY_MED)), s.tasks,
                 s.registered, s.cells)
  {
    GoesThere(c, c);
    r := Go(s, Resched(c, QUIET));
  }

  lemma LooksOn(s: State, c: Core) returns (r: State)
    requires Reachable(s) && s.phase[c] == Scan(PRIORITY_HIGH) && At(s.own, Ready(c, PRIORITY_HIGH)) == []
    ensures Reachable(r) && Does(s, r, c, Scan(PRIORITY_MED), s.own, s.tasks, s.registered, s.cells)
  {
    r := Go(s, Look(c));
  }

  lemma TakesIt(s: State, c: Core) returns (r: State)
    requires Reachable(s) && s.phase[c] == Scan(PRIORITY_MED) && At(s.own, Ready(c, PRIORITY_MED)) != []
    ensures Reachable(r)
    ensures Does(s, r, c, Leaving, Move(s.own, Ready(c, PRIORITY_MED), 0, Running(c)), s.tasks, s.registered, s.cells)
  {
    r := Go(s, Look(c));
  }

  lemma JoinsIt(s: State, c: Core, t: Tid, v: Tid, a: nat) returns (r: State)
    requires Reachable(s) && Calls(s, c) && First(s, Running(c)) == t && v in s.registered && v != 0 && v != t
    ensures Reachable(r)
    ensures Does(s, r, c, Looked(v), s.own, s.tasks[t := s.tasks[t].(status := Cell(a))], s.registered, s.cells)
  {
    r := Go(s, JoinLookup(c, v, Cell(a)));
  }

  lemma SleepsOnIt(s: State, c: Core, v: Tid) returns (r: State)
    requires Reachable(s) && s.phase[c] == Looked(v) && Has(s, Running(c)) && JoinFree(s, v)
    ensures Reachable(r)
    ensures Does(s, r, c, Scan(PRIORITY_HIGH), Move(s.own, Running(c), 0, Wait(JoinQ(v))), s.tasks, s.registered,
                 s.cells)
  {
    r := Go(s, JoinSleep(c));
  }

  lemma ExitsWith(s: State, c: Core, v: Tid, value: int) returns (r: State)
    requires Reachable(s) && Calls(s, c) && First(s, Running(c)) == v
    ensures Reachable(r)
    ensures Does(s, r, c, Dying(v, value), Drop(s.own, Running(c), 0), s.tasks, s.registered, s.cells)
  {
    r := Go(s, Exit(c, value));
  }

  lemma BuriesIt(s: State, c: Core, v: Tid, value: int) returns (r: State)
    requires Reachable(s) && s.phase[c] == Dying(v, value) && JoinFree(s, v)
    ensures Reachable(r) && Does(s, r, c, Burying(v, value, 0), s.own, s.tasks, s.registered, s.cells)
  {
    r := Go(s, Bury(c));
  }

  lemma WakesIt(s: State, c: Core, v: Tid, value: int, t: Tid, a: nat, d: Core) returns (r: State)
    requires Reachable(s) && s.phase[c] == Burying(v, value, 0) && At(s.own, Wait(JoinQ(v))) == [t] && t in s.tasks
    requires s.tasks[t].mask == {d} && s.tasks[t].prio == PRIORITY_MED && s.tasks[t].status == Cell(a)
    ensures Reachable(r)
    ensures Does(s, r, c, Burying(v, value, 1), Move(s.own, Wait(JoinQ(v)), 0, Ready(d, PRIORITY_MED)),
                 s.tasks[t := s.tasks[t].(ret := 0)], s.registered, s.cells[a := value])
  {
    GoesThere(c, d);
    r := Go(s, Wake(c, QUIET));
  }

  // ---------------------------------------------------------------- the run

  /** Cores 0 and 1 are in these phases and run these tasks, their queues of middle priority hold these, the queues
      above are empty; and these tasks have joined `v`. */
  predicate Stage(s: State, ph0: Phase, run0: seq<Tid>, med0: seq<Tid>, ph1: Phase, run1: seq<Tid>, med1: seq<Tid>,
                  v: Tid, joined: seq<Tid>) {
    && s.phase == [ph0, ph1, Off, Off] && Desk(s, 0, ph0, run0, med0) && Desk(s, 1, ph1, run1, med1)
    && At(s.own, Wait(JoinQ(v))) == joined
  }

  /** Task `t` is tied to core 0, tasks `u` and `v` to core 1; `v` is in the table, and its pid in cell 3. */
  predicate Cast(s: State, t: Tid, u: Tid, v: Tid) {
    && t != u && u != v && t != v && v > 0 && Card(s, t, {0}) && Card(s, u, {1}) && Card(s, v, {1})
    && v in s.registered && 3 in s.cells && s.cells[3] == v
  }

  lemma Unmade(s: State, c: Core)
    requires Reachable(s) && s.phase[c] == User
    ensures At(s.own, Hand(c)) == [] && s.nextPid !in s.tasks && s.nextPid > 0
    ensures At(s.own, Wait(JoinQ(s.nextPid))) == []
  {
    ReachableInv(s);
    assert PhasedAt(s, c);
    NobodyJoined(s, s.nextPid);
  }

  /** Core 0's task `t` makes task `v` for core 1, with argument 7, and wants its pid in cell 3. */
  lemma Named() returns (s: State, t: Tid, u: Tid, v: Tid)
    ensures Reachable(s) && At(s.own, Hand(0)) == [v] && Cast(s, t, u, v) && s.tasks[v].ret == 7
    ensures Stage(s, Making(true, ThenReturn), [t], [], User, [u], [], v, []) == true
  {
    var a;
    a, t, u := SecondUp();
    Unmade(a, 0);
    v := a.nextPid;
    var b := CreatesOn(a, 0, t, v, 3, {1}, 7);
    s := RegistersIt(b, 0, v);
  }

  lemma Sent() returns (s: State, t: Tid, u: Tid, v: Tid)
    ensures Reachable(s) && Cast(s, t, u, v) && s.tasks[v].ret == 7
    ensures Stage(s, Leaving, [t], [], User, [u], [v], v, []) == true
  {
    var a;
    a, t, u, v := Named();
    s := StartsThere(a, 0, v, 1);
  }

  lemma Answered() returns (s: State, t: Tid, u: Tid, v: Tid)
    ensures Reachable(s) && Cast(s, t, u, v) && s.tasks[v].ret == 7
    ensures Stage(s, User, [t], [], User, [u], [v], v, []) == true
  {
    var a;
    a, t, u, v := Sent();
    s := EntersUser(a, 0, t);
  }

  lemma GivenWay() returns (s: State, t: Tid, u: Tid, v: Tid)
    ensures Reachable(s) && Cast(s, t, u, v) && s.tasks[v].ret == 7
    ensures Stage(s, User, [t], [], Scan(PRIORITY_HIGH), [], [v, u], v, []) == true
  {
    var a;
    a, t, u, v := Answered();
    s := YieldsOn(a, 1, u);
  }

  lemma Taken() returns (s: State, t: Tid, u: Tid, v: Tid)
    ensures Reachable(s) && Cast(s, t, u, v) && s.tasks[v].ret == 7
    ensures Stage(s, User, [t], [], Leaving, [v], [u], v, []) == true
  {
    var a;
    a, t, u, v := GivenWay();
    var b := LooksOn(a, 1);
    s := TakesIt(b, 1);
  }

  /** A new task starts on a core that it may run on, with its argument in X0. */
  lemma Begun() returns (s: State, t: Tid, u: Tid, v: Tid)
    ensures Reachable(s) && Cast(s, t, u, v) && s.tasks[v].x0 == 7
    ensures Stage(s, User, [t], [], User, [v], [u], v, []) == true
  {
    var a;
    a, t, u, v := Taken();
    s := EntersUser(a, 1, v);
  }

  lemma Asking() returns (s: State, t: Tid, u: Tid, v: Tid)
    ensures Reachable(s) && Cast(s, t, u, v) && s.tasks[t].status == Cell(5)
    ensures Stage(s, Looked(v), [t], [], User, [v], [u], v, []) == true
  {
    var a;
    a, t, u, v := Begun();
    s := JoinsIt(a, 0, t, v, 5);
  }

  /** Task `t` waits for it to exit. */
  lemma Asleep() returns (s: State, t: Tid, u: Tid, v: Tid)
    ensures Reachable(s) && Cast(s, t, u, v) && s.tasks[t].status == Cell(5)
    ensures Stage(s, Scan(PRIORITY_HIGH), [], [], User, [v], [u], v, [t]) == true
  {
    var a;
    a, t, u, v := Asking();
    s := SleepsOnIt(a, 0, v);
  }

  /** The task exits with 9. */
  lemma Exited() returns (s: State, t: Tid, u: Tid, v: Tid)
    ensures Reachable(s) && Cast(s, t, u, v) && s.tasks[t].status == Cell(5)
    ensures Stage(s, Scan(PRIORITY_HIGH), [], [], Burying(v, 9, 0), [], [u], v, [t]) == true
  {
    var a;
    a, t, u, v := Asleep();
    var b := ExitsWith(a, 1, v, 9);
    s := BuriesIt(b, 1, v, 9);
  }

  lemma Awake() returns (s: State, t: Tid, u: Tid, v: Tid)
    ensures Reachable(s) && Cast(s, t, u, v) && s.tasks[t].ret == 0 && 5 in s.cells && s.cells[5] == 9
    ensures Stage(s, Scan(PRIORITY_HIGH), [], [t], Burying(v, 9, 1), [], [u], v, []) == true
  {
    var a;
    a, t, u, v := Exited();
    s := WakesIt(a, 1, v, 9, t, 5, 0);
  }

  lemma Resumed() returns (s: State, t: Tid, u: Tid, v: Tid)
    ensures Reachable(s) && Cast(s, t, u, v) && s.tasks[t].ret == 0 && 5 in s.cells && s.cells[5] == 9
    ensures Stage(s, Leaving, [t], [], Burying(v, 9, 1), [], [u], v, []) == true
  {
    var a;
    a, t, u, v := Awake();
    var b := LooksOn(a, 0);
    s := TakesIt(b, 0);
  }

  /** The whole of it: the task that joined is back in user mode on its core, its call has answered 0, its cells hold
      the pid and the exit value of the task it made. */
  lemma WholeLife() returns (s: State, t: Tid, u: Tid, v: Tid)
    ensures Reachable(s) && Cast(s, t, u, v) && s.tasks[t].x0 == 0 && s.cells[3] == v && 5 in s.cells && s.cells[5] == 9
    ensures Stage(s, User, [t], [], Burying(v, 9, 1), [], [u], v, []) == true
  {
    var a;
    a, t, u, v := Resumed();
    s := EntersUser(a, 0, t);
  }
}
