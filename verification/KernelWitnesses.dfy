/** More runs from before boot: a core running a task its mask forbids, a semaphore that refuses the units it has, and
    a sem_wait and a sem_trywait whose answers are lost to a late store. */
module KernelWitnesses {
  import opened Rings
  import opened Placement
  import opened Kernel
  import opened KernelInvariants
  import opened KernelSems
  import opened KernelTheorems
  import opened KernelAffinity
  import opened KernelReturns
  import opened KernelExamples

  // ---------------------------------------------------------------- affinity

  /** The task on core 0 asks to run on core 1 only, and goes on running on core 0. */
  lemma AstrayExists() returns (s: State)
    ensures Reachable(s) && s.phase[0] == Leaving && Has(s, Running(0)) && FirstTask(s, Running(0)).mask == {1}
    ensures !Affine(s, 0)
  {
    var a, t := FirstCore();
    OneTask(a, 0);
    s := Go(a, SetAffinity(0, {1}, QUIET));
  }

  // ---------------------------------------------------------------- sem_trywait

  /** The state `r` is `s` but for these fields, core `c` being in phase `ph`. */
  predicate Turns(s: State, r: State, c: Core, ph: Phase, own: map<Place, seq<Tid>>, tasks: map<Tid, Task>,
                  sems: map<nat, Sem>) {
    && Shaped(s) && Shaped(r) && r.own == own && r.tasks == tasks && r.sems == sems && r.phase == s.phase[c := ph]
    && r.bounded == s.bounded
  }

  lemma Stocks(s: State, c: Core, q: nat, n: nat, t: Tid) returns (r: State)
    requires Reachable(s) && Calls(s, c) && First(s, Running(c)) == t && q !in s.sems && n < UINT32
    ensures Reachable(r)
    ensures Turns(s, r, c, Leaving, s.own, s.tasks[t := s.tasks[t].(ret := 0)], s.sems[q := Sem(n, n, 0, 0, 0, false)])
  {
    r := Go(s, SemInit(c, q, n));
  }

  lemma Resumes(s: State, c: Core, t: Tid) returns (r: State)
    requires Reachable(s) && s.phase[c] == Leaving && At(s.own, Running(c)) == [t] && t in s.tasks
    ensures Reachable(r) && Turns(s, r, c, User, s.own, s.tasks[t := s.tasks[t].(x0 := s.tasks[t].ret)], s.sems)
  {
    r := Go(s, SwitchTo(c));
  }

  /** sem_trywait refuses. */
  lemma Refused(s: State, c: Core, q: nat, t: Tid) returns (r: State)
    requires Reachable(s) && Calls(s, c) && First(s, Running(c)) == t && q in s.sems && SemFree(s, q)
    requires !TryGrants(s.sems[q])
    ensures Reachable(r) && Enabled(s, SemTryWait(c, q)) && r == After(s, SemTryWait(c, q))
    ensures Turns(s, r, c, Leaving, s.own, s.tasks[t := s.tasks[t].(ret := EAGAIN)], s.sems)
  {
    r := Go(s, SemTryWait(c, q));
  }

  lemma UnlockedWhenAlone(s: State, q: nat)
    requires Shaped(s) && (forall c: Core :: !s.phase[c].Posting?) && (q in s.sems ==> !s.sems[q].doomed)
    ensures SemFree(s, q)
  {
  }

  /** One core up, and a semaphore with `n` units. */
  lemma OneCoreWithSem(n: nat) returns (s: State, t: Tid)
    requires n < UINT32
    ensures Reachable(s) && Calls(s, 0) && First(s, Running(0)) == t
    ensures 0 in s.sems && s.sems[0] == Sem(n, n, 0, 0, 0, false) && SemFree(s, 0)
  {
    var a;
    a, t := FirstCore();
    OneTask(a, 0);
    var b := Stocks(a, 0, 0, n, t);
    s := Resumes(b, 0, t);
    UnlockedWhenAlone(s, 0);
  }

  /** A semaphore with more than 2^31 units refuses sem_trywait and keeps them all. */
  lemma RefusesWithUnits() returns (s: State, t: Tid, r: State)
    ensures Reachable(s) && Enabled(s, SemTryWait(0, 0)) && First(s, Running(0)) == t && r == After(s, SemTryWait(0, 0))
    ensures s.sems[0].count > UINT32 / 2 && t in r.tasks && r.tasks[t].ret == EAGAIN && r.sems == s.sems
  {
    s, t := OneCoreWithSem(UINT32 / 2 + 1);
    r := Refused(s, 0, 0, t);
  }

  // ---------------------------------------------------------------- late stores: one lemma for each event

  lemma StaysHere(c: Core, mask: set<Core>)
    requires c in mask
    ensures Plausible(QUIET) && PickCpu(c, mask, QUIET) == c
  {
  }

  lemma Widens(s: State, c: Core, t: Tid, mask: set<Core>) returns (r: State)
    requires Reachable(s) && Calls(s, c) && First(s, Running(c)) == t && s.tasks[t].prio == PRIORITY_MED && c in mask
    ensures Reachable(r)
    ensures Turns(s, r, c, Scan(PRIORITY_HIGH), Move(s.own, Running(c), 0, Ready(c, PRIORITY_MED)),
                  s.tasks[t := s.tasks[t].(mask := mask, ret := 0)], s.sems)
  {
    StaysHere(c, mask);
    r := Go(s, SetAffinity(c, mask, QUIET));
  }

  lemma GivesWay(s: State, c: Core, t: Tid) returns (r: State)
    requires Reachable(s) && Calls(s, c) && First(s, Running(c)) == t && s.tasks[t].prio == PRIORITY_MED
    requires c in s.tasks[t].mask
    ensures Reachable(r)
    ensures Turns(s, r, c, Scan(PRIORITY_HIGH), Move(s.own, Running(c), 0, Ready(c, PRIORITY_MED)), s.tasks, s.sems)
  {
    StaysHere(c, s.tasks[t].mask);
    r := Go(s, Resched(c, QUIET));
  }

  lemma LooksPast(s: State, c: Core, p: Prio) returns (r: State)
    requires Reachable(s) && s.phase[c] == Scan(p) && p > 0 && At(s.own, Ready(c, p)) == []
    ensures Reachable(r) && Turns(s, r, c, Scan(p - 1), s.own, s.tasks, s.sems)
  {
    r := Go(s, Look(c));
  }

  lemma LooksAt(s: State, c: Core, p: Prio) returns (r: State)
    requires Reachable(s) && s.phase[c] == Scan(p) && At(s.own, Ready(c, p)) != []
    ensures Reachable(r) && Turns(s, r, c, Leaving, Move(s.own, Ready(c, p), 0, Running(c)), s.tasks, s.sems)
  {
    r := Go(s, Look(c));
  }

  lemma WaitsFor(s: State, c: Core, q: nat, t: Tid) returns (r: State)
    requires Reachable(s) && Calls(s, c) && First(s, Running(c)) == t && q in s.sems && SemFree(s, q)
    requires s.sems[q].count == 0
    ensures Reachable(r) && Turns(s, r, c, Returning(t), Move(s.own, Running(c), 0, Wait(SemQ(q))), s.tasks, s.sems)
  {
    r := Go(s, SemWait(c, q));
  }

  lemma PostsOn(s: State, c: Core, q: nat) returns (r: State)
    requires Reachable(s) && Calls(s, c) && q in s.sems && SemFree(s, q) && Waiters(s, q) != []
    ensures Reachable(r)
    ensures Turns(s, r, c, Posting(q, 0), s.own, s.tasks, s.sems[q := s.sems[q].(posts := s.sems[q].posts + 1)])
  {
    r := Go(s, SemPost(c, q));
  }

  lemma WakesTo(s: State, c: Core, q: nat, t: Tid) returns (r: State)
    requires Reachable(s) && s.phase[c] == Posting(q, 0) && q in s.sems && Waiters(s, q) == [t]
    requires t in s.tasks && c in s.tasks[t].mask && s.tasks[t].prio == PRIORITY_MED
    ensures Reachable(r)
    ensures Turns(s, r, c, Posting(q, 1), Move(s.own, Wait(SemQ(q)), 0, Ready(c, PRIORITY_MED)), s.tasks,
                  s.sems[q := s.sems[q].(grants := s.sems[q].grants + 1)])
  {
    StaysHere(c, s.tasks[t].mask);
    r := Go(s, Wake(c, QUIET));
  }

  lemma PostDone(s: State, c: Core, q: nat, u: Tid) returns (r: State)
    requires Reachable(s) && s.phase[c] == Posting(q, 1) && Waiters(s, q) == [] && At(s.own, Running(c)) == [u]
    requires u in s.tasks
    ensures Reachable(r) && Turns(s, r, c, Leaving, s.own, s.tasks[u := s.tasks[u].(ret := 0)], s.sems)
  {
    r := Go(s, WakeDone(c));
  }

  lemma StoresLate(s: State, c: Core, t: Tid) returns (r: State)
    requires Reachable(s) && s.phase[c] == Returning(t) && t in s.tasks
    ensures Reachable(r) && Enabled(s, Return(c)) && r == After(s, Return(c))
    ensures Turns(s, r, c, Scan(PRIORITY_HIGH), s.own, s.tasks[t := s.tasks[t].(ret := 0)], s.sems)
  {
    r := Go(s, Return(c));
  }

  // ---------------------------------------------------------------- late stores: the run

  /** Core `c`: its phase, the task on it, and its run queues above idle. */
  predicate Desk(s: State, c: Core, ph: Phase, run: seq<Tid>, med: seq<Tid>) {
    && Shaped(s) && s.phase[c] == ph && At(s.own, Running(c)) == run && At(s.own, Ready(c, PRIORITY_MED)) == med
    && At(s.own, Ready(c, PRIORITY_HIGH)) == []
  }

  /** Task `t` is a thread of middle priority with this mask. */
  predicate Card(s: State, t: Tid, mask: set<Core>) {
    t in s.tasks && s.tasks[t].kind == Thread && s.tasks[t].prio == PRIORITY_MED && s.tasks[t].mask == mask
  }

  /** The semaphore of the example, at 0 and unlocked. */
  predicate Spent(s: State, waiting: seq<Tid>) {
    Shaped(s) && 0 in s.sems && s.sems[0].count == 0 && SemFree(s, 0) && Waiters(s, 0) == waiting
  }

  lemma Up(s: State, c: Core) returns (r: State, t: Tid)
    requires Reachable(s) && s.phase[c] == Off && forall p: Prio :: At(s.own, Ready(c, p)) == []
    ensures Reachable(r) && Aside(s, r, c) && Desk(r, c, User, [t], []) && Card(r, t, {c}) && t !in s.tasks
  {
    r, t := Boots(s, c);
    OneTask(r, c);
  }

  lemma FirstUp() returns (s: State, t: Tid)
    ensures Reachable(s) && Desk(s, 0, User, [t], []) && Card(s, t, {0}) && s.sems == map[]
    ensures s.phase == [User, Off, Off, Off] && forall p: Prio :: At(s.own, Ready(1, p)) == []
  {
    PreBootReachable();
    s, t := Up(PreBoot(), 0);
  }

  lemma SecondUp() returns (s: State, t: Tid, u: Tid)
    ensures Reachable(s) && t != u && s.sems == map[] && s.phase == [User, User, Off, Off]
    ensures Desk(s, 0, User, [t], []) && Desk(s, 1, User, [u], []) && Card(s, t, {0}) && Card(s, u, {1})
  {
    var a;
    a, t := FirstUp();
    s, u := Up(a, 1);
  }

  /** next() and switch_to on core `c`, the first queued task of middle priority going on. */
  lemma Picks(s: State, c: Core, x: Tid, rest: seq<Tid>) returns (r: State)
    requires Reachable(s) && Desk(s, c, Scan(PRIORITY_HIGH), [], [x] + rest) && x in s.tasks
    ensures Reachable(r)
    ensures Turns(s, r, c, User, Move(s.own, Ready(c, PRIORITY_MED), 0, Running(c)),
                  s.tasks[x := s.tasks[x].(x0 := s.tasks[x].ret)], s.sems)
    ensures Desk(r, c, User, [x], rest)
  {
    var a := LooksPast(s, c, PRIORITY_HIGH);
    var b := LooksAt(a, c, PRIORITY_MED);
    r := Resumes(b, c, x);
  }

  /** Core 0's task may now run on core 1 as well. */
  lemma Wide() returns (s: State, t: Tid, u: Tid)
    ensures Reachable(s) && t != u && s.sems == map[] && s.phase == [User, User, Off, Off]
    ensures Desk(s, 0, User, [t], []) && Desk(s, 1, User, [u], []) && Card(s, t, {0, 1}) && Card(s, u, {1})
  {
    var a;
    a, t, u := SecondUp();
    var b := Widens(a, 0, t, {0, 1});
    s := Picks(b, 0, t, []);
  }

  /** It has called sem_trywait on an empty semaphore. */
  lemma TriedInVain() returns (s: State, t: Tid, u: Tid)
    ensures Reachable(s) && t != u && Spent(s, []) && s.phase == [User, User, Off, Off]
    ensures Desk(s, 0, User, [t], []) && Desk(s, 1, User, [u], []) && Card(s, t, {0, 1}) && Card(s, u, {1})
    ensures s.tasks[t].ret == EAGAIN
  {
    var a;
    a, t, u := Wide();
    UnknownFree(a, 0);
    var b := Stocks(a, 0, 0, 0, t);
    var d := Resumes(b, 0, t);
    UnlockedWhenAlone(d, 0);
    var e := Refused(d, 0, 0, t);
    s := Resumes(e, 0, t);
    UnlockedWhenAlone(s, 0);
  }

  /** It waits on that semaphore; core 0 has let go of the lock but not yet stored the return value. */
  lemma Waiting() returns (s: State, t: Tid, u: Tid)
    ensures Reachable(s) && t != u && Spent(s, [t]) && s.phase == [Returning(t), User, Off, Off]
    ensures Desk(s, 1, User, [u], []) && Card(s, t, {0, 1}) && Card(s, u, {1}) && s.tasks[t].ret == EAGAIN
  {
    var a;
    a, t, u := TriedInVain();
    s := WaitsFor(a, 0, 0, t);
    UnlockedWhenAlone(s, 0);
  }

  lemma Posted(s: State, t: Tid, u: Tid) returns (r: State)
    requires Reachable(s) && t != u && Spent(s, [t]) && s.phase == [Returning(t), User, Off, Off]
    requires Desk(s, 1, User, [u], []) && Card(s, t, {0, 1}) && Card(s, u, {1}) && s.tasks[t].ret == EAGAIN
    ensures Reachable(r) && r.phase == [Returning(t), Posting(0, 1), Off, Off] && Waiters(r, 0) == []
    ensures Desk(r, 1, Posting(0, 1), [u], [t]) && r.tasks == s.tasks
    ensures 0 in r.sems && r.sems[0].count == 0 && !r.sems[0].doomed
  {
    var a := PostsOn(s, 1, 0);
    r := WakesTo(a, 1, 0, t);
  }

  /** Core 1's task posts: the waiter is queued on core 1. */
  lemma Woken() returns (s: State, t: Tid, u: Tid)
    ensures Reachable(s) && t != u && Spent(s, []) && s.phase == [Returning(t), User, Off, Off]
    ensures Desk(s, 1, User, [u], [t]) && Card(s, t, {0, 1}) && Card(s, u, {1}) && s.tasks[t].ret == EAGAIN
  {
    var a;
    a, t, u := Waiting();
    var b := Posted(a, t, u);
    var d := PostDone(b, 1, 0, u);
    s := Resumes(d, 1, u);
    UnlockedWhenAlone(s, 0);
  }

  lemma GaveWay() returns (s: State, t: Tid, u: Tid)
    ensures Reachable(s) && t != u && Spent(s, []) && s.phase == [Returning(t), Scan(PRIORITY_HIGH), Off, Off]
    ensures Desk(s, 1, Scan(PRIORITY_HIGH), [], [t, u]) && Card(s, t, {0, 1}) && s.tasks[t].ret == EAGAIN
  {
    var a;
    a, t, u := Woken();
    s := GivesWay(a, 1, u);
    UnlockedWhenAlone(s, 0);
  }

  lemma StillSpent(s: State, r: State, waiting: seq<Tid>)
    requires Spent(s, waiting) && Shaped(r) && r.sems == s.sems && Waiters(r, 0) == waiting
    requires forall c: Core :: !r.phase[c].Posting?
    ensures Spent(r, waiting) == true
  {
  }

  /** Then core 1's task gives way, and the waiter enters user mode on core 1 before core 0 has stored its return
      value: its sem_wait has returned EAGAIN, what its last call returned. */
  lemma StaleReturn() returns (s: State, t: Tid)
    ensures Reachable(s) && Spent(s, []) && s.phase[0] == Returning(t) && Calls(s, 1) && First(s, Running(1)) == t
    ensures s.tasks[t].x0 == EAGAIN
  {
    var a, u;
    a, t, u := GaveWay();
    s := Picks(a, 1, t, [u]);
    StillSpent(a, s, []);
  }

  /** And the store that is still to come spoils the answer of its next call: a sem_trywait that has taken no unit
      returns 0. */
  lemma SpoiledAnswer() returns (s: State, t: Tid, r: State, u: State, out: State)
    ensures Reachable(s) && Spent(s, []) && Enabled(s, SemTryWait(1, 0)) && First(s, Running(1)) == t
    ensures r == After(s, SemTryWait(1, 0))
    ensures t in r.tasks && r.tasks[t].ret == EAGAIN && r.sems == s.sems
    ensures Enabled(r, Return(0)) && u == After(r, Return(0)) && Goes(u, 1, t, out)
    ensures t in out.tasks && out.tasks[t].x0 == 0
  {
    s, t := StaleReturn();
    OneTask(s, 1);
    r := Refused(s, 1, 0, t);
    u := StoresLate(r, 0, t);
    out := After(u, SwitchTo(1));
    GoesWith(u, 1, t, out);
  }
}
