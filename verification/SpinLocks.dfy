/** The spinlocks of multicore.c under every interleaving of the cores, and the order in which the kernel takes them.

    Each core has a script: what the system calls and ticks it is going to run do to the locks. A core whose next lock
    is taken stays where it is; that is one more turn of `while (__sync_lock_test_and_set(&lock->flag, 1))`. */
module SpinLocks {
  import opened Placement

  datatype Lock = Queue(core: Core) | Sem(q: nat) | Waiting(task: nat) | ProcessList | ProcessHash | Newlib

  datatype Action =
    | Acquire(lock: Lock)
    | Release(lock: Lock)
    | Clear(lock: Lock)       // __sem_init stores 0 in the flag, whoever holds the lock
    | Forget(lock: Lock)      // __sem_destroy returns: nobody is going to release the lock any more

  /** The flags that are set, what each core still has to do, and (as history) what each holds. */
  datatype State = State(locked: set<Lock>, script: seq<seq<Action>>, holds: seq<set<Lock>>)

  predicate Shaped(s: State) {
    |s.script| == NUM_CORES && |s.holds| == NUM_CORES
  }

  // ---------------------------------------------------------------- steps

  /** The locks held after an action of the core that held these. */
  function Holding(held: set<Lock>, a: Action): set<Lock> {
    match a
    case Acquire(l) => held + {l}
    case Release(l) => held - {l}
    case Clear(l) => held
    case Forget(l) => held - {l}
  }

  /** The flags set after an action that can happen. */
  function Flags(locked: set<Lock>, a: Action): set<Lock> {
    match a
    case Acquire(l) => locked + {l}
    case Release(l) => locked - {l}
    case Clear(l) => locked - {l}
    case Forget(l) => locked
  }

  /** The core's next turn takes it further. */
  predicate CanGo(s: State, c: Core)
    requires Shaped(s)
  {
    s.script[c] != [] && !(s.script[c][0].Acquire? && s.script[c][0].lock in s.locked)
  }

  /** One test-and-set, or one store. */
  function After(s: State, c: Core): (r: State)
    requires Shaped(s)
    ensures Shaped(r)
  {
    if CanGo(s, c) then
      var a := s.script[c][0];
      State(Flags(s.locked, a), s.script[c := s.script[c][1..]], s.holds[c := Holding(s.holds[c], a)])
    else s
  }

  function End(s: State, turns: seq<Core>): (r: State)
    requires Shaped(s)
    ensures Shaped(r)
    decreases turns
  {
    if turns == [] then s else End(After(s, turns[0]), turns[1..])
  }

  // ---------------------------------------------------------------- the lock order

  /** A core takes and initialises no lock that it holds, and gives up only what it holds. */
  predicate Permits(held: set<Lock>, a: Action) {
    if a.Acquire? || a.Clear? then a.lock !in held else a.lock in held
  }

  /** The script does so throughout, and ends with nothing held. */
  predicate Paired(held: set<Lock>, script: seq<Action>)
    decreases |script|
  {
    if script == [] then held == {} else Permits(held, script[0]) && Paired(Holding(held, script[0]), script[1..])
  }

  /** Semaphore, wait-queue and process-list locks come before run-queue and hash locks. */
  function Rank(l: Lock): nat {
    if l.Queue? || l.ProcessHash? then 1 else 0
  }

  /** Locks are taken in increasing rank, and only semaphores are initialised and destroyed. */
  predicate InOrder(held: set<Lock>, a: Action) {
    match a
    case Acquire(l) => forall h :: h in held ==> Rank(h) < Rank(l)
    case Release(l) => true
    case _ => a.lock.Sem?
  }

  predicate Ordered(held: set<Lock>, script: seq<Action>)
    decreases |script|
  {
    if script == [] then held == {} else
      Permits(held, script[0]) && InOrder(held, script[0]) && Ordered(Holding(held, script[0]), script[1..])
  }

  lemma {:induction false} OrderedPaired(held: set<Lock>, script: seq<Action>)
    requires Ordered(held, script)
    ensures Paired(held, script)
    decreases |script|
  {
    if script != [] { OrderedPaired(Holding(held, script[0]), script[1..]); }
  }

  lemma {:induction false} OrderedThen(held: set<Lock>, a: seq<Action>, b: seq<Action>)
    requires Ordered(held, a) && Ordered({}, b)
    ensures Ordered(held, a + b)
    decreases |a|
  {
    if a == [] {
      assert a + b == b;
    } else {
      assert (a + b)[1..] == a[1..] + b;
      OrderedThen(Holding(held, a[0]), a[1..], b);
    }
  }

  // ---------------------------------------------------------------- what the kernel's calls lock

  function Section(l: Lock): seq<Action> {
    [Acquire(l), Release(l)]
  }

  /** ready() for each of several tasks, on the cores sched_pickcpu chose. */
  function Readies(to: seq<Core>): seq<Action> {
    if to == [] then [] else Section(Queue(to[0])) + Readies(to[1..])
  }

  /** The lock of the core's own queue, taken again and again: next() looks into up to four lists. */
  function OwnQueue(me: Core, n: nat): seq<Action> {
    if n == 0 then [] else Section(Queue(me)) + OwnQueue(me, n - 1)
  }

  /** The rest of proc_exit: a traced task reports first. */
  function Leaves(me: Core, traced: bool, n: nat): seq<Action> {
    (if traced then Section(Newlib) else []) + OwnQueue(me, n)
  }

  datatype Call =
    | Create(to: Core)
    | Join(task: nat, found: bool, looks: nat)
    | Exit(task: nat, joiners: seq<Core>, traced: bool, looks: nat)
    | Wait(q: nat, blocks: bool, looks: nat)
    | TryWait(q: nat)
    | Post(q: nat, woken: seq<Core>)
    | GetValue(q: nat)
    | Init(q: nat)
    | Destroy(q: nat, woken: seq<Core>)
    | Pull(busy: Core)                          // sched_pull on a tick
    | Yield(to: Core, looks: nat)
    | Library                                   // SYS_PUTS and SYS_MALLOC
    | First(looks: nat)                         // next() at the end of kernel_start

  function Script(me: Core, call: Call): seq<Action> {
    match call
    case Create(to) =>
      Section(Newlib) + ([Acquire(ProcessList)] + Section(ProcessHash) + [Release(ProcessList)] + Section(Queue(to)))
    case Join(t, found, looks) => Section(ProcessHash) + if found then Section(Waiting(t)) + OwnQueue(me, looks) else []
    case Exit(t, joiners, traced, looks) =>
      [Acquire(Waiting(t))] + (Readies(joiners) + [Release(Waiting(t))]) + Leaves(me, traced, looks)
    case Wait(q, blocks, looks) => Section(Sem(q)) + if blocks then OwnQueue(me, looks) else []
    case TryWait(q) => Section(Sem(q))
    case Post(q, woken) => [Acquire(Sem(q))] + (Readies(woken) + [Release(Sem(q))])
    case GetValue(q) => Section(Sem(q))
    case Init(q) => [Clear(Sem(q))]
    case Destroy(q, woken) => [Acquire(Sem(q))] + (Readies(woken) + [Forget(Sem(q))])
    // KernelTheorems.PullIsDead: no task is ever made ready in between.
    case Pull(busy) => if busy == me then [] else Section(Queue(busy))
    case Yield(to, looks) => Section(Queue(to)) + OwnQueue(me, looks)
    case Library => Section(Newlib)
    case First(looks) => OwnQueue(me, looks)
  }

  lemma SectionOrdered(l: Lock)
    ensures Ordered({}, Section(l))
  {
    assert Section(l)[1..] == [Release(l)] && Section(l)[1..][1..] == [];
    assert {} + {l} - {l} == {};
  }

  lemma {:induction false} OwnQueueOrdered(me: Core, n: nat)
    ensures Ordered({}, OwnQueue(me, n))
  {
    if n > 0 {
      SectionOrdered(Queue(me));
      OwnQueueOrdered(me, n - 1);
      OrderedThen({}, Section(Queue(me)), OwnQueue(me, n - 1));
    }
  }

  lemma LeavesOrdered(me: Core, traced: bool, n: nat)
    ensures Ordered({}, Leaves(me, traced, n))
  {
    OwnQueueOrdered(me, n);
    SectionOrdered(Newlib);
    OrderedThen({}, Section(Newlib), OwnQueue(me, n));
    assert [] + OwnQueue(me, n) == OwnQueue(me, n);
  }

  lemma SectionParts(held: set<Lock>, l: Lock, rest: seq<Action>)
    requires l !in held
    ensures var s := Section(l) + rest;
      s[0] == Acquire(l) && s[1..][0] == Release(l) && s[1..][1..] == rest && held + {l} - {l} == held
  {
    assert (Section(l) + rest)[1..] == [Release(l)] + rest;
  }

  lemma SectionThen(held: set<Lock>, l: Lock, rest: seq<Action>)
    requires InOrder(held, Acquire(l)) && l !in held && Ordered(held, rest)
    ensures Ordered(held, Section(l) + rest)
  {
    SectionParts(held, l, rest);
    var s := Section(l) + rest;
    assert Ordered(held + {l}, s[1..]);
  }

  /** Gives up the lock, in either way. */
  predicate GivesUp(last: Action) {
    Rank(last.lock) == 0 && (last.Release? || (last.Forget? && last.lock.Sem?))
  }

  /** Tasks are made ready one after the other while the lock of their wait queue is held. */
  lemma {:induction false} ReadiesOrdered(to: seq<Core>, last: Action)
    requires GivesUp(last)
    ensures Ordered({last.lock}, Readies(to) + [last])
  {
    var l := last.lock;
    if to == [] {
      assert Readies(to) + [last] == [last] && [last][1..] == [] && {l} - {l} == {};
    } else {
      var q, rest := Queue(to[0]), Readies(to[1..]) + [last];
      ReadiesOrdered(to[1..], last);
      SectionThen({l}, q, rest);
      assert Readies(to) + [last] == Section(q) + rest;
    }
  }

  lemma WakingOrdered(to: seq<Core>, last: Action)
    requires GivesUp(last)
    ensures Ordered({}, [Acquire(last.lock)] + (Readies(to) + [last]))
  {
    ReadiesOrdered(to, last);
    var s := [Acquire(last.lock)] + (Readies(to) + [last]);
    assert s[1..] == Readies(to) + [last] && {} + {last.lock} == {last.lock};
  }

  lemma CreateOrdered(to: Core)
    ensures Ordered({}, [Acquire(ProcessList)] + Section(ProcessHash) + [Release(ProcessList)] + Section(Queue(to)))
  {
    var a := [Acquire(ProcessList)] + Section(ProcessHash) + [Release(ProcessList)];
    assert a[1..] == Section(ProcessHash) + [Release(ProcessList)];
    assert a[1..][1..] == [Release(ProcessHash), Release(ProcessList)];
    assert a[1..][1..][1..] == [Release(ProcessList)];
    assert a[1..][1..][1..][1..] == [];
    assert {} + {ProcessList} == {ProcessList} && {ProcessList} + {ProcessHash} - {ProcessHash} == {ProcessList};
    assert {ProcessList} - {ProcessList} == {};
    assert Ordered({}, []);
    assert Ordered({ProcessList}, [Release(ProcessList)]);
    assert Ordered({ProcessList} + {ProcessHash}, [Release(ProcessHash), Release(ProcessList)]);
    assert Ordered({ProcessList}, Section(ProcessHash) + [Release(ProcessList)]);
    SectionOrdered(Queue(to));
    OrderedThen({}, a, Section(Queue(to)));
  }

  /** Every call keeps to the lock order. */
  lemma CallOrdered(me: Core, call: Call)
    ensures Ordered({}, Script(me, call))
  {
    match call
    case Create(to) =>
      SectionOrdered(Newlib);
      CreateOrdered(to);
      OrderedThen({}, Section(Newlib),
                  [Acquire(ProcessList)] + Section(ProcessHash) + [Release(ProcessList)] + Section(Queue(to)));
    case Join(t, found, looks) =>
      SectionOrdered(ProcessHash);
      if found {
        SectionOrdered(Waiting(t));
        OwnQueueOrdered(me, looks);
        OrderedThen({}, Section(Waiting(t)), OwnQueue(me, looks));
        OrderedThen({}, Section(ProcessHash), Section(Waiting(t)) + OwnQueue(me, looks));
      } else {
        assert Section(ProcessHash) + [] == Section(ProcessHash);
      }
    case Exit(t, joiners, traced, looks) =>
      WakingOrdered(joiners, Release(Waiting(t)));
      LeavesOrdered(me, traced, looks);
      OrderedThen({}, [Acquire(Waiting(t))] + (Readies(joiners) + [Release(Waiting(t))]), Leaves(me, traced, looks));
    case Wait(q, blocks, looks) =>
      SectionOrdered(Sem(q));
      OwnQueueOrdered(me, looks);
      OrderedThen({}, Section(Sem(q)), OwnQueue(me, looks));
      assert Section(Sem(q)) + [] == Section(Sem(q));
    case TryWait(q) => SectionOrdered(Sem(q));
    case Post(q, woken) => WakingOrdered(woken, Release(Sem(q)));
    case GetValue(q) => SectionOrdered(Sem(q));
    case Init(q) => assert [Clear(Sem(q))][1..] == [];
    case Destroy(q, woken) => WakingOrdered(woken, Forget(Sem(q)));
    case Pull(busy) => if busy != me { SectionOrdered(Queue(busy)); }
    case Yield(to, looks) =>
      SectionOrdered(Queue(to));
      OwnQueueOrdered(me, looks);
      OrderedThen({}, Section(Queue(to)), OwnQueue(me, looks));
    case Library => SectionOrdered(Newlib);
    case First(looks) => OwnQueueOrdered(me, looks);
  }

  // ---------------------------------------------------------------- which locks a call holds when

  /** The locks held after the first `n` actions of a script. */
  function HeldAt(script: seq<Action>, n: nat): set<Lock>
    requires n <= |script|
  {
    if n == 0 then {} else Holding(HeldAt(script, n - 1), script[n - 1])
  }

  lemma {:induction false} HeldIn(a: seq<Action>, b: seq<Action>, n: nat)
    requires n <= |a|
    ensures HeldAt(a + b, n) == HeldAt(a, n)
  {
    if n > 0 { HeldIn(a, b, n - 1); }
  }

  // The sets of locks held, one after each thing that is done to a lock.

  function Alone(l: Lock): seq<set<Lock>> {
    [{l}, {}]
  }

  function Again(l: Lock, n: nat): seq<set<Lock>> {
    if n == 0 then [] else Alone(l) + Again(l, n - 1)
  }

  function Under(l: Lock, to: seq<Core>): seq<set<Lock>> {
    if to == [] then [{}] else [{l, Queue(to[0])}, {l}] + Under(l, to[1..])
  }

  /** Which locks each call holds when. */
  function Tenure(me: Core, call: Call): seq<set<Lock>> {
    match call
    case Create(to) =>
      [{Newlib}, {}, {ProcessList}, {ProcessList, ProcessHash}, {ProcessList}, {}, {Queue(to)}, {}]
    case Join(t, found, looks) =>
      [{ProcessHash}, {}] + if found then [{Waiting(t)}, {}] + Again(Queue(me), looks) else []
    case Exit(t, joiners, traced, looks) =>
      [{Waiting(t)}] + Under(Waiting(t), joiners) + ((if traced then [{Newlib}, {}] else []) + Again(Queue(me), looks))
    case Wait(q, blocks, looks) => [{Sem(q)}, {}] + if blocks then Again(Queue(me), looks) else []
    case TryWait(q) => [{Sem(q)}, {}]
    case Post(q, woken) => [{Sem(q)}] + Under(Sem(q), woken)
    case GetValue(q) => [{Sem(q)}, {}]
    case Init(q) => [{}]
    case Destroy(q, woken) => [{Sem(q)}] + Under(Sem(q), woken)
    case Pull(busy) => if busy == me then [] else [{Queue(busy)}, {}]
    case Yield(to, looks) => [{Queue(to)}, {}] + Again(Queue(me), looks)
    case Library => [{Newlib}, {}]
    case First(looks) => Again(Queue(me), looks)
  }

  /** Started with these locks held, the script holds these after each thing it does to a lock. */
  predicate HoldsSo(held: set<Lock>, script: seq<Action>, sets: seq<set<Lock>>)
    decreases |script|
  {
    if script == [] then sets == [] else
      sets != [] && sets[0] == Holding(held, script[0]) && HoldsSo(sets[0], script[1..], sets[1..])
  }

  lemma {:induction false} SameLength(held: set<Lock>, script: seq<Action>, sets: seq<set<Lock>>)
    requires HoldsSo(held, script, sets)
    ensures |sets| == |script|
    decreases |script|
  {
    if script != [] { SameLength(sets[0], script[1..], sets[1..]); }
  }

  function Last(held: set<Lock>, sets: seq<set<Lock>>): set<Lock> {
    if sets == [] then held else sets[|sets| - 1]
  }

  lemma {:induction false} HoldsThen(held: set<Lock>, a: seq<Action>, x: seq<set<Lock>>, b: seq<Action>,
                                     y: seq<set<Lock>>)
    requires HoldsSo(held, a, x) && HoldsSo(Last(held, x), b, y)
    ensures HoldsSo(held, a + b, x + y)
    decreases |a|
  {
    if a == [] {
      assert a + b == b && x + y == y;
    } else {
      HoldsThen(x[0], a[1..], x[1..], b, y);
      assert (a + b)[1..] == a[1..] + b && (x + y)[1..] == x[1..] + y;
    }
  }

  lemma AloneHolds(held: set<Lock>, l: Lock)
    requires l !in held
    ensures HoldsSo(held, Section(l), [held + {l}, held])
  {
    assert Section(l)[1..] == [Release(l)] && Section(l)[1..][1..] == [] && held + {l} - {l} == held;
    assert [held + {l}, held][1..] == [held] && [held + {l}, held][1..][1..] == [];
  }

  lemma {:induction false} AgainHolds(me: Core, n: nat)
    ensures HoldsSo({}, OwnQueue(me, n), Again(Queue(me), n)) && Last({}, Again(Queue(me), n)) == {}
  {
    if n > 0 {
      AgainHolds(me, n - 1);
      AloneHolds({}, Queue(me));
      assert {} + {Queue(me)} == {Queue(me)};
      HoldsThen({}, Section(Queue(me)), Alone(Queue(me)), OwnQueue(me, n - 1), Again(Queue(me), n - 1));
    }
  }

  lemma {:induction false} UnderHolds(l: Lock, to: seq<Core>, last: Action)
    requires !l.Queue? && (last == Release(l) || last == Forget(l))
    ensures HoldsSo({l}, Readies(to) + [last], Under(l, to)) && Last({l}, Under(l, to)) == {}
  {
    if to == [] {
      assert Readies(to) + [last] == [last] && [last][1..] == [] && {l} - {l} == {} && Under(l, to)[1..] == [];
    } else {
      UnderHolds(l, to[1..], last);
      AloneHolds({l}, Queue(to[0]));
      assert {l} + {Queue(to[0])} == {l, Queue(to[0])};
      HoldsThen({l}, Section(Queue(to[0])), [{l, Queue(to[0])}, {l}], Readies(to[1..]) + [last], Under(l, to[1..]));
      assert Readies(to) + [last] == Section(Queue(to[0])) + (Readies(to[1..]) + [last]);
    }
  }

  lemma WokenHolds(l: Lock, to: seq<Core>, last: Action)
    requires !l.Queue? && (last == Release(l) || last == Forget(l))
    ensures HoldsSo({}, [Acquire(l)] + (Readies(to) + [last]), [{l}] + Under(l, to))
    ensures Last({}, [{l}] + Under(l, to)) == {}
  {
    UnderHolds(l, to, last);
    assert {} + {l} == {l};
    var s, x := [Acquire(l)] + (Readies(to) + [last]), [{l}] + Under(l, to);
    assert s[1..] == Readies(to) + [last] && x[1..] == Under(l, to);
  }

  lemma SectionThenHolds(l: Lock, b: seq<Action>, y: seq<set<Lock>>)
    requires HoldsSo({}, b, y)
    ensures HoldsSo({}, Section(l) + b, [{l}, {}] + y)
  {
    AloneHolds({}, l);
    assert {} + {l} == {l};
    HoldsThen({}, Section(l), [{l}, {}], b, y);
  }

  lemma TablesHold(to: Core)
    ensures HoldsSo({}, [Acquire(ProcessList)] + Section(ProcessHash) + [Release(ProcessList)] + Section(Queue(to)),
                    [{ProcessList}, {ProcessList, ProcessHash}, {ProcessList}, {}, {Queue(to)}, {}])
  {
    var s := [Release(ProcessList)] + Section(Queue(to));
    SectionThenHolds(Queue(to), [], []);
    assert Section(Queue(to)) + [] == Section(Queue(to)) && s[1..] == Section(Queue(to));
    assert {ProcessList} - {ProcessList} == {};
    var y := [{}, {Queue(to)}, {}];
    assert y[1..] == [{Queue(to)}, {}] + [] && HoldsSo({ProcessList}, s, y);
    AloneHolds({ProcessList}, ProcessHash);
    assert {ProcessList} + {ProcessHash} == {ProcessList, ProcessHash};
    HoldsThen({ProcessList}, Section(ProcessHash), [{ProcessList, ProcessHash}, {ProcessList}], s, y);
    var all := [Acquire(ProcessList)] + Section(ProcessHash) + [Release(ProcessList)] + Section(Queue(to));
    var sets := [{ProcessList}, {ProcessList, ProcessHash}, {ProcessList}, {}, {Queue(to)}, {}];
    assert all[1..] == Section(ProcessHash) + s && sets[1..] == [{ProcessList, ProcessHash}, {ProcessList}] + y;
    assert {} + {ProcessList} == {ProcessList};
  }

  lemma OneHolds(l: Lock)
    ensures HoldsSo({}, Section(l), [{l}, {}])
  {
    AloneHolds({}, l);
    assert {} + {l} == {l};
  }

  lemma CreateHolds(me: Core, to: Core)
    ensures HoldsSo({}, Script(me, Create(to)), Tenure(me, Create(to)))
  {
    TablesHold(to);
    SectionThenHolds(Newlib,
                     [Acquire(ProcessList)] + Section(ProcessHash) + [Release(ProcessList)] + Section(Queue(to)),
                     [{ProcessList}, {ProcessList, ProcessHash}, {ProcessList}, {}, {Queue(to)}, {}]);
  }

  lemma JoinHolds(me: Core, t: nat, found: bool, looks: nat)
    ensures HoldsSo({}, Script(me, Join(t, found, looks)), Tenure(me, Join(t, found, looks)))
  {
    if found {
      AgainHolds(me, looks);
      SectionThenHolds(Waiting(t), OwnQueue(me, looks), Again(Queue(me), looks));
      SectionThenHolds(ProcessHash, Section(Waiting(t)) + OwnQueue(me, looks),
                       [{Waiting(t)}, {}] + Again(Queue(me), looks));
    } else {
      SectionThenHolds(ProcessHash, [], []);
    }
  }

  lemma LeavesHold(me: Core, traced: bool, looks: nat)
    ensures HoldsSo({}, Leaves(me, traced, looks), (if traced then [{Newlib}, {}] else []) + Again(Queue(me), looks))
  {
    AgainHolds(me, looks);
    if traced {
      SectionThenHolds(Newlib, OwnQueue(me, looks), Again(Queue(me), looks));
    } else {
      assert [] + OwnQueue(me, looks) == OwnQueue(me, looks);
      assert [] + Again(Queue(me), looks) == Again(Queue(me), looks);
    }
  }

  lemma ExitHolds(me: Core, t: nat, joiners: seq<Core>, traced: bool, looks: nat)
    ensures HoldsSo({}, Script(me, Exit(t, joiners, traced, looks)), Tenure(me, Exit(t, joiners, traced, looks)))
  {
    LeavesHold(me, traced, looks);
    WokenHolds(Waiting(t), joiners, Release(Waiting(t)));
    HoldsThen({}, [Acquire(Waiting(t))] + (Readies(joiners) + [Release(Waiting(t))]),
              [{Waiting(t)}] + Under(Waiting(t), joiners), Leaves(me, traced, looks),
              (if traced then [{Newlib}, {}] else []) + Again(Queue(me), looks));
  }

  lemma WaitHolds(me: Core, q: nat, blocks: bool, looks: nat)
    ensures HoldsSo({}, Script(me, Wait(q, blocks, looks)), Tenure(me, Wait(q, blocks, looks)))
  {
    if blocks {
      AgainHolds(me, looks);
      SectionThenHolds(Sem(q), OwnQueue(me, looks), Again(Queue(me), looks));
    } else {
      SectionThenHolds(Sem(q), [], []);
    }
  }

  lemma YieldHolds(me: Core, to: Core, looks: nat)
    ensures HoldsSo({}, Script(me, Yield(to, looks)), Tenure(me, Yield(to, looks)))
  {
    AgainHolds(me, looks);
    SectionThenHolds(Queue(to), OwnQueue(me, looks), Again(Queue(me), looks));
  }

  /** Each call holds exactly these locks, in this order. */
  lemma CallHolds(me: Core, call: Call)
    ensures HoldsSo({}, Script(me, call), Tenure(me, call)) == true
  {
    match call
    case Create(to) => CreateHolds(me, to);
    case Join(t, found, looks) => JoinHolds(me, t, found, looks);
    case Exit(t, joiners, traced, looks) => ExitHolds(me, t, joiners, traced, looks);
    case Wait(q, blocks, looks) => WaitHolds(me, q, blocks, looks);
    case TryWait(q) => OneHolds(Sem(q));
    case Post(q, woken) => WokenHolds(Sem(q), woken, Release(Sem(q)));
    case GetValue(q) => OneHolds(Sem(q));
    case Init(q) => assert [Clear(Sem(q))][1..] == [];
    case Destroy(q, woken) => WokenHolds(Sem(q), woken, Forget(Sem(q)));
    case Pull(busy) => if busy != me { OneHolds(Queue(busy)); }
    case Yield(to, looks) => YieldHolds(me, to, looks);
    case Library => OneHolds(Newlib);
    case First(looks) => AgainHolds(me, looks);
  }

  lemma {:induction false} HoldsSoAt(script: seq<Action>, sets: seq<set<Lock>>, n: nat)
    requires HoldsSo({}, script, sets) && n < |script|
    ensures |sets| == |script| && HeldAt(script, n + 1) == sets[n]
  {
    HoldsSoFrom(script, sets, {}, [], n);
    assert [] + script == script;
  }

  lemma {:induction false} HoldsSoFrom(script: seq<Action>, sets: seq<set<Lock>>, held: set<Lock>, before: seq<Action>,
                                       n: nat)
    requires HoldsSo(held, script, sets) && n < |script| && HeldAt(before, |before|) == held
    ensures |sets| == |script| && HeldAt(before + script, |before| + n + 1) == sets[n]
    decreases |script|
  {
    var more := before + [script[0]];
    HeldIn(before, script, |before|);
    HeldIn(before, [script[0]], |before|);
    assert before + script == more + script[1..];
    if |script| > 1 {
      HoldsSoFrom(script[1..], sets[1..], sets[0], more, if n > 0 then n - 1 else 0);
    }
  }

  /** The same, told one prefix at a time. */
  lemma TenureHeld(me: Core, call: Call, n: nat)
    requires n < |Script(me, call)|
    ensures |Tenure(me, call)| == |Script(me, call)| && HeldAt(Script(me, call), n + 1) == Tenure(me, call)[n]
  {
    CallHolds(me, call);
    HoldsSoAt(Script(me, call), Tenure(me, call), n);
  }

  lemma {:induction false} UnderAt(l: Lock, to: seq<Core>, i: nat)
    requires i < |to|
    ensures |Under(l, to)| == 2 * |to| + 1 && Under(l, to)[2 * i] == {l, Queue(to[i])}
  {
    if |to| > 1 { UnderAt(l, to[1..], if i > 0 then i - 1 else 0); }
  }

  /** sem_init makes the semaphore's lock free, whoever holds it, and does nothing else to locks. */
  lemma InitFrees(s: State, c: Core, q: nat, rest: seq<Action>)
    requires Shaped(s) && s.script[c] == Script(c, Init(q)) + rest
    ensures After(s, c) == State(s.locked - {Sem(q)}, s.script[c := rest], s.holds)
  {
    assert s.script[c][1..] == rest;
  }

  /** One call after the other. */
  function Program(me: Core, calls: seq<Call>): seq<Action> {
    if calls == [] then [] else Script(me, calls[0]) + Program(me, calls[1..])
  }

  lemma {:induction false} ProgramOrdered(me: Core, calls: seq<Call>)
    ensures Ordered({}, Program(me, calls))
  {
    if calls != [] {
      CallOrdered(me, calls[0]);
      ProgramOrdered(me, calls[1..]);
      OrderedThen({}, Script(me, calls[0]), Program(me, calls[1..]));
    }
  }

  /** Four cores about to run these calls, every lock free. */
  function Begin(calls: seq<seq<Call>>): State
    requires |calls| == NUM_CORES
  {
    State({}, [Program(0, calls[0]), Program(1, calls[1]), Program(2, calls[2]), Program(3, calls[3])],
          [{}, {}, {}, {}])
  }

  // ---------------------------------------------------------------- mutual exclusion

  ghost predicate Held(s: State, l: Lock) {
    exists c :: 0 <= c < |s.holds| && l in s.holds[c]
  }

  /** A lock that is held has its flag set and one holder. */
  ghost predicate Single(s: State, l: Lock) {
    && Shaped(s)
    && (Held(s, l) ==> l in s.locked)
    && forall c: Core, d: Core :: l in s.holds[c] && l in s.holds[d] ==> c == d
  }

  /** Its flag is set exactly while some core holds it, and then only one does. */
  ghost predicate Exclusive(s: State, l: Lock) {
    Single(s, l) && (l in s.locked ==> Held(s, l))
  }

  ghost predicate Tidy(s: State) {
    Shaped(s) && forall c: Core :: Paired(s.holds[c], s.script[c])
  }

  /** What the core's next turn does, if it can go. */
  predicate Does(s: State, c: Core, a: Action)
    requires Shaped(s)
  {
    s.script[c] != [] && s.script[c][0] == a
  }

  lemma TidyAfter(s: State, c: Core)
    requires Tidy(s)
    ensures Tidy(After(s, c))
  {
    assert Paired(s.holds[c], s.script[c]);
  }

  lemma HeldAfter(s: State, c: Core, l: Lock)
    requires Shaped(s) && CanGo(s, c)
    ensures Held(After(s, c), l) <==>
      l in Holding(s.holds[c], s.script[c][0]) || exists d :: 0 <= d < |s.holds| && d != c && l in s.holds[d]
  {
    var r := After(s, c);
    if Held(r, l) {
      var d :| 0 <= d < |r.holds| && l in r.holds[d];
      assert d == c || l in s.holds[d];
    }
    if l in Holding(s.holds[c], s.script[c][0]) { assert l in r.holds[c]; }
    if d :| 0 <= d < |s.holds| && d != c && l in s.holds[d] { assert l in r.holds[d]; }
  }

  /** The one thing that can give a held lock a second holder is an initialisation. */
  lemma SingleAfter(s: State, c: Core, l: Lock)
    requires Tidy(s) && Single(s, l)
    ensures Single(After(s, c), l) <==> !(Does(s, c, Clear(l)) && Held(s, l))
  {
    if CanGo(s, c) {
      HeldAfter(s, c, l);
      assert Paired(s.holds[c], s.script[c]);
    }
  }

  /** A turn after which the flag does not tell whether the lock is held: one that initialises the semaphore while it is
      held, or returns from destroying it. */
  ghost predicate Disturbs(s: State, c: Core, l: Lock)
    requires Shaped(s)
  {
    Does(s, c, Forget(l)) || (Does(s, c, Clear(l)) && Held(s, l))
  }

  lemma ExclusiveAfter(s: State, c: Core, l: Lock)
    requires Tidy(s) && Exclusive(s, l)
    ensures Exclusive(After(s, c), l) <==> !Disturbs(s, c, l)
  {
    SingleAfter(s, c, l);
    if CanGo(s, c) {
      HeldAfter(s, c, l);
      assert Paired(s.holds[c], s.script[c]);
    }
  }

  ghost predicate Disturbed(s: State, turns: seq<Core>, l: Lock)
    requires Shaped(s)
    decreases turns
  {
    turns != [] && (Disturbs(s, turns[0], l) || Disturbed(After(s, turns[0]), turns[1..], l))
  }

  ghost predicate ExclusiveThroughout(s: State, turns: seq<Core>, l: Lock)
    requires Shaped(s)
    decreases turns
  {
    Exclusive(s, l) && (turns != [] ==> ExclusiveThroughout(After(s, turns[0]), turns[1..], l))
  }

  /** Mutual exclusion: under every interleaving of any calls, a lock has at most one holder and its flag tells whether
      it has one, for as long as nobody initialises it while it is held or destroys it; and no longer. */
  lemma {:induction false} MutualExclusion(s: State, turns: seq<Core>, l: Lock)
    requires Tidy(s) && Exclusive(s, l)
    ensures ExclusiveThroughout(s, turns, l) <==> !Disturbed(s, turns, l)
    decreases turns
  {
    if turns != [] {
      TidyAfter(s, turns[0]);
      ExclusiveAfter(s, turns[0], l);
      if Exclusive(After(s, turns[0]), l) { MutualExclusion(After(s, turns[0]), turns[1..], l); }
    }
  }

  ghost predicate Orderly(s: State) {
    Shaped(s) && forall c: Core :: Ordered(s.holds[c], s.script[c])
  }

  lemma OrderlyAfter(s: State, c: Core)
    requires Orderly(s)
    ensures Orderly(After(s, c))
  {
    assert Ordered(s.holds[c], s.script[c]);
  }

  lemma OrderlyTidy(s: State)
    requires Orderly(s)
    ensures Tidy(s)
  {
    forall c: Core ensures Paired(s.holds[c], s.script[c]) { OrderedPaired(s.holds[c], s.script[c]); }
  }

  /** Only semaphores can be disturbed. */
  lemma {:induction false} OthersUndisturbed(s: State, turns: seq<Core>, l: Lock)
    requires Orderly(s) && !l.Sem?
    ensures !Disturbed(s, turns, l)
    decreases turns
  {
    if turns != [] {
      OrderlyAfter(s, turns[0]);
      assert Ordered(s.holds[turns[0]], s.script[turns[0]]);
      OthersUndisturbed(After(s, turns[0]), turns[1..], l);
    }
  }

  /** So whatever the cores call, the locks of run queues, wait queues, the process table and the library are exclusive
      throughout every run. */
  lemma KernelLocksExclusive(s: State, turns: seq<Core>, l: Lock)
    requires Orderly(s) && Exclusive(s, l) && !l.Sem?
    ensures ExclusiveThroughout(s, turns, l)
  {
    OrderlyTidy(s);
    OthersUndisturbed(s, turns, l);
    MutualExclusion(s, turns, l);
  }

  lemma FreeAndOrdered(p: seq<seq<Action>>)
    requires |p| == NUM_CORES && Ordered({}, p[0]) && Ordered({}, p[1]) && Ordered({}, p[2]) && Ordered({}, p[3])
    ensures Orderly(State({}, p, [{}, {}, {}, {}])) && forall l :: Exclusive(State({}, p, [{}, {}, {}, {}]), l)
  {
    var s := State({}, p, [{}, {}, {}, {}]);
    forall c: Core ensures s.holds[c] == {} && Ordered({}, s.script[c]) {
      assert c == 0 || c == 1 || c == 2 || c == 3;
    }
  }

  lemma BeginsWell(calls: seq<seq<Call>>)
    requires |calls| == NUM_CORES
    ensures Orderly(Begin(calls)) && Owned(Begin(calls)) && forall l :: Exclusive(Begin(calls), l)
  {
    ProgramOrdered(0, calls[0]);
    ProgramOrdered(1, calls[1]);
    ProgramOrdered(2, calls[2]);
    ProgramOrdered(3, calls[3]);
    FreeAndOrdered([Program(0, calls[0]), Program(1, calls[1]), Program(2, calls[2]), Program(3, calls[3])]);
  }

  // ---------------------------------------------------------------- no deadlock

  /** The flag is set and nobody holds the lock. */
  ghost predicate Ownerless(s: State, l: Lock) {
    l in s.locked && !Held(s, l)
  }

  /** Only semaphores are ever ownerless. */
  ghost predicate OnlySems(s: State) {
    forall l :: Ownerless(s, l) ==> l.Sem?
  }

  /** Spinning on a lock that has no owner. */
  ghost predicate Stranded(s: State, c: Core)
    requires Shaped(s)
  {
    s.script[c] != [] && s.script[c][0].Acquire? && Ownerless(s, s.script[c][0].lock)
  }

  lemma OnlySemsAfter(s: State, c: Core)
    requires Orderly(s) && OnlySems(s)
    ensures OnlySems(After(s, c))
  {
    if CanGo(s, c) {
      assert Ordered(s.holds[c], s.script[c]);
      forall l | Ownerless(After(s, c), l) ensures l.Sem? {
        HeldAfter(s, c, l);
        if l in s.locked && Held(s, l) {
          var d :| 0 <= d < |s.holds| && l in s.holds[d];
        }
      }
    }
  }

  /** If a core must wait, it waits for a destroyed semaphore, or some core need not wait: the holder of the lock, or
      whoever holds what that one waits for. */
  lemma {:induction false} SomeoneCanGo(s: State, c: Core) returns (d: Core)
    requires Orderly(s) && OnlySems(s) && s.script[c] != [] && !Stranded(s, c)
    ensures CanGo(s, d)
    decreases if s.script[c][0].Acquire? then 2 - Rank(s.script[c][0].lock) else 0
  {
    if CanGo(s, c) { return c; }
    var l := s.script[c][0].lock;
    assert Held(s, l);
    var e: Core :| l in s.holds[e];
    assert Ordered(s.holds[e], s.script[e]) && Ordered(s.holds[c], s.script[c]);
    if CanGo(s, e) { return e; }
    assert Rank(l) < Rank(s.script[e][0].lock);
    d := SomeoneCanGo(s, e);
  }

  function Left(s: State): nat
    requires Shaped(s)
  {
    |s.script[0]| + |s.script[1]| + |s.script[2]| + |s.script[3]|
  }

  predicate Finished(s: State)
    requires Shaped(s)
  {
    Left(s) == 0
  }

  lemma GoingLeavesLess(s: State, c: Core)
    requires Shaped(s) && CanGo(s, c)
    ensures Left(After(s, c)) == Left(s) - 1
  {
  }

  /** No deadlock: whatever has happened so far, there are turns after which every core has finished all its calls or
      spins on a semaphore that was destroyed, and no lock is held. */
  lemma {:induction false} CanFinish(s: State) returns (turns: seq<Core>)
    requires Orderly(s) && OnlySems(s)
    ensures forall c: Core :: End(s, turns).script[c] == [] || Stranded(End(s, turns), c)
    ensures forall c: Core :: End(s, turns).holds[c] == {}
    decreases Left(s)
  {
    if c: Core :| s.script[c] != [] && !Stranded(s, c) {
      var d := SomeoneCanGo(s, c);
      GoingLeavesLess(s, d);
      OrderlyAfter(s, d);
      OnlySemsAfter(s, d);
      var rest := CanFinish(After(s, d));
      turns := [d] + rest;
      assert turns[1..] == rest;
    } else {
      turns := [];
      NothingHeld(s);
    }
  }

  /** A core that spins on a semaphore holds nothing, as that would be out of order. */
  lemma NothingHeld(s: State)
    requires Orderly(s) && OnlySems(s) && forall c: Core :: s.script[c] == [] || Stranded(s, c)
    ensures forall c: Core :: s.holds[c] == {}
  {
    forall c: Core ensures s.holds[c] == {} {
      assert Ordered(s.holds[c], s.script[c]);
      if s.script[c] != [] {
        assert Stranded(s, c) && Rank(s.script[c][0].lock) == 0;
        assert forall h :: h in s.holds[c] ==> Rank(h) < 0;
      }
    }
  }

  predicate Keeps(script: seq<Action>) {
    forall a :: a in script ==> !a.Forget?
  }

  /** No script is going to return from a destroy. */
  ghost predicate Lasting(s: State) {
    Shaped(s) && forall c: Core :: Keeps(s.script[c])
  }

  lemma {:induction false} ReadiesKeep(to: seq<Core>)
    ensures Keeps(Readies(to))
  {
    if to != [] { ReadiesKeep(to[1..]); }
  }

  lemma {:induction false} OwnQueueKeeps(me: Core, n: nat)
    ensures Keeps(OwnQueue(me, n))
  {
    if n > 0 { OwnQueueKeeps(me, n - 1); }
  }

  /** Only a destroy gives up a lock for good. */
  lemma CallKeeps(me: Core, call: Call)
    requires !call.Destroy?
    ensures Keeps(Script(me, call))
  {
    match call
    case Join(t, found, looks) => OwnQueueKeeps(me, looks);
    case Exit(t, joiners, traced, looks) =>
      ReadiesKeep(joiners);
      OwnQueueKeeps(me, looks);
    case Wait(q, blocks, looks) => OwnQueueKeeps(me, looks);
    case Post(q, woken) => ReadiesKeep(woken);
    case Yield(to, looks) => OwnQueueKeeps(me, looks);
    case First(looks) => OwnQueueKeeps(me, looks);
    case _ =>
  }

  ghost predicate Owned(s: State) {
    forall l :: !Ownerless(s, l)
  }

  lemma OwnedAfter(s: State, c: Core)
    requires Tidy(s) && Lasting(s) && Owned(s)
    ensures Lasting(After(s, c)) && Owned(After(s, c))
  {
    if CanGo(s, c) {
      assert Paired(s.holds[c], s.script[c]) && Keeps(s.script[c]) && s.script[c][0] in s.script[c];
      forall l ensures !Ownerless(After(s, c), l) {
        HeldAfter(s, c, l);
        assert !Ownerless(s, l);
      }
    }
  }

  lemma {:induction false} OwnedEnd(s: State, turns: seq<Core>)
    requires Tidy(s) && Lasting(s) && Owned(s)
    ensures Owned(End(s, turns))
    decreases turns
  {
    if turns != [] {
      TidyAfter(s, turns[0]);
      OwnedAfter(s, turns[0]);
      OwnedEnd(After(s, turns[0]), turns[1..]);
    }
  }

  /** So unless a semaphore is destroyed every core can finish, and then every lock is free. */
  lemma AllCanFinish(s: State) returns (turns: seq<Core>)
    requires Orderly(s) && Lasting(s) && Owned(s)
    ensures Finished(End(s, turns)) && End(s, turns).locked == {}
  {
    OrderlyTidy(s);
    turns := CanFinish(s);
    OwnedEnd(s, turns);
    var r := End(s, turns);
    assert forall c: Core :: !Stranded(r, c);
    assert r.script[0] == r.script[1] == r.script[2] == r.script[3] == [];
    forall l ensures l !in r.locked {
      assert !Held(r, l) && !Ownerless(r, l);
    }
  }

  // ---------------------------------------------------------------- destroyed semaphores

  /** Some turn of the run initialises the semaphore. */
  predicate Cleared(s: State, turns: seq<Core>, l: Lock)
    requires Shaped(s)
    decreases turns
  {
    turns != [] && (Does(s, turns[0], Clear(l)) || Cleared(After(s, turns[0]), turns[1..], l))
  }

  /** At some point of the run the flag is clear. */
  predicate Freed(s: State, turns: seq<Core>, l: Lock)
    requires Shaped(s)
    decreases turns
  {
    l !in s.locked || (turns != [] && Freed(After(s, turns[0]), turns[1..], l))
  }

  /** The rest of a destroy, lock held: tasks are made ready, the call returns, the program goes on. */
  lemma {:induction false} RestOfDestroy(s: State, turns: seq<Core>, c: Core, l: Lock, a: seq<Action>,
                                         rest: seq<Action>)
    requires Tidy(s) && Single(s, l) && l in s.holds[c]
    requires s.script[c] == a + [Forget(l)] + rest && forall x :: x in a ==> x.lock != l
    requires !Cleared(s, turns, l) && End(s, turns).script[c] == rest
    ensures Tidy(End(s, turns)) && Ownerless(End(s, turns), l)
    decreases turns
  {
    assert |s.script[c]| > |rest|;
    var d, r := turns[0], After(s, turns[0]);
    TidyAfter(s, d);
    SingleAfter(s, d, l);
    if d != c || !CanGo(s, c) {
      StillHolds(s, d, c, l);
      RestOfDestroy(r, turns[1..], c, l, a, rest);
    } else if a == [] {
      assert s.script[c][0] == Forget(l) && s.script[c][1..] == rest;
      HeldAfter(s, c, l);
      assert Ownerless(r, l);
      OwnerlessRun(r, turns[1..], l);
    } else {
      assert s.script[c][0] == a[0] && a[0] in a && s.script[c][1..] == a[1..] + [Forget(l)] + rest;
      RestOfDestroy(r, turns[1..], c, l, a[1..], rest);
    }
  }

  /** Another core's turn does not take the lock away. */
  lemma StillHolds(s: State, d: Core, c: Core, l: Lock)
    requires Tidy(s) && Single(s, l) && l in s.holds[c] && (d != c || !CanGo(s, c))
    ensures l in After(s, d).holds[c] && After(s, d).script[c] == s.script[c]
  {
  }

  /** Nobody can take such a lock, and nobody is going to give it up: only an initialisation changes it. */
  lemma OwnerlessAfter(s: State, c: Core, l: Lock)
    requires Tidy(s) && Ownerless(s, l)
    ensures if Does(s, c, Clear(l)) then l !in After(s, c).locked else Ownerless(After(s, c), l)
  {
    if CanGo(s, c) {
      HeldAfter(s, c, l);
      assert Paired(s.holds[c], s.script[c]) && l !in s.holds[c];
    }
  }

  /** The flag of a destroyed semaphore is clear again at some point exactly when an initialisation of it has run by
      then; until then nobody holds it and every core that comes to it spins. */
  lemma {:induction false} OwnerlessRun(s: State, turns: seq<Core>, l: Lock)
    requires Tidy(s) && Ownerless(s, l)
    ensures Freed(s, turns, l) <==> Cleared(s, turns, l)
    ensures !Cleared(s, turns, l) ==> Tidy(End(s, turns)) && Ownerless(End(s, turns), l)
    decreases turns
  {
    if turns != [] {
      TidyAfter(s, turns[0]);
      OwnerlessAfter(s, turns[0], l);
      if !Does(s, turns[0], Clear(l)) { OwnerlessRun(After(s, turns[0]), turns[1..], l); }
    }
  }

  lemma {:induction false} ReadiesElsewhere(to: seq<Core>, l: Lock)
    requires !l.Queue?
    ensures forall x :: x in Readies(to) ==> x.lock != l
  {
    if to != [] { ReadiesElsewhere(to[1..], l); }
  }

  lemma DestroyOpens(q: nat, woken: seq<Core>, rest: seq<Action>)
    ensures var s, l := [Acquire(Sem(q))] + (Readies(woken) + [Forget(Sem(q))]) + rest, Sem(q);
      s[0] == Acquire(l) && s[1..] == Readies(woken) + [Forget(l)] + rest
  {
  }

  /** Under every interleaving, a destroy that has run leaves its semaphore locked with nobody to unlock it, unless an
      initialisation came in between. */
  lemma {:induction false} DestroyStrands(s: State, turns: seq<Core>, c: Core, q: nat, woken: seq<Core>,
                                          rest: seq<Action>)
    requires Tidy(s) && Single(s, Sem(q)) && s.script[c] == Script(c, Destroy(q, woken)) + rest
    requires !Cleared(s, turns, Sem(q)) && End(s, turns).script[c] == rest
    ensures Tidy(End(s, turns)) && Ownerless(End(s, turns), Sem(q))
    decreases turns
  {
    assert |s.script[c]| > |rest|;
    var d, r, l := turns[0], After(s, turns[0]), Sem(q);
    TidyAfter(s, d);
    SingleAfter(s, d, l);
    if d != c || !CanGo(s, c) {
      DestroyStrands(r, turns[1..], c, q, woken, rest);
    } else {
      DestroyOpens(q, woken, rest);
      assert r.script[c] == Readies(woken) + [Forget(l)] + rest && l in r.holds[c];
      ReadiesElsewhere(woken, l);
      RestOfDestroy(r, turns[1..], c, l, Readies(woken), rest);
    }
  }

  lemma {:induction false} ReadiesRun(s: State, c: Core, to: seq<Core>, rest: seq<Action>) returns (turns: seq<Core>)
    requires Shaped(s) && s.script[c] == Readies(to) + rest && forall d: Core :: Queue(d) !in s.locked + s.holds[c]
    ensures End(s, turns) == s.(script := s.script[c := rest])
    decreases |to|
  {
    if to == [] {
      turns := [];
      assert Readies(to) + rest == rest && s.script[c := rest] == s.script;
    } else {
      var q, more := Queue(to[0]), Readies(to[1..]) + rest;
      assert s.script[c] == [Acquire(q), Release(q)] + more;
      assert s.script[c][1..] == [Release(q)] + more && s.script[c][1..][1..] == more;
      var r := After(After(s, c), c);
      assert s.locked + {q} - {q} == s.locked && s.holds[c] + {q} - {q} == s.holds[c];
      assert r.script == s.script[c := more] && r.holds == s.holds;
      var after := ReadiesRun(r, c, to[1..], rest);
      turns := [c, c] + after;
      assert turns[1..] == [c] + after && turns[1..][1..] == after;
      assert s.script[c := more][c := rest] == s.script[c := rest];
    }
  }

  /** Such a run exists from every state in which the locks a destroy takes are free. */
  lemma DestroyRuns(s: State, c: Core, q: nat, woken: seq<Core>, rest: seq<Action>) returns (turns: seq<Core>)
    requires Tidy(s) && Single(s, Sem(q)) && s.script[c] == Script(c, Destroy(q, woken)) + rest
    requires Sem(q) !in s.locked && forall d: Core :: Queue(d) !in s.locked + s.holds[c]
    ensures End(s, turns).script == s.script[c := rest] && Ownerless(End(s, turns), Sem(q))
  {
    var l, r := Sem(q), After(s, c);
    assert s.script[c] == [Acquire(l)] + (Readies(woken) + ([Forget(l)] + rest));
    assert r.script[c] == Readies(woken) + ([Forget(l)] + rest);
    TidyAfter(s, c);
    SingleAfter(s, c, l);
    var made := ReadiesRun(r, c, woken, [Forget(l)] + rest);
    turns := [c] + (made + [c]);
    assert turns[1..] == made + [c];
    EndThen(r, made, [c]);
    var m := End(r, made);
    assert m.script[c] == [Forget(l)] + rest && ([Forget(l)] + rest)[1..] == rest;
    assert [c][1..] == [] && End(m, [c]) == After(m, c);
    assert l in r.holds[c] && !Held(After(m, c), l);
    assert After(m, c).script == s.script[c := rest];
  }

  lemma {:induction false} EndThen(s: State, a: seq<Core>, b: seq<Core>)
    requires Shaped(s)
    ensures End(s, a + b) == End(End(s, a), b)
    decreases a
  {
    if a == [] {
      assert a + b == b;
    } else {
      assert (a + b)[1..] == a[1..] + b;
      EndThen(After(s, a[0]), a[1..], b);
    }
  }
}
