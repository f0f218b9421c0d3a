/** What the pull would do to the locks if it moved tasks.

    As written, sched_pull finds no task that it may move (KernelTheorems.PullIsDead), and takes one lock. Were it to
    scan a list that has such tasks, it would make each ready, on its own queue, while it holds the lock of the busy
    queue. This module says exactly which programs could then stop all their cores. */
module PullLocks {
  import opened Placement
  import opened SpinLocks

  /** sched_pull, moving n tasks. */
  function MovingPull(me: Core, busy: Core, n: nat): seq<Action> {
    if busy == me then [] else [Acquire(Queue(busy))] + (OwnQueue(me, n) + [Release(Queue(busy))])
  }

  lemma PullAsWritten(me: Core, busy: Core)
    ensures MovingPull(me, busy, 0) == Script(me, Pull(busy))
  {
  }

  /** A pull keeps to the lock order exactly when it moves nothing. */
  lemma PullOrdered(me: Core, busy: Core, n: nat)
    ensures Ordered({}, MovingPull(me, busy, n)) <==> busy == me || n == 0
  {
    PullAsWritten(me, busy);
    CallOrdered(me, Pull(busy));
    if busy != me && n > 0 {
      var p := MovingPull(me, busy, n);
      assert p[1..] == Section(Queue(me)) + OwnQueue(me, n - 1) + [Release(Queue(busy))];
      assert p[1..][0] == Acquire(Queue(me)) && Queue(busy) in {} + {Queue(busy)};
    }
  }

  // ---------------------------------------------------------------- programs with such pulls

  datatype Item = Plain(call: Call) | Moving(busy: Core, n: nat)

  function ItemScript(me: Core, item: Item): seq<Action> {
    match item
    case Plain(call) => Script(me, call)
    case Moving(busy, n) => MovingPull(me, busy, n)
  }

  function Plan(me: Core, items: seq<Item>): seq<Action> {
    if items == [] then [] else ItemScript(me, items[0]) + Plan(me, items[1..])
  }

  const FREE: seq<set<Lock>> := [{}, {}, {}, {}]

  /** Four cores about to run these programs, every lock free. */
  function Start(items: seq<seq<Item>>): State
    requires |items| == NUM_CORES
  {
    State({}, [Plan(0, items[0]), Plan(1, items[1]), Plan(2, items[2]), Plan(3, items[3])], FREE)
  }

  predicate PullsFrom(me: Core, items: seq<Item>, busy: Core) {
    busy != me && exists i :: 0 <= i < |items| && items[i].Moving? && items[i].busy == busy && items[i].n > 0
  }

  /** No semaphore is destroyed. */
  predicate Intact(items: seq<Item>) {
    forall i :: 0 <= i < |items| && items[i].Plain? ==> !items[i].call.Destroy?
  }

  ghost predicate Programs(items: seq<seq<Item>>) {
    |items| == NUM_CORES && forall c: Core :: Intact(items[c])
  }

  /** The core before in the ring. */
  function Before(ring: seq<Core>, i: nat): Core
    requires i < |ring|
  {
    if i == 0 then ring[|ring| - 1] else ring[i - 1]
  }

  predicate Distinct(cores: seq<Core>) {
    forall i, j :: 0 <= i < j < |cores| ==> cores[i] != cores[j]
  }

  /** Each core of the ring pulls, at some time, from the one before. */
  predicate Ring(items: seq<seq<Item>>, ring: seq<Core>)
    requires |items| == NUM_CORES
  {
    ring != [] && Distinct(ring) && forall i :: 0 <= i < |ring| ==> PullsFrom(ring[i], items[ring[i]], Before(ring, i))
  }

  /** Some core has not finished, and no core can go on. */
  ghost predicate Deadlocked(s: State)
    requires Shaped(s)
  {
    !Finished(s) && forall c: Core :: !CanGo(s, c)
  }

  /** No number of turns changes that. */
  lemma {:induction false} DeadlockLasts(s: State, turns: seq<Core>)
    requires Shaped(s) && Deadlocked(s)
    ensures End(s, turns) == s
    decreases turns
  {
    if turns != [] {
      assert !CanGo(s, turns[0]);
      DeadlockLasts(s, turns[1..]);
    }
  }

  // ---------------------------------------------------------------- a ring can deadlock

  lemma {:induction false} PairedThen(held: set<Lock>, a: seq<Action>, b: seq<Action>)
    requires Paired(held, a) && Paired({}, b)
    ensures Paired(held, a + b)
    decreases |a|
  {
    if a == [] {
      assert a + b == b;
    } else {
      assert (a + b)[1..] == a[1..] + b;
      PairedThen(Holding(held, a[0]), a[1..], b);
    }
  }

  lemma {:induction false} PullingPaired(me: Core, busy: Core, n: nat)
    requires busy != me
    ensures Paired({Queue(busy)}, OwnQueue(me, n) + [Release(Queue(busy))])
  {
    var l := Queue(busy);
    if n == 0 {
      assert OwnQueue(me, n) + [Release(l)] == [Release(l)] && [Release(l)][1..] == [] && {l} - {l} == {};
    } else {
      PullingPaired(me, busy, n - 1);
      var q, rest := Queue(me), OwnQueue(me, n - 1) + [Release(l)];
      var s := Section(q) + rest;
      SectionParts({l}, q, rest);
      assert Paired({l} + {q}, s[1..]);
      assert OwnQueue(me, n) + [Release(l)] == s;
    }
  }

  lemma ItemPaired(me: Core, item: Item)
    requires item.Plain? ==> !item.call.Destroy?
    ensures Paired({}, ItemScript(me, item)) && Keeps(ItemScript(me, item))
  {
    match item
    case Plain(call) =>
      CallOrdered(me, call);
      OrderedPaired({}, Script(me, call));
      CallKeeps(me, call);
    case Moving(busy, n) =>
      if busy != me {
        PullingPaired(me, busy, n);
        OwnQueueKeeps(me, n);
        var p := MovingPull(me, busy, n);
        assert p[1..] == OwnQueue(me, n) + [Release(Queue(busy))] && {} + {Queue(busy)} == {Queue(busy)};
      }
  }

  lemma {:induction false} PlanPaired(me: Core, items: seq<Item>)
    requires Intact(items)
    ensures Paired({}, Plan(me, items)) && Keeps(Plan(me, items))
  {
    if items != [] {
      ItemPaired(me, items[0]);
      PlanPaired(me, items[1..]);
      PairedThen({}, ItemScript(me, items[0]), Plan(me, items[1..]));
    }
  }

  lemma {:induction false} PlanThen(me: Core, a: seq<Item>, b: seq<Item>)
    ensures Plan(me, a + b) == Plan(me, a) + Plan(me, b)
    decreases |a|
  {
    if a == [] {
      assert a + b == b;
    } else {
      assert (a + b)[1..] == a[1..] + b;
      PlanThen(me, a[1..], b);
    }
  }

  /** A core that nobody disturbs runs its script. */
  lemma {:induction false} RunsAlone(s: State, c: Core, a: seq<Action>, b: seq<Action>) returns (turns: seq<Core>)
    requires Shaped(s) && s.script[c] == a + b && Paired(s.holds[c], a) && Keeps(a) && s.locked == s.holds[c]
    ensures End(s, turns) == State({}, s.script[c := b], s.holds[c := {}])
    decreases |a|
  {
    if a == [] {
      turns := [];
      assert a + b == b && s.script[c := b] == s.script && s.holds[c := {}] == s.holds;
    } else {
      var r := After(s, c);
      assert a[0] in a && s.script[c][0] == a[0] && s.script[c][1..] == a[1..] + b;
      assert CanGo(s, c) && Flags(s.locked, a[0]) == Holding(s.holds[c], a[0]);
      var rest := RunsAlone(r, c, a[1..], b);
      turns := [c] + rest;
      assert turns[1..] == rest;
      assert r.script[c := b] == s.script[c := b] && r.holds[c := {}] == s.holds[c := {}];
    }
  }

  /** The first k cores have run their first script. */
  function Mixed(a: seq<seq<Action>>, b: seq<seq<Action>>, k: nat): (r: seq<seq<Action>>)
    requires |a| == |b| == NUM_CORES
    ensures |r| == NUM_CORES
  {
    seq(NUM_CORES, c requires 0 <= c < NUM_CORES => if c < k then b[c] else a[c] + b[c])
  }

  ghost predicate Runnable(a: seq<seq<Action>>) {
    |a| == NUM_CORES && forall c: Core :: Paired({}, a[c]) && Keeps(a[c])
  }

  lemma MixedNext(a: seq<seq<Action>>, b: seq<seq<Action>>, k: nat)
    requires |a| == |b| == NUM_CORES && k < NUM_CORES
    ensures Mixed(a, b, k)[k] == a[k] + b[k] && Mixed(a, b, k)[k := b[k]] == Mixed(a, b, k + 1)
    ensures FREE[k] == {} && FREE[k := {}] == FREE
  {
  }

  /** The next core runs. */
  lemma RunNext(a: seq<seq<Action>>, b: seq<seq<Action>>, k: nat) returns (turns: seq<Core>)
    requires |b| == NUM_CORES && Runnable(a) && k < NUM_CORES
    ensures End(State({}, Mixed(a, b, k), FREE), turns) == State({}, Mixed(a, b, k + 1), FREE)
  {
    MixedNext(a, b, k);
    turns := RunsAlone(State({}, Mixed(a, b, k), FREE), k, a[k], b[k]);
  }

  /** Each in turn. */
  lemma {:induction false} RunEach(a: seq<seq<Action>>, b: seq<seq<Action>>, k: nat) returns (turns: seq<Core>)
    requires |b| == NUM_CORES && Runnable(a) == true && k <= NUM_CORES
    ensures End(State({}, Mixed(a, b, k), FREE), turns) == State({}, b, FREE)
    decreases NUM_CORES - k
  {
    if k == NUM_CORES {
      turns := [];
      assert Mixed(a, b, k) == b;
    } else {
      var first := RunNext(a, b, k);
      var rest := RunEach(a, b, k + 1);
      turns := first + rest;
      EndThen(State({}, Mixed(a, b, k), FREE), first, rest);
    }
  }

  /** The core stands just before a pull from that core. */
  predicate StandsBefore(rest: seq<Action>, me: Core, busy: Core) {
    |rest| >= 2 && rest[0] == Acquire(Queue(busy)) && rest[1] == Acquire(Queue(me))
  }

  lemma SplitAtPull(me: Core, items: seq<Item>, busy: Core) returns (a: seq<Action>, b: seq<Action>)
    requires Intact(items) && PullsFrom(me, items, busy)
    ensures Plan(me, items) == a + b && Paired({}, a) && Keeps(a) && StandsBefore(b, me, busy)
  {
    var i :| 0 <= i < |items| && items[i].Moving? && items[i].busy == busy && items[i].n > 0;
    a, b := Plan(me, items[..i]), Plan(me, items[i..]);
    SplitAt(me, items, i);
    OpensWithPull(me, items[i..], busy);
  }

  lemma SplitAt(me: Core, items: seq<Item>, i: nat)
    requires Intact(items) && i <= |items|
    ensures Plan(me, items) == Plan(me, items[..i]) + Plan(me, items[i..])
    ensures Paired({}, Plan(me, items[..i])) == true && Keeps(Plan(me, items[..i])) == true
  {
    assert items[..i] + items[i..] == items;
    PlanThen(me, items[..i], items[i..]);
    PlanPaired(me, items[..i]);
  }

  lemma OpensWithPull(me: Core, items: seq<Item>, busy: Core)
    requires busy != me && items != [] && items[0].Moving? && items[0].busy == busy && items[0].n > 0
    ensures StandsBefore(Plan(me, items), me, busy)
  {
    assert OwnQueue(me, items[0].n)[0] == Acquire(Queue(me));
  }

  /** A core of the ring stands just before its pull, any other has finished. */
  ghost predicate Placed(c: Core, rest: seq<Action>, ring: seq<Core>) {
    if c !in ring then rest == []
    else exists i :: 0 <= i < |ring| && ring[i] == c && StandsBefore(rest, c, Before(ring, i))
  }

  ghost predicate Ready(rest: seq<seq<Action>>, ring: seq<Core>) {
    |rest| == NUM_CORES && forall c: Core :: Placed(c, rest[c], ring)
  }

  /** The core's program, cut where it is to wait for the others. */
  ghost predicate Cut(c: Core, items: seq<seq<Item>>, ring: seq<Core>, a: seq<Action>, b: seq<Action>)
    requires |items| == NUM_CORES
  {
    Plan(c, items[c]) == a + b && Paired({}, a) && Keeps(a) && Placed(c, b, ring)
  }

  lemma SplitFor(c: Core, items: seq<seq<Item>>, ring: seq<Core>) returns (a: seq<Action>, b: seq<Action>)
    requires Programs(items) && Ring(items, ring)
    ensures Cut(c, items, ring, a, b) == true
  {
    assert Intact(items[c]);
    if i :| 0 <= i < |ring| && ring[i] == c {
      a, b := SplitAtPull(c, items[c], Before(ring, i));
    } else {
      a, b := Plan(c, items[c]), [];
      PlanPaired(c, items[c]);
    }
  }

  ghost predicate Cuts(items: seq<seq<Item>>, ring: seq<Core>, a: seq<seq<Action>>, b: seq<seq<Action>>)
    requires |items| == NUM_CORES
  {
    |a| == |b| <= NUM_CORES && forall c: Core :: c < |a| ==> Cut(c, items, ring, a[c], b[c])
  }

  lemma CutsMore(items: seq<seq<Item>>, ring: seq<Core>, a: seq<seq<Action>>, b: seq<seq<Action>>, x: seq<Action>,
                 y: seq<Action>)
    requires |items| == NUM_CORES && |a| < NUM_CORES && Cuts(items, ring, a, b) && Cut(|a|, items, ring, x, y)
    ensures Cuts(items, ring, a + [x], b + [y])
  {
  }

  lemma {:induction false} SplitFirst(items: seq<seq<Item>>, ring: seq<Core>, k: nat)
    returns (a: seq<seq<Action>>, b: seq<seq<Action>>)
    requires Programs(items) == true && Ring(items, ring) == true && k <= NUM_CORES
    ensures |a| == k && Cuts(items, ring, a, b) == true
  {
    if k == 0 {
      a, b := [], [];
    } else {
      a, b := SplitFirst(items, ring, k - 1);
      var x, y := SplitFor(k - 1, items, ring);
      CutsMore(items, ring, a, b, x, y);
      a, b := a + [x], b + [y];
    }
  }

  lemma CutWell(items: seq<seq<Item>>, ring: seq<Core>, a: seq<seq<Action>>, b: seq<seq<Action>>)
    requires |items| == |a| == NUM_CORES && Cuts(items, ring, a, b)
    ensures Runnable(a) && Ready(b, ring) && Start(items) == State({}, Mixed(a, b, 0), FREE)
  {
    forall c: Core ensures Start(items).script[c] == Plan(c, items[c]) && Cut(c, items, ring, a[c], b[c]) {
      assert c == 0 || c == 1 || c == 2 || c == 3;
    }
    assert Start(items).script == Mixed(a, b, 0);
  }

  lemma ReachReady(items: seq<seq<Item>>, ring: seq<Core>) returns (turns: seq<Core>, rest: seq<seq<Action>>)
    requires Programs(items) == true && Ring(items, ring) == true
    ensures Ready(rest, ring) == true && End(Start(items), turns) == State({}, rest, FREE)
  {
    var a, b := SplitFirst(items, ring, NUM_CORES);
    CutWell(items, ring, a, b);
    rest := b;
    turns := RunEach(a, rest, 0);
  }

  /** The first k cores of the ring have taken the lock of the one before, and nobody has done anything else. */
  ghost predicate Taken(s: State, rest: seq<seq<Action>>, ring: seq<Core>, k: nat)
    requires |rest| == NUM_CORES && k <= |ring|
  {
    && Shaped(s)
    && (forall l :: l in s.locked <==> exists i :: 0 <= i < k && l == Queue(Before(ring, i)))
    && (forall c: Core :: c !in ring[..k] ==> s.script[c] == rest[c])
    && forall c: Core :: c in ring[..k] ==> rest[c] != [] && s.script[c] == rest[c][1..]
  }

  lemma AtPull(rest: seq<seq<Action>>, ring: seq<Core>, k: nat)
    requires Ready(rest, ring) && Distinct(ring) && k < |ring|
    ensures StandsBefore(rest[ring[k]], ring[k], Before(ring, k))
  {
    assert Placed(ring[k], rest[ring[k]], ring);
  }

  lemma TakeOne(s: State, rest: seq<seq<Action>>, ring: seq<Core>, k: nat)
    requires Ready(rest, ring) && Distinct(ring) && k < |ring| && Taken(s, rest, ring, k)
    ensures Taken(After(s, ring[k]), rest, ring, k + 1)
  {
    AtPull(rest, ring, k);
    BeforeDistinct(ring, k);
    assert ring[k] !in ring[..k];
    TakeFree(s, rest, ring, k);
  }

  lemma TakeFree(s: State, rest: seq<seq<Action>>, ring: seq<Core>, k: nat)
    requires |rest| == NUM_CORES && k < |ring| && Taken(s, rest, ring, k) && ring[k] !in ring[..k]
    requires StandsBefore(rest[ring[k]], ring[k], Before(ring, k))
    requires forall i :: 0 <= i < k ==> Before(ring, i) != Before(ring, k)
    ensures Taken(After(s, ring[k]), rest, ring, k + 1)
  {
    var c, r := ring[k], After(s, ring[k]);
    assert ring[..k + 1] == ring[..k] + [c];
    assert CanGo(s, c) && r.locked == s.locked + {Queue(Before(ring, k))};
  }

  /** Then each core of the ring, in order, takes the lock of the one before. */
  lemma {:induction false} TakeInOrder(s: State, rest: seq<seq<Action>>, ring: seq<Core>, k: nat)
    requires Ready(rest, ring) && Distinct(ring) && k <= |ring| && Taken(s, rest, ring, k)
    ensures Taken(End(s, ring[k..]), rest, ring, |ring|)
    decreases |ring| - k
  {
    if k < |ring| {
      TakeOne(s, rest, ring, k);
      TakeInOrder(After(s, ring[k]), rest, ring, k + 1);
      assert ring[k..][0] == ring[k] && ring[k..][1..] == ring[k + 1..];
    }
  }

  lemma BeforeDistinct(ring: seq<Core>, k: nat)
    requires Distinct(ring) && k < |ring|
    ensures forall i :: 0 <= i < k ==> Before(ring, i) != Before(ring, k)
  {
  }

  /** Some core of the ring comes after this one. */
  lemma NextInRing(ring: seq<Core>, i: nat) returns (next: nat)
    requires i < |ring|
    ensures next < |ring| && Before(ring, next) == ring[i]
  {
    next := if i + 1 < |ring| then i + 1 else 0;
  }

  /** Then each waits for the one behind. */
  lemma AllTaken(s: State, rest: seq<seq<Action>>, ring: seq<Core>, c: Core)
    requires Ready(rest, ring) && Distinct(ring) && Taken(s, rest, ring, |ring|)
    ensures !CanGo(s, c) && (c in ring ==> s.script[c] != [])
  {
    assert ring[..|ring|] == ring && Placed(c, rest[c], ring);
    if i :| 0 <= i < |ring| && ring[i] == c {
      AtPull(rest, ring, i);
      var next := NextInRing(ring, i);
      assert Queue(Before(ring, next)) in s.locked;
    }
  }

  lemma SomeLeft(s: State, c: Core)
    requires Shaped(s) && s.script[c] != []
    ensures !Finished(s)
  {
    assert c == 0 || c == 1 || c == 2 || c == 3;
  }

  /** A ring of pulls can stop every core. */
  lemma RingDeadlocks(items: seq<seq<Item>>, ring: seq<Core>) returns (turns: seq<Core>)
    requires Programs(items) && Ring(items, ring)
    ensures Deadlocked(End(Start(items), turns))
  {
    var first, rest := ReachReady(items, ring);
    var m := End(Start(items), first);
    assert ring[..0] == [] && ring[0..] == ring;
    TakeInOrder(m, rest, ring, 0);
    turns := first + ring;
    EndThen(Start(items), first, ring);
    var s := End(m, ring);
    forall c: Core ensures !CanGo(s, c) { AllTaken(s, rest, ring, c); }
    AllTaken(s, rest, ring, ring[0]);
    SomeLeft(s, ring[0]);
  }

  // ---------------------------------------------------------------- and nothing else can

  /** A core in the middle of a pull from one of these cores is about to take its own queue's lock. */
  predicate Swaps(me: Core, from: set<Core>, held: set<Lock>, a: Action) {
    a == Acquire(Queue(me)) && exists b: Core :: b in from && held == {Queue(b)}
  }

  /** Locks are taken in order, but for such pulls. */
  predicate Nearly(me: Core, from: set<Core>, held: set<Lock>, script: seq<Action>)
    decreases |script|
  {
    if script == [] then held == {} else
      && (script[0].Acquire? ==> InOrder(held, script[0]) || Swaps(me, from, held, script[0]))
      && Nearly(me, from, Holding(held, script[0]), script[1..])
  }

  lemma {:induction false} NearlyThen(me: Core, from: set<Core>, held: set<Lock>, a: seq<Action>, b: seq<Action>)
    requires Nearly(me, from, held, a) && Nearly(me, from, {}, b)
    ensures Nearly(me, from, held, a + b)
    decreases |a|
  {
    if a == [] {
      assert a + b == b;
    } else {
      assert (a + b)[1..] == a[1..] + b;
      NearlyThen(me, from, Holding(held, a[0]), a[1..], b);
    }
  }

  lemma {:induction false} OrderedNearly(me: Core, from: set<Core>, held: set<Lock>, script: seq<Action>)
    requires Ordered(held, script)
    ensures Nearly(me, from, held, script)
    decreases |script|
  {
    if script != [] { OrderedNearly(me, from, Holding(held, script[0]), script[1..]); }
  }

  lemma {:induction false} PullingNearly(me: Core, from: set<Core>, busy: Core, n: nat)
    requires busy != me && (n > 0 ==> busy in from)
    ensures Nearly(me, from, {Queue(busy)}, OwnQueue(me, n) + [Release(Queue(busy))])
  {
    var l := Queue(busy);
    if n == 0 {
      assert OwnQueue(me, n) + [Release(l)] == [Release(l)] && [Release(l)][1..] == [] && {l} - {l} == {};
    } else {
      PullingNearly(me, from, busy, n - 1);
      var q, rest := Queue(me), OwnQueue(me, n - 1) + [Release(l)];
      var s := Section(q) + rest;
      SectionParts({l}, q, rest);
      assert Swaps(me, from, {l}, s[0]) && Nearly(me, from, {l} + {q}, s[1..]);
      assert OwnQueue(me, n) + [Release(l)] == s;
    }
  }

  lemma {:induction false} PlanNearly(me: Core, from: set<Core>, items: seq<Item>)
    requires forall b: Core :: PullsFrom(me, items, b) ==> b in from
    ensures Nearly(me, from, {}, Plan(me, items))
  {
    if items != [] {
      match items[0] {
        case Plain(call) =>
          CallOrdered(me, call);
          OrderedNearly(me, from, {}, Script(me, call));
        case Moving(busy, n) =>
          if busy != me {
            assert n > 0 ==> PullsFrom(me, items, busy);
            PullingNearly(me, from, busy, n);
            var p := MovingPull(me, busy, n);
            assert p[1..] == OwnQueue(me, n) + [Release(Queue(busy))] && {} + {Queue(busy)} == {Queue(busy)};
          }
      }
      assert forall b: Core :: PullsFrom(me, items[1..], b) ==> PullsFrom(me, items, b);
      PlanNearly(me, from, items[1..]);
      NearlyThen(me, from, {}, ItemScript(me, items[0]), Plan(me, items[1..]));
    }
  }

  function Sources(me: Core, items: seq<Item>): set<Core> {
    set b: Core | b in {0, 1, 2, 3} && PullsFrom(me, items, b)
  }

  ghost predicate Near(s: State, items: seq<seq<Item>>)
    requires |items| == NUM_CORES
  {
    Shaped(s) && forall c: Core :: Nearly(c, Sources(c, items[c]), s.holds[c], s.script[c])
  }

  lemma {:induction false} NearEnd(s: State, items: seq<seq<Item>>, turns: seq<Core>)
    requires |items| == NUM_CORES && Near(s, items) && Tidy(s) && Lasting(s) && Owned(s)
    ensures Near(End(s, turns), items) && Owned(End(s, turns))
    decreases turns
  {
    if turns != [] {
      var c := turns[0];
      assert Nearly(c, Sources(c, items[c]), s.holds[c], s.script[c]);
      TidyAfter(s, c);
      OwnedAfter(s, c);
      NearEnd(After(s, c), items, turns[1..]);
    }
  }

  lemma StartsNear(items: seq<seq<Item>>)
    requires Programs(items)
    ensures var s := Start(items); Near(s, items) && Tidy(s) && Lasting(s) && Owned(s)
  {
    var s := Start(items);
    forall c: Core
      ensures s.holds[c] == {} && Nearly(c, Sources(c, items[c]), {}, s.script[c]) && Paired({}, s.script[c])
      ensures Keeps(s.script[c])
    {
      assert c == 0 || c == 1 || c == 2 || c == 3;
      assert s.script[c] == Plan(c, items[c]);
      PlanNearly(c, Sources(c, items[c]), items[c]);
      PlanPaired(c, items[c]);
    }
  }

  /** Stopped in the middle of a pull. */
  ghost predicate Pulling(s: State, items: seq<seq<Item>>, p: Core)
    requires Shaped(s) && |items| == NUM_CORES
  {
    s.script[p] != [] && Swaps(p, Sources(p, items[p]), s.holds[p], s.script[p][0])
  }

  /** Who holds what a stopped core waits for. */
  lemma HolderOf(s: State, items: seq<seq<Item>>, c: Core) returns (e: Core)
    requires |items| == NUM_CORES && Near(s, items) && Owned(s) && Deadlocked(s) && s.script[c] != []
    ensures s.script[c][0].Acquire? && s.script[c][0].lock in s.holds[e] && s.script[e] != [] && s.script[e][0].Acquire?
    ensures InOrder(s.holds[e], s.script[e][0]) || Pulling(s, items, e)
  {
    assert !CanGo(s, c);
    var l := s.script[c][0].lock;
    assert !Ownerless(s, l);
    e :| l in s.holds[e];
    assert Nearly(e, Sources(e, items[e]), s.holds[e], s.script[e]) && !CanGo(s, e);
  }

  lemma SomePull(s: State, items: seq<seq<Item>>) returns (p: Core)
    requires |items| == NUM_CORES && Near(s, items) && Owned(s) && Deadlocked(s)
    ensures Pulling(s, items, p)
  {
    var c: Core := if s.script[0] != [] then 0 else if s.script[1] != [] then 1 else if s.script[2] != [] then 2 else 3;
    p := HolderOf(s, items, c);
    if !Pulling(s, items, p) {
      assert Rank(s.script[c][0].lock) < Rank(s.script[p][0].lock);
      p := HolderOf(s, items, p);
    }
  }

  /** What a stopped pull waits for is held by a pull from its core. */
  lemma PullBehind(s: State, items: seq<seq<Item>>, p: Core) returns (e: Core)
    requires |items| == NUM_CORES && Near(s, items) && Owned(s) && Deadlocked(s) && Pulling(s, items, p)
    ensures Pulling(s, items, e) && PullsFrom(e, items[e], p)
  {
    e := HolderOf(s, items, p);
    assert Queue(p) in s.holds[e];
    assert Rank(Queue(p)) == 1 && !InOrder(s.holds[e], s.script[e][0]);
    var b: Core :| b in Sources(e, items[e]) && s.holds[e] == {Queue(b)};
    assert Queue(p) == Queue(b);
  }

  ghost predicate Chain(items: seq<seq<Item>>, path: seq<Core>)
    requires |items| == NUM_CORES
  {
    && path != [] && Distinct(path)
    && forall i, j :: 0 <= i && i + 1 == j < |path| ==> PullsFrom(path[j], items[path[j]], path[i])
  }

  lemma Closes(items: seq<seq<Item>>, path: seq<Core>, j: nat)
    requires |items| == NUM_CORES && Chain(items, path) && j < |path|
    requires PullsFrom(path[j], items[path[j]], path[|path| - 1])
    ensures Ring(items, path[j..])
  {
    var ring := path[j..];
    forall i | 0 <= i < |ring| ensures PullsFrom(ring[i], items[ring[i]], Before(ring, i)) {
      assert ring[i] == path[j + i];
      if i > 0 { assert ring[i - 1] == path[j + i - 1]; }
    }
  }

  lemma Extends(items: seq<seq<Item>>, path: seq<Core>, e: Core)
    requires |items| == NUM_CORES && Chain(items, path) && e !in path && PullsFrom(e, items[e], path[|path| - 1])
    ensures Chain(items, path + [e])
  {
  }

  /** Going on from pull to pull, one comes back. */
  lemma {:induction false} FindRing(s: State, items: seq<seq<Item>>, path: seq<Core>, rest: set<Core>)
    returns (ring: seq<Core>)
    requires |items| == NUM_CORES && Near(s, items) == true && Owned(s) == true && Deadlocked(s) == true
    requires Chain(items, path) == true && Pulling(s, items, path[|path| - 1]) == true
    requires forall c: Core :: c in path || c in rest
    ensures Ring(items, ring)
    decreases rest
  {
    var e := PullBehind(s, items, path[|path| - 1]);
    if j :| 0 <= j < |path| && path[j] == e {
      Closes(items, path, j);
      ring := path[j..];
    } else {
      Extends(items, path, e);
      assert e in rest;
      ring := FindRing(s, items, path + [e], rest - {e});
    }
  }

  lemma StoppedHasRing(s: State, items: seq<seq<Item>>) returns (ring: seq<Core>)
    requires |items| == NUM_CORES && Near(s, items) == true && Owned(s) == true && Deadlocked(s) == true
    ensures Ring(items, ring)
  {
    var p := SomePull(s, items);
    var rest: set<Core> := {0, 1, 2, 3};
    ring := FindRing(s, items, [p], rest);
  }

  lemma DeadlockHasRing(items: seq<seq<Item>>, turns: seq<Core>) returns (ring: seq<Core>)
    requires Programs(items) && Deadlocked(End(Start(items), turns)) == true
    ensures Ring(items, ring)
  {
    StartsNear(items);
    NearEnd(Start(items), items, turns);
    ring := StoppedHasRing(End(Start(items), turns), items);
  }

  ghost predicate CanDeadlock(items: seq<seq<Item>>)
    requires |items| == NUM_CORES
  {
    exists turns: seq<Core> :: Deadlocked(End(Start(items), turns))
  }

  ghost predicate HasRing(items: seq<seq<Item>>)
    requires |items| == NUM_CORES
  {
    exists ring: seq<Core> :: Ring(items, ring)
  }

  /** Were pulls to move tasks, four cores could stop for good exactly when their programs have a ring of cores each of
      which pulls from the one before. */
  lemma DeadlocksExactly(items: seq<seq<Item>>)
    requires Programs(items)
    ensures CanDeadlock(items) <==> HasRing(items)
  {
    if CanDeadlock(items) {
      var turns: seq<Core> :| Deadlocked(End(Start(items), turns));
      var ring := DeadlockHasRing(items, turns);
    }
    if HasRing(items) {
      var ring: seq<Core> :| Ring(items, ring);
      var turns := RingDeadlocks(items, ring);
    }
  }
}
