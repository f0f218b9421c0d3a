/** Affinity masks (context.c) and the choice of a run queue (the sched_pickcpu family of dispatch.c). */
module Placement {
  const NUM_CORES: nat := 4
  const INT32_MAX: int := 0x7FFF_FFFF

  type Core = c: nat | c < NUM_CORES
  type Prio = p: nat | p < 4

  const PRIORITY_IDLE: Prio := 0
  const PRIORITY_MED: Prio := 2
  const PRIORITY_HIGH: Prio := 3

  // ---------------------------------------------------------------- masks

  /** `1 << cpu` */
  function Bit(cpu: Core): bv32 {
    if cpu == 0 then 1 else if cpu == 1 then 2 else if cpu == 2 then 4 else 8
  }

  /** CPU_ISSET: `count & (1 << cpu)` is not zero. */
  predicate IsSet(cpu: Core, count: bv32) {
    if cpu == 0 then count & 1 != 0
    else if cpu == 1 then count & 2 != 0
    else if cpu == 2 then count & 4 != 0
    else count & 8 != 0
  }

  /** The cores a mask names. Bits above the last core name nothing. */
  function Cores(count: bv32): set<Core> {
    set c: Core | IsSet(c, count)
  }

  lemma OneBit(m: bv32, a: bv32, b: bv32)
    requires a == 1 || a == 2 || a == 4 || a == 8
    requires b == 1 || b == 2 || b == 4 || b == 8
    ensures (m | a) & b != 0 <==> a == b || m & b != 0
  {
  }

  lemma NoBit(m: bv32, a: bv32, b: bv32)
    requires a == 1 || a == 2 || a == 4 || a == 8
    requires b == 1 || b == 2 || b == 4 || b == 8
    ensures (m & !a) & b != 0 <==> a != b && m & b != 0
  {
  }

  lemma AndBits(m: bv32, k: bv32, c: Core)
    ensures IsSet(c, m & k) <==> IsSet(c, m) && IsSet(c, k)
  {
  }

  lemma ClrBit(m: bv32, cpu: Core, c: Core)
    ensures IsSet(c, m & !Bit(cpu)) <==> c != cpu && IsSet(c, m)
  {
    NoBit(m, Bit(cpu), Bit(c));
  }

  lemma SetBit(m: bv32, cpu: Core, c: Core)
    ensures IsSet(c, m | Bit(cpu)) <==> c == cpu || IsSet(c, m)
  {
    OneBit(m, Bit(cpu), Bit(c));
  }

  /** CPU_SET, CPU_CLR and CPU_AND are union, difference and intersection. */
  lemma SetCores(m: bv32, cpu: Core)
    ensures Cores(m | Bit(cpu)) == Cores(m) + {cpu}
  {
    forall c: Core ensures IsSet(c, m | Bit(cpu)) <==> c == cpu || IsSet(c, m) {
      SetBit(m, cpu, c);
    }
  }

  lemma ClrCores(m: bv32, cpu: Core)
    ensures Cores(m & !Bit(cpu)) == Cores(m) - {cpu}
  {
    forall c: Core ensures IsSet(c, m & !Bit(cpu)) <==> c != cpu && IsSet(c, m) {
      ClrBit(m, cpu, c);
    }
  }

  lemma AndCores(m: bv32, k: bv32)
    ensures Cores(m & k) == Cores(m) * Cores(k)
  {
    forall c: Core ensures IsSet(c, m & k) <==> IsSet(c, m) && IsSet(c, k) {
      AndBits(m, k, c);
    }
  }

  /** cpu_set_t */
  class CpuSet {
    var count: bv32

    constructor ()
      ensures Cores(count) == {}
    {
      count := 0;
    }

    method Zero()
      modifies this
      ensures Cores(count) == {}
    {
      count := 0;
    }

    method Set(cpu: Core)
      modifies this
      ensures Cores(count) == old(Cores(count)) + {cpu}
    {
      SetCores(count, cpu);
      count := count | Bit(cpu);
    }

    method Clr(cpu: Core)
      modifies this
      ensures Cores(count) == old(Cores(count)) - {cpu}
    {
      ClrCores(count, cpu);
      count := count & !Bit(cpu);
    }

    method And(src: CpuSet)
      modifies this
      ensures Cores(count) == old(Cores(count)) * old(Cores(src.count))
    {
      AndCores(count, src.count);
      count := count & src.count;
    }
  }

  /** The mask sched_pull gives a task while it makes it ready: the puller, if the task may run there. */
  method PullTarget(me: Core, affinity: CpuSet) returns (target: CpuSet)
    ensures fresh(target) && Cores(target.count) == if me in Cores(affinity.count) then {me} else {}
  {
    target := new CpuSet();
    target.Zero();
    target.Set(me);
    target.And(affinity);
  }

  /** The mask of a task that is created without one. */
  method AllCores() returns (every: CpuSet)
    ensures fresh(every) && Cores(every.count) == {0, 1, 2, 3}
  {
    every := new CpuSet();
    every.Zero();
    for cpu := 0 to NUM_CORES
      invariant fresh(every) && forall c: Core :: c in Cores(every.count) <==> c < cpu
    {
      every.Set(cpu);
    }
  }

  // ---------------------------------------------------------------- choosing a core

  /** What one run of sched_pickcpu reads without a lock: the four queue lengths during the scan,
      the caller's own queue length again, and live_procs. */
  datatype Seen = Seen(lengths: seq<int>, own: int, live: nat)

  predicate Plausible(seen: Seen) {
    |seen.lengths| == NUM_CORES && seen.own >= 0 && forall c: Core :: 0 <= seen.lengths[c] < INT32_MAX
  }

  /** The state of the sched_pickcpu_inactive scan after the cores below `n`. */
  function InactiveScan(mask: set<Core>, lengths: seq<int>, n: nat): (r: (Core, int))
    requires |lengths| == NUM_CORES && n <= NUM_CORES
  {
    if n == 0 then (0, INT32_MAX) else
      var before := InactiveScan(mask, lengths, n - 1);
      if lengths[n - 1] < before.1 && n - 1 in mask then (n - 1, lengths[n - 1]) else before
  }

  function Inactive(mask: set<Core>, lengths: seq<int>): Core
    requires |lengths| == NUM_CORES
  {
    InactiveScan(mask, lengths, NUM_CORES).0
  }

  /** The least loaded allowed core, the lowest-numbered one on a tie; core 0 when no allowed core was seen
      with a length below INT32_MAX. */
  lemma InactiveIsLeast(mask: set<Core>, lengths: seq<int>)
    requires |lengths| == NUM_CORES
    ensures var r := Inactive(mask, lengths);
      if exists c :: c in mask && lengths[c] < INT32_MAX
      then r in mask && forall c :: c in mask ==> lengths[r] < lengths[c] || (lengths[r] == lengths[c] && r <= c)
      else r == 0
  {
    assert InactiveScan(mask, lengths, 3) == var b := InactiveScan(mask, lengths, 2);
      if lengths[2] < b.1 && 2 in mask then (2, lengths[2]) else b;
    assert InactiveScan(mask, lengths, 2) == var b := InactiveScan(mask, lengths, 1);
      if lengths[1] < b.1 && 1 in mask then (1, lengths[1]) else b;
    assert InactiveScan(mask, lengths, 1)
      == if lengths[0] < INT32_MAX && 0 in mask then (0, lengths[0]) else (0, INT32_MAX);
    var r := Inactive(mask, lengths);
    forall c | c in mask && lengths[c] < INT32_MAX
      ensures r in mask && (lengths[r] < lengths[c] || (lengths[r] == lengths[c] && r <= c)) {
      assert c == 0 || c == 1 || c == 2 || c == 3;
    }
    forall c | c in mask && lengths[c] >= INT32_MAX && r in mask && lengths[r] < INT32_MAX
      ensures lengths[r] < lengths[c] {}
  }

  /** The state of the sched_pickcpu_busiest scan after the cores below `n`. */
  function BusiestScan(lengths: seq<int>, n: nat): (r: (Core, int))
    requires |lengths| == NUM_CORES && n <= NUM_CORES
  {
    if n == 0 then (0, 0) else
      var before := BusiestScan(lengths, n - 1);
      if lengths[n - 1] > before.1 then (n - 1, lengths[n - 1]) else before
  }

  function Busiest(lengths: seq<int>): Core
    requires |lengths| == NUM_CORES
  {
    BusiestScan(lengths, NUM_CORES).0
  }

  /** The first of the longest queues; core 0 when all are empty. */
  lemma BusiestIsMost(lengths: seq<int>)
    requires |lengths| == NUM_CORES
    ensures var r := Busiest(lengths);
      if exists c: Core :: lengths[c] > 0
      then forall c: Core :: lengths[c] < lengths[r] || (lengths[c] == lengths[r] && r <= c)
      else r == 0
  {
    assert BusiestScan(lengths, 3) == var b := BusiestScan(lengths, 2); if lengths[2] > b.1 then (2, lengths[2]) else b;
    assert BusiestScan(lengths, 2) == var b := BusiestScan(lengths, 1); if lengths[1] > b.1 then (1, lengths[1]) else b;
    assert BusiestScan(lengths, 1) == if lengths[0] > 0 then (0, lengths[0]) else (0, 0);
  }

  /** What is left of a number in an int, on a machine that wraps round. */
  function Int32(n: int): (r: int)
    ensures -0x8000_0000 <= r <= INT32_MAX
  {
    (n + 0x8000_0000) % 0x1_0000_0000 - 0x8000_0000
  }

  /** An int converted to uint64_t. */
  function Word64(n: int): (r: int)
    requires -0x8000_0000 <= n <= INT32_MAX
    ensures r >= 0
  {
    if n < 0 then n + 0x1_0000_0000_0000_0000 else n
  }

  /** `100 * length / live_procs > 25`: the product is an int, and unsigned for the division. With no live process the C
      is undefined; the AArch64 UDIV gives 0. */
  predicate Overloaded(length: int, live: nat) {
    live != 0 && Word64(Int32(100 * length)) / live > 25
  }

  lemma QuotientAbove(n: nat, live: nat)
    requires live > 0
    ensures n / live > 25 <==> n >= 26 * live
  {
    assert n == live * (n / live) + n % live;
    if n / live > 25 {
      assert live * (n / live) >= live * 26;
    } else {
      assert live * (n / live) <= live * 25;
    }
  }

  /** For a length whose hundredfold fits in an int the core is overloaded when it holds 26 in a hundred of the live
      tasks; a negative one counts as overloaded, however many of them a machine may hold. */
  lemma OverloadedMeans(length: int, live: nat)
    requires -0x8000_0000 <= 100 * length <= INT32_MAX
    ensures length >= 0 ==> (Overloaded(length, live) <==> live > 0 && 100 * length >= 26 * live)
    ensures length < 0 && 0 < 26 * live <= 0xFFFF_FFFF_0000_0000 ==> Overloaded(length, live)
  {
    if live > 0 { QuotientAbove(Word64(Int32(100 * length)), live); }
  }

  /** sched_pickcpu on core `me`. */
  function PickCpu(me: Core, mask: set<Core>, seen: Seen): Core
    requires |seen.lengths| == NUM_CORES
  {
    if me !in mask || Overloaded(seen.own, seen.live) then Inactive(mask, seen.lengths) else me
  }

  /** An allowed core than which none that is allowed is shorter, and none as short has a lower number. */
  ghost predicate LeastAllowed(mask: set<Core>, lengths: seq<int>, d: Core)
    requires |lengths| == NUM_CORES
  {
    d in mask && forall c: Core :: c in mask ==> lengths[d] < lengths[c] || (lengths[d] == lengths[c] && d <= c)
  }

  /** The caller's own core may run the task and holds at most a quarter of the live tasks, in whole hundredths. */
  predicate HasRoom(me: Core, mask: set<Core>, seen: Seen) {
    me in mask && (seen.live == 0 || 100 * seen.own < 26 * seen.live)
  }

  /** What a choice has to be: the caller's own core while that has room for the task, else the least loaded of those
      allowed, else core 0. */
  ghost predicate RightChoice(me: Core, mask: set<Core>, seen: Seen, d: Core)
    requires |seen.lengths| == NUM_CORES
  {
    if HasRoom(me, mask, seen) then d == me
    else if mask != {} then LeastAllowed(mask, seen.lengths, d)
    else d == 0
  }

  /** And what it is, unless a length is read that no queue can have: none holds INT32_MAX tasks, and the product
      with the own length fits in an int. */
  lemma PickCpuRight(me: Core, mask: set<Core>, seen: Seen)
    requires Plausible(seen) && 100 * seen.own <= INT32_MAX
    ensures RightChoice(me, mask, seen, PickCpu(me, mask, seen))
  {
    OverloadedMeans(seen.own, seen.live);
    LeastIsAllowed(mask, seen.lengths);
  }

  lemma LeastIsAllowed(mask: set<Core>, lengths: seq<int>)
    requires |lengths| == NUM_CORES && forall c: Core :: lengths[c] < INT32_MAX
    ensures if mask == {} then Inactive(mask, lengths) == 0 else LeastAllowed(mask, lengths, Inactive(mask, lengths))
  {
    InactiveIsLeast(mask, lengths);
    if mask != {} {
      var c :| c in mask;
      assert lengths[c] < INT32_MAX;
    }
  }

  /** Where the product wraps round, it is the wrapped and converted one that is compared. */
  lemma PickCpuElse(me: Core, mask: set<Core>, seen: Seen)
    requires Plausible(seen) && mask != {}
    ensures var n := (100 * seen.own + 0x8000_0000) % 0x1_0000_0000 - 0x8000_0000;
      var product := if n < 0 then n + 0x1_0000_0000_0000_0000 else n;
      if me in mask && (seen.live == 0 || product < 26 * seen.live) then PickCpu(me, mask, seen) == me
      else LeastAllowed(mask, seen.lengths, PickCpu(me, mask, seen))
  {
    if seen.live > 0 { QuotientAbove(Word64(Int32(100 * seen.own)), seen.live); }
    LeastIsAllowed(mask, seen.lengths);
  }

  /** Exactly when the chosen core is an allowed one, whatever the unlocked reads returned. */
  lemma PickCpuAllowed(me: Core, mask: set<Core>, seen: Seen)
    requires |seen.lengths| == NUM_CORES
    ensures PickCpu(me, mask, seen) in mask <==>
      || (exists c :: c in mask && seen.lengths[c] < INT32_MAX)
      || 0 in mask
      || (me in mask && !Overloaded(seen.own, seen.live))
  {
    InactiveIsLeast(mask, seen.lengths);
  }

  /** So with lengths below INT32_MAX a mask that names any core is obeyed, and one that names none
      sends the task to core 0. */
  lemma PickCpuObeys(me: Core, mask: set<Core>, seen: Seen)
    requires Plausible(seen)
    ensures if mask == {} then PickCpu(me, mask, seen) == 0 else PickCpu(me, mask, seen) in mask
  {
    InactiveIsLeast(mask, seen.lengths);
    if mask != {} {
      var c :| c in mask;
      assert seen.lengths[c] < INT32_MAX;
    }
  }
}
