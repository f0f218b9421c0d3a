/** The scheduler of dispatch.c, run by one core with nobody in between: methods over the kernel's global state, each
    proved against the list functions of `Rings` and `RunQueues`. How the cores interleave is the business of
    `Kernel`; how the list heads are linked, of `Lists`. */
module Dispatchers {
  import opened Rings
  import opened Placement
  import opened RunQueues
  import opened Kernel
  import opened KernelInvariants

  type Pid = n: nat | n < UINT32

  datatype ProcessState = New | Runnable | Zombie
  // What a system call handler asks of the dispatcher: OK, SCHED, BLOCK, EXIT.
  datatype ReturnState = Continue | Reschedule | Blocked | Exited

  /** The scheduling part of process_t, and the value its current call will return. */
  class Process {
    const pid: Pid
    const priority: Prio
    var mask: set<Core>
    var state: ProcessState
    var blockedOn: Option<Place>
    var ret: int

    constructor (pid: Pid, priority: Prio, mask: set<Core>, arg: int)
      ensures this.pid == pid && this.priority == priority && this.mask == mask
      ensures state == New && blockedOn == None && ret == arg
    {
      this.pid := pid;
      ret := arg;
      this.priority := priority;
      this.mask := mask;
      state := New;
      blockedOn := None;
    }
  }

  function Masks(ps: seq<Process>): (r: seq<set<Core>>)
    reads ps`mask
    ensures |r| == |ps|
  {
    if ps == [] then [] else Masks(ps[..|ps| - 1]) + [ps[|ps| - 1].mask]
  }

  /** The run queues of these cores for processes of these priorities. */
  function Destinations(ps: seq<Process>, picks: seq<Core>): (r: seq<Place>)
    requires |ps| == |picks|
    ensures |r| == |ps|
  {
    if ps == [] then [] else
      Destinations(ps[..|ps| - 1], picks[..|ps| - 1]) + [Ready(picks[|ps| - 1], ps[|ps| - 1].priority)]
  }

  /** ready_queue[core].tasks */
  function Heads(c: Core): (r: seq<Place>)
    ensures |r| == 4 && forall p: Prio :: r[p] == Ready(c, p)
  {
    [Ready(c, 0), Ready(c, 1), Ready(c, 2), Ready(c, 3)]
  }

  /** The lengths are those of the queues. */
  ghost predicate Tallied(lists: map<Place, seq<Process>>, length: seq<int>)
    requires |length| == NUM_CORES
  {
    forall c: Core {:trigger Queued(lists, c)} :: length[c] == Queued(lists, c)
  }

  /** While the queues are not balanced, the puller's is shorter than any int. */
  lemma RoomToPull(busy: int, idle: int)
    requires 0 <= idle && 0 <= busy <= INT32_MAX && !Balanced(busy, idle)
    ensures idle < INT32_MAX
  {
    BalancedMeans(busy, idle);
  }

  lemma QueuedDropped(lists: map<Place, seq<Process>>, c: Core, p: Prio, d: Core)
    requires At(lists, Ready(c, p)) != []
    ensures Queued(Drop(lists, Ready(c, p), 0), d) == Queued(lists, d) - if c == d then 1 else 0
  {
    var after := Drop(lists, Ready(c, p), 0);
    assert |At(after, Ready(c, p))| == |At(lists, Ready(c, p))| - 1;
    assert forall q: Prio :: c != d || q != p ==> At(after, Ready(d, q)) == At(lists, Ready(d, q));
  }

  lemma QueuedAppended(lists: map<Place, seq<Process>>, c: Core, p: Prio, n: Process, d: Core)
    ensures Queued(Append(lists, Ready(c, p), n), d) == Queued(lists, d) + if c == d then 1 else 0
  {
    var after := Append(lists, Ready(c, p), n);
    assert |At(after, Ready(c, p))| == |At(lists, Ready(c, p))| + 1;
    assert forall q: Prio :: c != d || q != p ==> At(after, Ready(d, q)) == At(lists, Ready(d, q));
  }

  lemma TallyDropped(lists: map<Place, seq<Process>>, length: seq<int>, c: Core, p: Prio)
    requires |length| == NUM_CORES && At(lists, Ready(c, p)) != []
    ensures Tallied(lists, length) ==> Tallied(Drop(lists, Ready(c, p), 0), length[c := length[c] - 1])
  {
    forall d: Core ensures Queued(Drop(lists, Ready(c, p), 0), d) == Queued(lists, d) - if c == d then 1 else 0 {
      QueuedDropped(lists, c, p, d);
    }
  }

  lemma TallyAdded(lists: map<Place, seq<Process>>, length: seq<int>, c: Core, p: Prio, n: Process)
    requires |length| == NUM_CORES
    ensures Tallied(lists, length) ==> Tallied(Append(lists, Ready(c, p), n), length[c := length[c] + 1])
  {
    forall d: Core ensures Queued(Append(lists, Ready(c, p), n), d) == Queued(lists, d) + if c == d then 1 else 0 {
      QueuedAppended(lists, c, p, n, d);
    }
  }

  /** What next() takes, and what it leaves: the head of the highest list of the core that is not empty. */
  ghost predicate Taken(me: Core, start: map<Place, seq<Process>>, lengths: seq<int>, process: Option<Process>,
                        lists: map<Place, seq<Process>>, length: seq<int>) {
    |lengths| == NUM_CORES &&
    var p := Top(start, Heads(me));
    if p == -1 then process == None && lists == start && length == lengths else
      && process == Some(At(start, Heads(me)[p])[0]) && lists == Drop(start, Heads(me)[p], 0)
      && length == lengths[me := lengths[me] - 1]
  }

  /** A process that yields on its own core goes behind the others of its priority: it runs on only if it is alone. */
  lemma YieldTakesTurn(lists: map<Place, seq<Process>>, me: Core, current: Process)
    requires forall p: Prio :: p > current.priority ==> At(lists, Ready(me, p)) == []
    ensures var after := Append(lists, Ready(me, current.priority), current);
      && Top(after, Heads(me)) == current.priority
      && At(after, Ready(me, current.priority))[0] ==
         if At(lists, Ready(me, current.priority)) == [] then current else At(lists, Ready(me, current.priority))[0]
  {
    var after := Append(lists, Ready(me, current.priority), current);
    var top := Top(after, Heads(me));
    assert At(after, Heads(me)[current.priority]) != [];
  }

  class Dispatcher {
    var lists: map<Place, seq<Process>>   // every ring of sched_list entries, by head
    var length: seq<int>                  // ready_queue[core].length
    var running: seq<Option<Process>>     // running_list
    var live: nat                         // live_procs

    ghost predicate Valid()
      reads this
    {
      && |length| == NUM_CORES && |running| == NUM_CORES && Separate(lists)
      && forall c: Core, p: Prio :: Ready(c, p) in lists
    }

    ghost predicate Counted()
      reads this
      requires Valid()
    {
      Tallied(lists, length)
    }

    /** proc_init and disp_init */
    constructor ()
      ensures Valid() && Counted() && Members(lists) == {} && live == 0
    {
      lists := map[];
      length := [0, 0, 0, 0];
      running := [None, None, None, None];
      live := 0;
      new;
      for i := PRIORITY_IDLE to 4
        invariant |length| == NUM_CORES && |running| == NUM_CORES && length == [0, 0, 0, 0] && live == 0
        invariant forall pl :: pl in lists ==> lists[pl] == []
        invariant forall c: Core, p: Prio :: p < i ==> Ready(c, p) in lists
      {
        for j := 0 to NUM_CORES
          invariant |length| == NUM_CORES && |running| == NUM_CORES && length == [0, 0, 0, 0] && live == 0
          invariant forall pl :: pl in lists ==> lists[pl] == []
          invariant forall c: Core, p: Prio :: p < i || (p == i && c < j) ==> Ready(c, p) in lists
        {
          lists := lists[Ready(j, i) := []];
        }
      }
    }

    /** current */
    function Current(me: Core): Process
      requires Valid() && running[me].Some?
      reads this
    {
      running[me].value
    }

    // -------------------------------------------------------------- choosing a core

    method SchedPickcpuBusiest() returns (busiest: Core)
      requires Valid()
      ensures busiest == Busiest(length)
    {
      busiest := 0;
      var count := 0;
      for i := 0 to NUM_CORES
        invariant (busiest, count) == BusiestScan(length, i)
      {
        if length[i] > count {
          busiest := i;
          count := length[i];
        }
      }
    }

    method SchedPickcpuInactive(mask: set<Core>) returns (inactive: Core)
      requires Valid()
      ensures inactive == Inactive(mask, length)
    {
      inactive := 0;
      var count := INT32_MAX;
      for cpu := 0 to NUM_CORES
        invariant (inactive, count) == InactiveScan(mask, length, cpu)
      {
        if length[cpu] < count && cpu in mask {
          inactive := cpu;
          count := length[cpu];
        }
      }
    }

    method SchedPickcpu(me: Core, mask: set<Core>) returns (cpu: Core)
      requires Valid()
      ensures cpu == PickCpu(me, mask, Seen(length, length[me], live))
      ensures Plausible(Seen(length, length[me], live)) && 100 * length[me] <= INT32_MAX ==>
        RightChoice(me, mask, Seen(length, length[me], live), cpu)
    {
      if Plausible(Seen(length, length[me], live)) && 100 * length[me] <= INT32_MAX {
        PickCpuRight(me, mask, Seen(length, length[me], live));
      }
      var inactive := SchedPickcpuInactive(mask);
      if me !in mask {
        return inactive;
      }
      if live != 0 && Word64(Int32(100 * length[me])) / live > 25 {
        return inactive;
      }
      return me;
    }

    // -------------------------------------------------------------- moving processes

    /** list_del_init(&process->sched_list) */
    method ListDelInit(process: Process)
      requires Valid()
      modifies this`lists
      ensures Valid() && lists == Detached(old(lists), process)
      ensures process !in Members(lists)
    {
      DetachedKeeps(lists, process);
      if h :| h in lists && process in lists[h] {
        var i :| 0 <= i < |lists[h]| && lists[h][i] == process;
        DetachedAt(lists, h, i);
        lists := Drop(lists, h, i);
      }
    }

    /** ready(): from wherever it is to the tail of the chosen core's queue. */
    method MakeReady(me: Core, process: Process) returns (ghost c: Core)
      requires Valid()
      modifies this`lists, this`length, process`state
      ensures Valid() && process.state == Runnable
      ensures c == PickCpu(me, process.mask, Seen(old(length), old(length)[me], live))
      ensures lists == Append(Detached(old(lists), process), Ready(c, process.priority), process)
      ensures length == old(length)[c := old(length)[c] + 1]
    {
      process.state := Runnable;
      var cpu := SchedPickcpu(me, process.mask);
      c := cpu;
      length := length[cpu := length[cpu] + 1];
      ListDelInit(process);
      AppendKeeps(lists, Ready(cpu, process.priority), process);
      lists := Append(lists, Ready(cpu, process.priority), process);
    }

    /** sleep_on_locked */
    method SleepOnLocked(head: Place, task: Process)
      requires Valid() && head.Wait?
      modifies this`lists, task`blockedOn
      ensures Valid() && task.blockedOn == Some(head)
      ensures lists == Append(Detached(old(lists), task), head, task)
    {
      task.blockedOn := Some(head);
      ListDelInit(task);
      AppendKeeps(lists, head, task);
      lists := Append(lists, head, task);
    }

    /** The part of next() that takes the first process of a list. */
    method TakeFirst(me: Core, p: Prio) returns (first: Process)
      requires Valid() && lists[Ready(me, p)] != []
      modifies this`lists, this`length
      ensures Valid() && (old(Counted()) ==> Counted())
      ensures first == old(lists)[Ready(me, p)][0] && lists == Drop(old(lists), Ready(me, p), 0)
      ensures length == old(length)[me := old(length)[me] - 1]
    {
      DropKeeps(lists, Ready(me, p), 0);
      TallyDropped(lists, length, me, p);
      first := lists[Ready(me, p)][0];
      lists := Drop(lists, Ready(me, p), 0);
      length := length[me := length[me] - 1];
    }

    /** next() */
    method Next(me: Core) returns (process: Option<Process>)
      requires Valid()
      modifies this`lists, this`length, this`running
      ensures Valid() && (old(Counted()) ==> Counted())
      ensures Taken(me, old(lists), old(length), process, lists, length)
      ensures running == if process == None then old(running) else old(running)[me := process]
    {
      var i := 4;
      while i > 0
        invariant 0 <= i <= 4
        invariant Top(lists, Heads(me)) == Top(lists, Heads(me)[..i])
        invariant lists == old(lists) && length == old(length) && running == old(running)
      {
        i := i - 1;
        var head := Heads(me)[i];
        assert Heads(me)[..i + 1][..i] == Heads(me)[..i];
        if lists[head] != [] {
          var first := TakeFirst(me, i);
          running := running[me := Some(first)];
          return Some(first);
        }
      }
      return None;
    }

    /** SCHED: the current process gives way. */
    method Yield(me: Core) returns (sched: Option<Process>, ghost c: Core)
      requires Valid() && running[me].Some?
      modifies this`lists, this`length, this`running, Current(me)`state
      ensures Valid() && running == if sched == None then old(running) else old(running)[me := sched]
      ensures c == PickCpu(me, old(Current(me).mask), Seen(old(length), old(length)[me], live))
      ensures var current := old(Current(me));
        Taken(me, Append(Detached(old(lists), current), Ready(c, current.priority), current),
              old(length)[c := old(length)[c] + 1], sched, lists, length) == true
      ensures old(Counted()) && old(Current(me)) !in Members(old(lists)) ==> Counted()
    {
      var current := Current(me);
      c := MakeReady(me, current);
      NotDetached(old(lists), current);
      TallyAdded(old(lists), old(length), c, current.priority, current);
      sched := Next(me);
    }

    /** The end of common_interrupt: which process the core goes on with. */
    method Dispatch(me: Core, code: ReturnState) returns (sched: Option<Process>, ghost c: Core)
      requires Valid() && running[me].Some?
      modifies this`lists, this`length, this`running, Current(me)`state
      ensures Valid()
      ensures code.Continue? ==>
        sched == old(running[me]) && lists == old(lists) && length == old(length) && running == old(running)
      ensures code.Blocked? || code.Exited? ==> Taken(me, old(lists), old(length), sched, lists, length) == true
      ensures code.Reschedule? ==>
        && c == PickCpu(me, old(Current(me).mask), Seen(old(length), old(length)[me], live))
        && var current := old(Current(me));
           Taken(me, Append(Detached(old(lists), current), Ready(c, current.priority), current),
                 old(length)[c := old(length)[c] + 1], sched, lists, length) == true
      ensures !code.Continue? ==> running == if sched == None then old(running) else old(running)[me := sched]
    {
      sched, c := running[me], me;
      match code
      case Continue =>
      case Reschedule =>
        sched, c := Yield(me);
      case Blocked => sched := Next(me);
      case Exited => sched := Next(me);
    }

    // -------------------------------------------------------------- waking and pulling

    /** The body of the loop of alert_on_locked_nr. */
    method WakeOne(me: Core, head: Place, ghost i: nat, process: Process) returns (ghost c: Core)
      requires Valid() && head.Wait? && i < |At(lists, head)| && At(lists, head)[i] == process
      modifies this`lists, this`length, process`state
      ensures Valid() && process.state == Runnable
      ensures c == PickCpu(me, process.mask, Seen(old(length), old(length)[me], live))
      ensures lists == Move(old(lists), head, i, Ready(c, process.priority))
      ensures length == old(length)[c := old(length)[c] + 1]
    {
      DetachedAt(lists, head, i);
      ListDelInit(process);
      NotDetached(lists, process);
      c := MakeReady(me, process);
    }

    /** The same, in the course of a walk over the list. */
    method WakeNext(me: Core, head: Place, p: Process, ghost start: map<Place, seq<Process>>, ghost lengths: seq<int>,
                    ghost kept: seq<Process>, ghost rest: seq<Process>, ghost woken: seq<Process>,
                    ghost masks: seq<set<Core>>)
      requires Valid() == true && head.Wait?
      requires Alerted(start, lengths, live, me, head, kept + [p] + rest, woken, masks, lists, length) == true
      modifies this`lists, this`length, p`state
      ensures Valid() == true
      ensures Alerted(start, lengths, live, me, head, kept + rest, woken + [p], masks + [p.mask], lists, length) == true
    {
      AlertedAt(start, lengths, live, me, head, kept + [p] + rest, woken, masks, lists, length);
      ghost var c := WakeOne(me, head, |kept|, p);
      AlertStep(start, lengths, live, me, head, kept, p, p.mask, rest, woken, masks, old(lists), old(length), c);
    }

    /** The loop of alert_on_locked_nr. */
    method AlertLoop(me: Core, head: Place, condition: Process -> bool, ghost s: seq<Process>)
        returns (ghost woken: seq<Process>, ghost masks: seq<set<Core>>)
      requires Valid() == true && head.Wait? && head in lists && lists[head] == s
      modifies this`lists, this`length, s`state
      ensures Valid() == true
      ensures woken == Filter(s, condition) && masks == old(Masks(woken))
      ensures Alerted(old(lists), old(length), live, me, head, Reject(s, condition), woken, masks, lists, length)
        == true
    {
      ghost var k := 0;
      woken, masks := [], [];
      var kept, rest := [], lists[head];
      NoneAlerted(lists, head);
      while rest != []
        invariant Valid() == true
        invariant Visited(s, k, condition, kept, rest, woken) == true && masks == old(Masks(woken))
        invariant Alerted(old(lists), old(length), live, me, head, kept + rest, woken, masks, lists, length) == true
        decreases |rest|
      {
        VisitNext(s, k, condition, kept, rest, woken);
        var curr := rest[0];
        if condition(curr) {
          WakeNext(me, head, curr, old(lists), old(length), kept, rest[1..], woken, masks);
          assert (woken + [curr])[..|woken|] == woken;
          woken, masks := woken + [curr], masks + [old(curr.mask)];
        } else {
          kept := kept + [curr];
        }
        rest, k := rest[1..], k + 1;
      }
      VisitEnd(s, k, condition, kept, rest, woken);
    }

    /** alert_on_locked_nr as written: nr decides only whether anything happens at all. Otherwise every process on the
        list for which the condition holds is made ready, in list order, and the rest keep their places. */
    method AlertOnLockedNr(me: Core, head: Place, condition: Process -> bool, nr: nat)
      requires Valid() && head.Wait? && head in lists
      modifies this`lists, this`length, lists[head]`state
      ensures Valid() && (old(Counted()) ==> Counted())
      ensures nr == 0 ==> lists == old(lists) && length == old(length)
      ensures nr > 0 ==>
        var woken := Filter(old(lists)[head], condition);
        Alerted(old(lists), old(length), live, me, head, Reject(old(lists)[head], condition), woken, old(Masks(woken)),
                lists, length) == true
    {
      if nr == 0 { return; }
      ghost var woken, masks := AlertLoop(me, head, condition, lists[head]);
      AlertTally(old(lists), old(length), live, me, head, Reject(old(lists)[head], condition), woken, masks, lists,
                 length);
    }

    /** alert_on_locked */
    method AlertOnLocked(me: Core, head: Place, condition: Process -> bool)
      requires Valid() && head.Wait? && head in lists
      modifies this`lists, this`length, lists[head]`state
      ensures Valid() && (old(Counted()) ==> Counted())
      ensures var woken := Filter(old(lists)[head], condition);
        Alerted(old(lists), old(length), live, me, head, Reject(old(lists)[head], condition), woken, old(Masks(woken)),
                lists, length) == true
    {
      AlertOnLockedNr(me, head, condition, UINT32 - 1);
    }

    /** The part of the loop of sched_pull that moves a process, its mask narrowed to the puller meanwhile. */
    method PullOne(me: Core, busy: Core, ghost i: nat, p: Process)
      requires Valid() && busy != me && me in p.mask && p.priority == PRIORITY_IDLE && length[me] < INT32_MAX
      requires i < |At(lists, Ready(busy, PRIORITY_IDLE))| && At(lists, Ready(busy, PRIORITY_IDLE))[i] == p
      modifies this`lists, this`length, p`state, p`mask
      ensures Valid() && p.mask == old(p.mask)
      ensures lists == Move(old(lists), Ready(busy, PRIORITY_IDLE), i, Ready(me, PRIORITY_IDLE))
      ensures length == old(length)[busy := old(length)[busy] - 1][me := old(length)[me] + 1]
    {
      length := length[busy := length[busy] - 1];
      var restore := p.mask;
      p.mask := {me} * p.mask;
      assert p.mask == {me};
      DetachedAt(lists, Ready(busy, PRIORITY_IDLE), i);
      TiedTo(me, length, live);
      ghost var c := MakeReady(me, p);
      p.mask := restore;
    }

    /** The body of the loop of sched_pull. */
    method PullNext(me: Core, busy: Core, curr: Process, ghost start: map<Place, seq<Process>>, ghost lengths: seq<int>,
                    ghost f: Process -> bool, ghost i: nat, ghost after: seq<Process>, ghost moved: seq<Process>)
      requires Valid() == true && PullScanned(start, lengths, busy, me, f, i + 1, after, moved, lists, length) == true
      requires !Balanced(length[busy], length[me]) && start[Ready(busy, PRIORITY_IDLE)][i] == curr
      requires curr.priority == PRIORITY_IDLE && (f(curr) <==> me in curr.mask)
      requires lengths[busy] <= INT32_MAX
      modifies this`lists, this`length, curr`state, curr`mask
      ensures Valid() == true && curr.mask == old(curr.mask)
      ensures PullScanned(start, lengths, busy, me, f, i, if f(curr) then after else [curr] + after,
                          if f(curr) then moved + [curr] else moved, lists, length) == true
    {
      PullStep(start, lengths, busy, me, f, i + 1, after, moved, lists, length);
      var target := {me} * curr.mask;
      if me in target {
        RoomToPull(length[busy], length[me]);
        PullOne(me, busy, i, curr);
      }
    }

    /** The processes of the list that may run on the core. */
    ghost function Allowed(pl: Place, me: Core): set<Process>
      reads this, At(lists, pl)`mask
    {
      set p | p in At(lists, pl) && me in p.mask
    }

    /** The loop of sched_pull. */
    method PullLoop(me: Core, busy: Core, ghost f: Process -> bool, ghost s: seq<Process>)
        returns (i: nat, ghost after: seq<Process>, ghost moved: seq<Process>)
      requires Valid() == true && lists[Ready(busy, PRIORITY_IDLE)] == s
      requires PullScanned(lists, length, busy, me, f, |s|, [], [], lists, length) == true
      requires length[busy] <= INT32_MAX
      requires forall p :: p in s ==> p.priority == PRIORITY_IDLE && (f(p) <==> me in p.mask)
      modifies this`lists, this`length, s`state, s`mask
      ensures Valid() == true && forall p :: p in s ==> p.mask == old(p.mask)
      ensures PullScanned(old(lists), old(length), busy, me, f, i, after, moved, lists, length) == true
      ensures i == 0 || Balanced(length[busy], length[me])
    {
      i, after, moved := |lists[Ready(busy, PRIORITY_IDLE)]|, [], [];
      while i > 0 && !Balanced(length[busy], length[me])
        invariant Valid() == true && 0 <= i <= |s|
        invariant forall p :: p in s ==> p.mask == old(p.mask)
        invariant PullScanned(old(lists), old(length), busy, me, f, i, after, moved, lists, length) == true
      {
        ScannedAt(old(lists), old(length), busy, me, f, i, after, moved, lists, length);
        i := i - 1;
        var curr := lists[Ready(busy, PRIORITY_IDLE)][i];
        PullNext(me, busy, curr, old(lists), old(length), f, i, after, moved);
        after, moved := if f(curr) then after else [curr] + after, if f(curr) then moved + [curr] else moved;
      }
    }

    /** sched_pull, once it has found the busiest core. */
    method PullFrom(me: Core, busy: Core, ghost f: Process -> bool)
      requires Valid() && Counted() && busy != me && length[busy] <= INT32_MAX
      requires forall p ::
        p in lists[Ready(busy, PRIORITY_IDLE)] ==> p.priority == PRIORITY_IDLE && (f(p) <==> me in p.mask)
      modifies this`lists, this`length, lists[Ready(busy, PRIORITY_IDLE)]`state, lists[Ready(busy, PRIORITY_IDLE)]`mask
      ensures Valid() && Counted()
      ensures forall p :: p in old(lists)[Ready(busy, PRIORITY_IDLE)] ==> p.mask == old(p.mask)
      ensures Pulling(old(lists), old(length), busy, me, f, lists, length) == true
    {
      ghost var s := lists[Ready(busy, PRIORITY_IDLE)];
      assert |s| <= length[busy] && 0 <= length[me] by {
        assert length[busy] == Queued(lists, busy) && length[me] == Queued(lists, me);
      }
      PullStart(lists, length, busy, me, f);
      var i;
      ghost var after, moved;
      i, after, moved := PullLoop(me, busy, f, s);
      PullEnd(old(lists), old(length), busy, me, f, i, after, moved, lists, length);
      PullTally(old(lists), old(length), busy, me, f, lists, length);
    }

    /** sched_pull as written: the list it scans, from its tail, is the idle list of the busiest core. */
    method SchedPull(me: Core)
      requires Valid() && Counted()
      requires forall c: Core :: length[c] <= INT32_MAX
      requires forall c: Core, p :: p in lists[Ready(c, PRIORITY_IDLE)] ==> p.priority == PRIORITY_IDLE
      modifies this`lists, this`length
      modifies lists[Ready(Busiest(length), PRIORITY_IDLE)]`state, lists[Ready(Busiest(length), PRIORITY_IDLE)]`mask
      ensures Valid() && Counted()
      ensures forall p :: p in old(lists)[Ready(Busiest(old(length)), PRIORITY_IDLE)] ==> p.mask == old(p.mask)
      ensures Busiest(old(length)) == me ==> lists == old(lists) && length == old(length)
      ensures var busy := Busiest(old(length)); busy != me ==>
        Pulling(old(lists), old(length), busy, me, In(old(Allowed(Ready(busy, PRIORITY_IDLE), me))), lists, length)
          == true
    {
      var busy := SchedPickcpuBusiest();
      if busy == me { return; }
      PullFrom(me, busy, In(Allowed(Ready(busy, PRIORITY_IDLE), me)));
    }
  }

  /** What sched_pull does to the lists and the lengths. */
  ghost predicate Pulling(start: map<Place, seq<Process>>, lengths: seq<int>, busy: Core, me: Core, f: Process -> bool,
                          lists: map<Place, seq<Process>>, length: seq<int>) {
    var from, to := Ready(busy, PRIORITY_IDLE), Ready(me, PRIORITY_IDLE);
    && |lengths| == NUM_CORES && lengths[busy] >= |At(start, from)| && lengths[me] >= 0
    && var r := PullScan(At(start, from), f, lengths[busy], lengths[me]);
       && lists == start[from := r.rest][to := At(start, to) + r.moved]
       && length == lengths[busy := r.busy][me := r.idle]
  }

  lemma PullTally(start: map<Place, seq<Process>>, lengths: seq<int>, busy: Core, me: Core, f: Process -> bool,
                  lists: map<Place, seq<Process>>, length: seq<int>)
    requires busy != me && Pulling(start, lengths, busy, me, f, lists, length) && Tallied(start, lengths)
    ensures |length| == NUM_CORES && Tallied(lists, length)
  {
    var from, to := Ready(busy, PRIORITY_IDLE), Ready(me, PRIORITY_IDLE);
    PullSizes(At(start, from), f, lengths[busy], lengths[me]);
    var r := PullScan(At(start, from), f, lengths[busy], lengths[me]);
    forall c: Core ensures length[c] == Queued(lists, c) {
      assert lengths[c] == Queued(start, c);
      IdleListSet(start, busy, r.rest, c);
      IdleListSet(start[from := r.rest], me, At(start, to) + r.moved, c);
    }
  }

  lemma IdleListSet(m: map<Place, seq<Process>>, b: Core, s: seq<Process>, c: Core)
    ensures Queued(m[Ready(b, PRIORITY_IDLE) := s], c)
      == Queued(m, c) + if c == b then |s| - |At(m, Ready(b, PRIORITY_IDLE))| else 0
  {
  }

  function In<N(==)>(s: set<N>): N -> bool {
    n => n in s
  }

  /** Part of the way through sched_pull: the first `i` processes of the scanned list are still to be looked at. */
  ghost predicate PullScanned(start: map<Place, seq<Process>>, lengths: seq<int>, busy: Core, me: Core,
                              f: Process -> bool, i: int,
                          after: seq<Process>, moved: seq<Process>, lists: map<Place, seq<Process>>, length: seq<int>) {
    var from, to := Ready(busy, PRIORITY_IDLE), Ready(me, PRIORITY_IDLE);
    && busy != me && |lengths| == NUM_CORES && |length| == NUM_CORES && from in start && to in start
    && 0 <= i <= |start[from]|
    && lengths[busy] >= length[busy] >= 0 && length[me] >= lengths[me] >= 0
    && Scanned(start[from], f, lengths[busy], lengths[me], start[from][..i], after, moved, length[busy], length[me])
       == true
    && lists == start[from := start[from][..i] + after][to := start[to] + moved]
    && length == lengths[busy := length[busy]][me := length[me]]
  }

  lemma PullStart(lists: map<Place, seq<Process>>, length: seq<int>, busy: Core, me: Core, f: Process -> bool)
    requires busy != me && |length| == NUM_CORES && Ready(busy, PRIORITY_IDLE) in lists
    requires Ready(me, PRIORITY_IDLE) in lists
    requires |lists[Ready(busy, PRIORITY_IDLE)]| <= length[busy] && 0 <= length[me]
    ensures PullScanned(lists, length, busy, me, f, |lists[Ready(busy, PRIORITY_IDLE)]|, [], [], lists, length)
  {
    var s := lists[Ready(busy, PRIORITY_IDLE)];
    assert s[..|s|] == s && s + [] == s;
    assert forall x: seq<Process> :: x + [] == x && [] + x == x;
  }

  /** The scan passes one more process. */
  lemma PassOne<N>(s: seq<N>, i: int, after: seq<N>)
    requires 0 < i <= |s|
    ensures s[..i][i - 1] == s[i - 1] && s[..i][..i - 1] == s[..i - 1]
    ensures s[..i] + after == s[..i - 1] + ([s[i - 1]] + after)
    ensures i - 1 < |s[..i] + after| && (s[..i] + after)[i - 1] == s[i - 1]
    ensures Without(s[..i] + after, i - 1) == s[..i - 1] + after
  {
  }

  lemma PullPasses(start: map<Place, seq<Process>>, lengths: seq<int>, busy: Core, me: Core, f: Process -> bool, i: int,
                   after: seq<Process>, moved: seq<Process>, lists: map<Place, seq<Process>>, length: seq<int>,
                   n: Process)
    requires PullScanned(start, lengths, busy, me, f, i, after, moved, lists, length)
    requires 0 < i && !Balanced(length[busy], length[me]) && n == start[Ready(busy, PRIORITY_IDLE)][i - 1] && !f(n)
    ensures PullScanned(start, lengths, busy, me, f, i - 1, [n] + after, moved, lists, length)
  {
    var s := start[Ready(busy, PRIORITY_IDLE)];
    PassOne(s, i, after);
    ScanNext(s, f, lengths[busy], lengths[me], s[..i], after, moved, length[busy], length[me]);
  }

  lemma PullMoves(start: map<Place, seq<Process>>, lengths: seq<int>, busy: Core, me: Core, f: Process -> bool, i: int,
                  after: seq<Process>, moved: seq<Process>, lists: map<Place, seq<Process>>, length: seq<int>,
                  n: Process)
    requires PullScanned(start, lengths, busy, me, f, i, after, moved, lists, length)
    requires 0 < i && !Balanced(length[busy], length[me]) && n == start[Ready(busy, PRIORITY_IDLE)][i - 1] && f(n)
    requires i <= |At(lists, Ready(busy, PRIORITY_IDLE))|
    ensures PullScanned(start, lengths, busy, me, f, i - 1, after, moved + [n],
                        Move(lists, Ready(busy, PRIORITY_IDLE), i - 1, Ready(me, PRIORITY_IDLE)),
                        length[busy := length[busy] - 1][me := length[me] + 1])
  {
    var from, to := Ready(busy, PRIORITY_IDLE), Ready(me, PRIORITY_IDLE);
    ScanMoves(start[from], f, lengths[busy], lengths[me], i, after, moved, length[busy], length[me]);
    MoveSet(start, from, to, start[from], i, after, moved);
    LengthsSet(lengths, busy, me, length[busy], length[me], length[busy] - 1, length[me] + 1);
  }

  lemma ScanMoves<N>(s: seq<N>, f: N -> bool, busy0: nat, idle0: nat, i: int, after: seq<N>, moved: seq<N>, busy: int,
                     idle: int)
    requires 0 < i <= |s| && Scanned(s, f, busy0, idle0, s[..i], after, moved, busy, idle) && !Balanced(busy, idle)
    requires f(s[i - 1])
    ensures Scanned(s, f, busy0, idle0, s[..i - 1], after, moved + [s[i - 1]], busy - 1, idle + 1) == true
  {
    PassOne(s, i, after);
    ScanNext(s, f, busy0, idle0, s[..i], after, moved, busy, idle);
  }

  lemma LengthsSet(lengths: seq<int>, b: Core, c: Core, v: int, w: int, x: int, y: int)
    requires |lengths| == NUM_CORES && b != c
    ensures var r := lengths[b := v][c := w][b := x][c := y]; r == lengths[b := x][c := y] && r[b] == x && r[c] == y
  {
  }

  lemma MoveSet<N>(m: map<Place, seq<N>>, from: Place, to: Place, s: seq<N>, i: int, after: seq<N>, moved: seq<N>)
    requires from != to && 0 < i <= |s| && to in m
    ensures var now := m[from := s[..i] + after][to := m[to] + moved];
      && i - 1 < |At(now, from)|
      && Move(now, from, i - 1, to) == m[from := s[..i - 1] + after][to := m[to] + (moved + [s[i - 1]])]
  {
    PassOne(s, i, after);
    assert m[to] + moved + [s[i - 1]] == m[to] + (moved + [s[i - 1]]);
  }

  lemma PullStep(start: map<Place, seq<Process>>, lengths: seq<int>, busy: Core, me: Core, f: Process -> bool, i: int,
                 after: seq<Process>, moved: seq<Process>, lists: map<Place, seq<Process>>, length: seq<int>)
    requires PullScanned(start, lengths, busy, me, f, i, after, moved, lists, length)
    requires 0 < i && !Balanced(length[busy], length[me])
    ensures var from, to := Ready(busy, PRIORITY_IDLE), Ready(me, PRIORITY_IDLE); var n := start[from][i - 1];
      && from in lists && i <= |lists[from]| && lists[from][i - 1] == n
      && if f(n) then PullScanned(start, lengths, busy, me, f, i - 1, after, moved + [n], Move(lists, from, i - 1, to),
                              length[busy := length[busy] - 1][me := length[me] + 1]) == true
         else PullScanned(start, lengths, busy, me, f, i - 1, [n] + after, moved, lists, length) == true
  {
    var n := start[Ready(busy, PRIORITY_IDLE)][i - 1];
    ScannedAt(start, lengths, busy, me, f, i, after, moved, lists, length);
    if f(n) {
      PullMoves(start, lengths, busy, me, f, i, after, moved, lists, length, n);
    } else {
      PullPasses(start, lengths, busy, me, f, i, after, moved, lists, length, n);
    }
  }

  lemma ScannedAt(start: map<Place, seq<Process>>, lengths: seq<int>, busy: Core, me: Core, f: Process -> bool, i: int,
                  after: seq<Process>, moved: seq<Process>, lists: map<Place, seq<Process>>, length: seq<int>)
    requires PullScanned(start, lengths, busy, me, f, i, after, moved, lists, length) && 0 < i
    ensures var from := Ready(busy, PRIORITY_IDLE);
      from in start && i <= |start[from]| && from in lists && i <= |lists[from]|
      && lists[from][i - 1] == start[from][i - 1] && start[from][i - 1] in start[from]
  {
  }

  lemma PullEnd(start: map<Place, seq<Process>>, lengths: seq<int>, busy: Core, me: Core, f: Process -> bool, i: int,
                after: seq<Process>, moved: seq<Process>, lists: map<Place, seq<Process>>, length: seq<int>)
    requires PullScanned(start, lengths, busy, me, f, i, after, moved, lists, length)
    requires (i == 0 || Balanced(length[busy], length[me]))
    ensures Pulling(start, lengths, busy, me, f, lists, length)
  {
    var s := start[Ready(busy, PRIORITY_IDLE)];
    ScanEnd(s, f, lengths[busy], lengths[me], s[..i], after, moved, length[busy], length[me]);
  }

  /** A mask that names one core leads there. */
  lemma TiedTo(me: Core, length: seq<int>, live: nat)
    requires |length| == NUM_CORES && length[me] < INT32_MAX
    ensures PickCpu(me, {me}, Seen(length, length[me], live)) == me
  {
    InactiveIsLeast({me}, length);
  }

  /** What an alert leaves behind: each queue has its share of the woken processes at its tail, in the order in which
      they waited, and no other wait queue has changed. */
  lemma AlertDelivers(start: map<Place, seq<Process>>, lengths: seq<int>, live: nat, me: Core, head: Place,
                      left: seq<Process>,
                      woken: seq<Process>, masks: seq<set<Core>>, lists: map<Place, seq<Process>>, length: seq<int>,
                      pl: Place)
    requires Alerted(start, lengths, live, me, head, left, woken, masks, lists, length)
    ensures |Picks(me, masks, lengths, live)| == |woken|
    ensures At(lists, pl) == if pl == head then left
      else At(start, pl) + Share(woken, Destinations(woken, Picks(me, masks, lengths, live)), pl)
  {
    DealAt(start, woken, Destinations(woken, Picks(me, masks, lengths, live)), pl);
  }

  /** Part of the way through alert_on_locked_nr: `woken` have been made ready in that order, `left` are on the list. */
  ghost predicate Alerted(start: map<Place, seq<Process>>, lengths: seq<int>, live: nat, me: Core, head: Place,
                          left: seq<Process>,
                          woken: seq<Process>, masks: seq<set<Core>>, lists: map<Place, seq<Process>>,
                          length: seq<int>) {
    |lengths| == NUM_CORES && |masks| == |woken| &&
    var picks := Picks(me, masks, lengths, live);
    lists == Deal(start, woken, Destinations(woken, picks))[head := left] && length == Loaded(lengths, picks)
  }

  lemma {:induction false} DealTally(start: map<Place, seq<Process>>, lengths: seq<int>, woken: seq<Process>,
                                     picks: seq<Core>)
    requires |lengths| == NUM_CORES && |picks| == |woken|
    ensures Tallied(start, lengths) ==> Tallied(Deal(start, woken, Destinations(woken, picks)), Loaded(lengths, picks))
  {
    if woken != [] {
      var n := |woken| - 1;
      DealTally(start, lengths, woken[..n], picks[..n]);
      TallyAdded(Deal(start, woken[..n], Destinations(woken[..n], picks[..n])), Loaded(lengths, picks[..n]), picks[n],
                 woken[n].priority, woken[n]);
    }
  }

  lemma AlertTally(start: map<Place, seq<Process>>, lengths: seq<int>, live: nat, me: Core, head: Place,
                   left: seq<Process>,
                   woken: seq<Process>, masks: seq<set<Core>>, lists: map<Place, seq<Process>>, length: seq<int>)
    requires head.Wait? && Alerted(start, lengths, live, me, head, left, woken, masks, lists, length) == true
    ensures |length| == NUM_CORES && |lengths| == NUM_CORES && (Tallied(start, lengths) ==> Tallied(lists, length))
  {
    var picks := Picks(me, masks, lengths, live);
    DealTally(start, lengths, woken, picks);
    WaitListSet(Deal(start, woken, Destinations(woken, picks)), head, left);
  }

  lemma WaitListSet(m: map<Place, seq<Process>>, head: Place, left: seq<Process>)
    requires head.Wait?
    ensures forall c: Core {:trigger Queued(m[head := left], c)} :: Queued(m[head := left], c) == Queued(m, c)
  {
  }

  lemma NoneAlerted(lists: map<Place, seq<Process>>, head: Place)
    requires head in lists
    ensures lists == Deal(lists, [], [])[head := [] + lists[head]]
  {
    assert [] + lists[head] == lists[head];
  }

  lemma AlertedAt(start: map<Place, seq<Process>>, lengths: seq<int>, live: nat, me: Core, head: Place,
                  left: seq<Process>,
                  woken: seq<Process>, masks: seq<set<Core>>, lists: map<Place, seq<Process>>, length: seq<int>)
    requires Alerted(start, lengths, live, me, head, left, woken, masks, lists, length) == true
    ensures At(lists, head) == left && |length| == NUM_CORES
  {
  }

  lemma AlertStep(start: map<Place, seq<Process>>, lengths: seq<int>, live: nat, me: Core, head: Place,
                  kept: seq<Process>,
                  p: Process, mask: set<Core>, rest: seq<Process>, woken: seq<Process>, masks: seq<set<Core>>,
                  lists: map<Place, seq<Process>>, length: seq<int>, c: Core)
    requires head.Wait?
    requires Alerted(start, lengths, live, me, head, kept + [p] + rest, woken, masks, lists, length) == true
    requires |length| == NUM_CORES && c == PickCpu(me, mask, Seen(length, length[me], live))
    ensures |kept| < |At(lists, head)|
    ensures Alerted(start, lengths, live, me, head, kept + rest, woken + [p], masks + [mask],
                    Move(lists, head, |kept|, Ready(c, p.priority)), length[c := length[c] + 1]) == true
  {
    DealStep(start, head, kept, p, rest, woken, Picks(me, masks, lengths, live), c);
    PickNext(me, masks, mask, lengths, live, length, c);
  }

  /** One more process dealt out. */
  lemma DealStep(start: map<Place, seq<Process>>, head: Place, kept: seq<Process>, p: Process, rest: seq<Process>,
                 woken: seq<Process>, picks: seq<Core>, c: Core)
    requires |picks| == |woken| && head.Wait?
    ensures var now := Deal(start, woken, Destinations(woken, picks))[head := kept + [p] + rest];
      Move(now, head, |kept|, Ready(c, p.priority))
      == Deal(start, woken + [p], Destinations(woken + [p], picks + [c]))[head := kept + rest]
  {
    DealFrom(start, woken, Destinations(woken, picks), head, kept, p, rest, Ready(c, p.priority));
    assert (woken + [p])[..|woken|] == woken && (picks + [c])[..|woken|] == picks;
  }

  lemma NotDetached<H, N>(m: map<H, seq<N>>, n: N)
    ensures n !in Members(m) ==> Detached(m, n) == m
  {
  }
}
