/** Where the tasks go that the cores make ready, whatever all cores do: each event that makes a task ready sends it to
    the tail of one queue, on the core that the lengths it has read make the right one. */
module KernelReady {
  import opened Rings
  import opened Placement
  import opened Kernel
  import opened KernelInvariants

  /** The place whose first task the event makes ready: that of a task just made, of one that gives way, or of one that
      waits. */
  predicate Readies(s: State, e: Event, from: Place)
    requires Enabled(s, e)
  {
    match e
    case Start(c, seen) => from == Hand(c)
    case Resched(c, seen) => from == Running(c)
    case SetAffinity(c, mask, seen) => c in mask && from == Running(c)
    case Wake(c, seen) => from == Waking(s.phase[c])
    case _ => false
  }

  /** The task now stands last in this queue; no other queue, of any core or priority, has changed. */
  ghost predicate SentTo(s: State, r: State, t: Tid, d: Core, prio: Prio) {
    && At(r.own, Ready(d, prio)) == At(s.own, Ready(d, prio)) + [t]
    && forall c: Core, p: Prio :: c != d || p != prio ==> At(r.own, Ready(c, p)) == At(s.own, Ready(c, p))
  }

  lemma Sends(s: State, e: Event, from: Place, r: State)
    requires Enabled(s, e) && Readies(s, e, from) && r == After(s, e)
    ensures Has(s, from) && First(s, from) in r.tasks
    ensures var mask := r.tasks[First(s, from)].mask;
      SentTo(s, r, First(s, from), PickCpu(e.core, mask, e.seen), s.tasks[First(s, from)].prio)
  {
  }

  /** The choice is right for the lengths read, and the mask the one the task has asked for last. */
  lemma ReadyRight(s: State, e: Event, from: Place, r: State) returns (d: Core)
    requires Enabled(s, e) && Readies(s, e, from) && r == After(s, e) && 100 * e.seen.own <= INT32_MAX
    ensures Has(s, from) && First(s, from) in r.tasks
    ensures RightChoice(e.core, r.tasks[First(s, from)].mask, e.seen, d)
    ensures SentTo(s, r, First(s, from), d, s.tasks[First(s, from)].prio)
  {
    Sends(s, e, from, r);
    d := PickCpu(e.core, r.tasks[First(s, from)].mask, e.seen);
    PickCpuRight(e.core, r.tasks[First(s, from)].mask, e.seen);
  }

  /** A task that yields, or whose time is up, on a core that has room for it goes to the tail of that core's own
      queue. */
  lemma YieldStays(s: State, c: Core, seen: Seen, r: State)
    requires Enabled(s, Resched(c, seen)) && r == After(s, Resched(c, seen)) && 100 * seen.own <= INT32_MAX
    requires HasRoom(c, FirstTask(s, Running(c)).mask, seen)
    ensures SentTo(s, r, First(s, Running(c)), c, FirstTask(s, Running(c)).prio)
  {
    var d := ReadyRight(s, Resched(c, seen), Running(c), r);
  }
}
