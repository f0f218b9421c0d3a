/** The semaphores of semaphore.c, run by one core with nobody in between, on top of the dispatcher. What they keep
    when the cores interleave is proved in `KernelSems` and `KernelCounts`. */
module Semaphores {
  import opened Rings
  import opened Placement
  import opened Kernel
  import opened Dispatchers

  const ENOSYS: int := 88

  class Semaphore {
    const head: Place       // sem->tasks
    var count: nat          // unsigned int
    var flag: bool          // sem->lock.flag

    ghost predicate Valid(d: Dispatcher)
      reads this, d
    {
      d.Valid() && head.Wait? && head in d.lists && count < UINT32
    }

    /** Tasks wait only while the count is 0. */
    ghost predicate Settled(d: Dispatcher)
      reads this, d
      requires Valid(d)
    {
      d.lists[head] != [] ==> count == 0
    }

    constructor (head: Place)
      requires head.Wait?
      ensures this.head == head && count == 0 && !flag
    {
      this.head := head;
      count := 0;
      flag := false;
    }

    /** __sem_init: sharing between processes is not supported. Whoever waited on a semaphore initialised anew is
        forgotten. */
    method Init(d: Dispatcher, current: Process, pshared: int, value: nat) returns (code: ReturnState)
      requires d.Valid() && head.Wait? && value < UINT32
      modifies this, d`lists, current`ret
      ensures code == Continue && d.Valid()
      ensures pshared != 0 ==>
        current.ret == ENOSYS && d.lists == old(d.lists) && count == old(count) && flag == old(flag)
      ensures pshared == 0 ==> current.ret == 0 && count == value && !flag && d.lists == old(d.lists)[head := []]
      ensures pshared == 0 ==> Valid(d) && Settled(d)
    {
      if pshared != 0 {
        current.ret := ENOSYS;
        return Continue;
      }
      flag := false;
      count := value;
      Forgets(d.lists, head);
      d.lists := d.lists[head := []];
      current.ret := 0;
      return Continue;
    }

    method Wait(d: Dispatcher, current: Process) returns (code: ReturnState)
      requires Valid(d) && !flag
      modifies this`count, this`flag, d`lists, current`ret, current`blockedOn
      ensures Valid(d) && !flag && current.ret == 0 && (old(Settled(d)) ==> Settled(d))
      ensures old(count) > 0 ==> code == Continue && count == old(count) - 1 && d.lists == old(d.lists)
      ensures old(count) == 0 ==>
        code == Blocked && count == 0 && d.lists == Append(Detached(old(d.lists), current), head, current)
    {
      flag := true;
      if count > 0 {
        count := count - 1;
        flag := false;
        current.ret := 0;
        return Continue;
      } else {
        DetachedKeeps(d.lists, current);
        d.SleepOnLocked(head, current);
        flag := false;
        current.ret := 0;
        return Blocked;
      }
    }

    /** __sem_trywait: the count less one is stored back only if it does not read as negative. */
    method TryWait(d: Dispatcher, current: Process) returns (code: ReturnState)
      requires Valid(d) && !flag
      modifies this`count, this`flag, current`ret
      ensures Valid(d) && !flag && code == Continue && (old(Settled(d)) ==> Settled(d))
      ensures if 1 <= old(count) <= UINT32 / 2 then count == old(count) - 1 && current.ret == 0
        else count == old(count) && current.ret == EAGAIN
    {
      flag := true;
      var left := Signed((count + UINT32 - 1) % UINT32);
      if left >= 0 {
        count := left;
      }
      flag := false;
      current.ret := if left < 0 then EAGAIN else 0;
      return Continue;
    }

    /** __sem_post as written: a post either raises the count or empties the wait list, all of it, in arrival order. */
    method Post(d: Dispatcher, me: Core, current: Process) returns (code: ReturnState)
      requires Valid(d) && !flag
      modifies this`count, this`flag, d`lists, d`length, d.lists[head]`state, current`ret
      ensures Valid(d) && !flag && current.ret == 0 && code == Continue && (old(Settled(d)) ==> Settled(d))
      ensures old(d.lists[head]) == [] ==>
        count == (old(count) + 1) % UINT32 && d.lists == old(d.lists) && d.length == old(d.length)
      ensures old(d.lists[head]) != [] ==>
        && count == old(count) && d.lists[head] == []
        && Alerted(old(d.lists), old(d.length), d.live, me, head, [], old(d.lists[head]), old(Masks(d.lists[head])),
                   d.lists, d.length) == true
    {
      flag := true;
      if d.lists[head] == [] {
        count := (count + 1) % UINT32;
      } else {
        AlertAll(d, me, head, 1);
      }
      flag := false;
      current.ret := 0;
      return Continue;
    }

    method GetValue(d: Dispatcher, current: Process) returns (code: ReturnState, value: int)
      requires Valid(d) && !flag
      modifies this`flag, current`ret
      ensures Valid(d) && !flag && current.ret == 0 && code == Continue
      ensures value == Signed(count)
    {
      flag := true;
      value := Signed(count);
      flag := false;
      current.ret := 0;
      code := Continue;
    }

    /** __sem_destroy as written: every waiter is woken, and the lock is never let go. */
    method Destroy(d: Dispatcher, me: Core, current: Process) returns (code: ReturnState)
      requires Valid(d) && !flag
      modifies this`flag, d`lists, d`length, d.lists[head]`state, current`ret
      ensures Valid(d) && flag && current.ret == 0 && code == Continue && d.lists[head] == []
      ensures Alerted(old(d.lists), old(d.length), d.live, me, head, [], old(d.lists[head]),
                      old(Masks(d.lists[head])), d.lists, d.length) == true
    {
      flag := true;
      AlertAll(d, me, head, UINT32 - 1);
      current.ret := 0;
      return Continue;
    }
  }

  /** Every caller in the kernel wakes whoever waits. */
  method AlertAll(d: Dispatcher, me: Core, head: Place, nr: nat)
    requires d.Valid() && head.Wait? && head in d.lists && nr > 0
    modifies d`lists, d`length, d.lists[head]`state
    ensures d.Valid() && head in d.lists && d.lists[head] == []
    ensures Alerted(old(d.lists), old(d.length), d.live, me, head, [], old(d.lists[head]), old(Masks(d.lists[head])),
                    d.lists, d.length) == true
  {
    FilterAll(d.lists[head], Always);
    d.AlertOnLockedNr(me, head, Always, nr);
  }

  predicate Always(process: Process) {
    true
  }

  lemma Forgets<H, N>(m: map<H, seq<N>>, h: H)
    requires Separate(m)
    ensures Separate(m[h := []])
  {
    var r := m[h := []];
    assert forall k, i :: Filled(r, k, i) ==> Filled(m, k, i) && r[k][i] == m[k][i];
  }
}
