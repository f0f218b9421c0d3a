/** The step system and the locks together: what an event of the step system reads or changes of the shared lists,
    tables and semaphores, the call it is part of does while it holds their locks. */
module KernelLocks {
  import opened Rings
  import opened Placement
  import opened Kernel
  import opened KernelInvariants
  import S = SpinLocks

  /** The lock of the list at a place; a core's own task, and the one in its hand, have none. */
  predicate Guards(l: S.Lock, pl: Place) {
    match pl
    case Ready(c, p) => l == S.Queue(c)
    case Wait(SemQ(q)) => l == S.Sem(q)
    case Wait(JoinQ(t)) => l == S.Waiting(t)
    case _ => false
  }

  predicate SameSem(s: State, r: State, q: nat) {
    (q in s.sems <==> q in r.sems) && (q in s.sems && q in r.sems ==> s.sems[q] == r.sems[q])
  }

  /** The event from `s` to `r` changes something that the lock protects: a list, a queue's length, a semaphore, or the
      table of tasks. */
  ghost predicate Changes(s: State, r: State, l: S.Lock)
    requires Shaped(s) && Shaped(r)
  {
    || (exists pl :: Guards(l, pl) && At(s.own, pl) != At(r.own, pl))
    || (l.Queue? && s.length[l.core] != r.length[l.core])
    || (l.Sem? && !SameSem(s, r, l.q))
    || ((l == S.ProcessList || l == S.ProcessHash) && s.registered != r.registered)
  }

  /** Or it reads what the lock protects: the semaphore of a call, the hash bucket of a pid, the list that next() looks
      into, or that a waking core finds empty. */
  predicate Reads(s: State, e: Event, l: S.Lock)
    requires Shaped(s)
  {
    match e
    case SemWait(c, q) => l == S.Sem(q)
    case SemTryWait(c, q) => l == S.Sem(q)
    case SemPost(c, q) => l == S.Sem(q)
    case SemDestroy(c, q) => l == S.Sem(q)
    case JoinLookup(c, t, status) => l == S.ProcessHash
    case Look(c) => l == S.Queue(c)
    case _ => false
  }

  /** How many lists the call looks into. */
  function Looks(call: S.Call): nat {
    match call
    case Wait(q, blocks, looks) => if blocks then looks else 0
    case Join(t, found, looks) => if found then looks else 0
    case Exit(t, joiners, traced, looks) => looks
    case Yield(to, looks) => looks
    case First(looks) => looks
    case _ => 0
  }

  /** The event is part of this call of its core. */
  predicate PartOf(s: State, e: Event, call: S.Call)
    requires Enabled(s, e)
  {
    match e
    case Boot(c) => call.Create?
    case Root(c) => call.Create?
    case Create(c, thread, mask, arg) => call.Create?
    case Register(c) => call.Create?
    case Start(c, seen) => call.Create? && EffectOf(s, e).to.core == call.to
    case Resched(c, seen) => call.Yield? && EffectOf(s, e).to.core == call.to
    case SetAffinity(c, mask, seen) => c in mask ==> call.Yield? && EffectOf(s, e).to.core == call.to
    case SemInit(c, q, init) => call == S.Init(q)
    case SemWait(c, q) => call.Wait? && call.q == q && (call.blocks <==> s.sems[q].count == 0)
    case Return(c) => call.Wait? && call.blocks
    case SemTryWait(c, q) => call == S.TryWait(q)
    case SemPost(c, q) => call.Post? && call.q == q
    case SemDestroy(c, q) => call.Destroy? && call.q == q
    case Wake(c, seen) =>
      var ph, to := s.phase[c], EffectOf(s, e).to.core;
      if ph.Posting? then (call.Post? || call.Destroy?) && call.q == ph.sem && to in call.woken
      else call.Exit? && call.task == ph.task && to in call.joiners
    case WakeDone(c) =>
      var ph := s.phase[c];
      if ph.Posting? then (call.Post? || call.Destroy?) && call.q == ph.sem else call.Exit? && call.task == ph.task
    case JoinLookup(c, t, status) => call.Join? && call.task == t && (call.found <==> !JoinFails(s, c, t))
    case JoinSleep(c) => call.Join? && call.found && call.task == s.phase[c].target
    case Exit(c, value) => call.Exit? && call.task == First(s, Running(c))
    case Bury(c) => call.Exit? && call.task == s.phase[c].task
    case Unlink(c) => call.Exit? && call.task == s.phase[c].task
    case Look(c) => Looks(call) > 0
    case SwitchTo(c) => true
    case Pull(c, b, i) => false
  }

  // ---------------------------------------------------------------- the locks an event needs

  /** What follows from the effect of an event and from what it reads. */
  predicate Needs(s: State, e: Event, l: S.Lock)
    requires Enabled(s, e)
  {
    || Reads(s, e, l)
    || (EffectOf(s, e).Shift? && (Guards(l, EffectOf(s, e).from) || Guards(l, EffectOf(s, e).to)))
    || (e.Register? && (l == S.ProcessList || l == S.ProcessHash))
    || (e.Wake? && Guards(l, Waking(s.phase[e.core])))
  }

  lemma ListChanged(own: map<Place, seq<Tid>>, f: Effect, pid: Tid, pl: Place, l: S.Lock)
    requires Fits(own, f) && Guards(l, pl) && At(Moved(own, f, pid), pl) != At(own, pl)
    ensures f.Shift? && (pl == f.from || pl == f.to)
  {
  }

  lemma LengthChanged(length: seq<int>, f: Effect, c: Core)
    requires |length| == NUM_CORES && Lengths(length, f)[c] != length[c]
    ensures f.Shift? && (Guards(S.Queue(c), f.from) || Guards(S.Queue(c), f.to))
  {
  }

  lemma SemTouched(s: State, e: Event, q: nat)
    requires Enabled(s, e) && !Reads(s, e, S.Sem(q)) && !e.SemInit?
    requires e.Wake? && s.phase[e.core].Posting? ==> s.phase[e.core].sem != q
    ensures q in SemsAfter(s, e) <==> q in s.sems
    ensures q in s.sems ==> SemsAfter(s, e)[q] == s.sems[q]
  {
  }

  lemma SemChanged(s: State, e: Event, r: State, q: nat)
    requires Enabled(s, e) && !e.SemInit? && r.sems == SemsAfter(s, e) && !SameSem(s, r, q)
    ensures Needs(s, e, S.Sem(q))
  {
    if !Reads(s, e, S.Sem(q)) && !(e.Wake? && s.phase[e.core].Posting? && s.phase[e.core].sem == q) {
      SemTouched(s, e, q);
    }
  }

  lemma TableChanged(s: State, e: Event)
    requires Enabled(s, e) && RegisteredAfter(s, e) != s.registered
    ensures e.Register? || e.Unlink?
  {
  }

  lemma ChangesNeeded(s: State, e: Event, r: State, l: S.Lock)
    requires Enabled(s, e) && !e.SemInit? && !e.Unlink? && r == After(s, e) && Changes(s, r, l)
    ensures Needs(s, e, l)
  {
    EffectFits(s, e);
    if pl :| Guards(l, pl) && At(s.own, pl) != At(r.own, pl) {
      ListChanged(s.own, EffectOf(s, e), s.nextPid, pl, l);
    } else if l.Queue? && s.length[l.core] != r.length[l.core] {
      LengthChanged(s.length, EffectOf(s, e), l.core);
    } else if l.Sem? && !SameSem(s, r, l.q) {
      SemChanged(s, e, r, l.q);
    } else {
      TableChanged(s, e);
    }
  }

  // ---------------------------------------------------------------- the locks its call holds

  /** Once the call has done the first `n` things with locks, it holds this one. */
  predicate HoldsAt(me: Core, call: S.Call, n: nat, l: S.Lock) {
    n <= |S.Script(me, call)| && l in S.HeldAt(S.Script(me, call), n)
  }

  /** It holds it when its table says so. */
  lemma HoldsWhen(me: Core, call: S.Call, n: nat, l: S.Lock)
    requires n < |S.Tenure(me, call)| && l in S.Tenure(me, call)[n]
    ensures HoldsAt(me, call, n + 1, l)
  {
    S.CallHolds(me, call);
    S.SameLength({}, S.Script(me, call), S.Tenure(me, call));
    S.TenureHeld(me, call, n);
  }

  lemma LookHolds(me: Core, call: S.Call) returns (n: nat)
    requires Looks(call) > 0
    ensures HoldsAt(me, call, n, S.Queue(me))
  {
    n := if call.First? then 0
      else if call.Join? then 4
      else if call.Exit? then 1 + |S.Under(S.Waiting(call.task), call.joiners)| + if call.traced then 2 else 0
      else 2;
    HoldsWhen(me, call, n, S.Queue(me));
    n := n + 1;
  }

  /** A wake: the lock of the wait queue and that of the run queue together. */
  lemma BothHeld(me: Core, call: S.Call, l: S.Lock, to: Core) returns (n: nat)
    requires || ((call.Post? || call.Destroy?) && l == S.Sem(call.q) && to in call.woken)
             || (call.Exit? && l == S.Waiting(call.task) && to in call.joiners)
    ensures HoldsAt(me, call, n, l) && HoldsAt(me, call, n, S.Queue(to))
  {
    var woken := if call.Exit? then call.joiners else call.woken;
    var i :| 0 <= i < |woken| && woken[i] == to;
    BothThere(me, call, l, woken, i);
    HoldsWhen(me, call, 2 * i + 1, l);
    HoldsWhen(me, call, 2 * i + 1, S.Queue(to));
    n := 2 * i + 2;
  }

  lemma BothThere(me: Core, call: S.Call, l: S.Lock, woken: seq<Core>, i: nat)
    requires || ((call.Post? || call.Destroy?) && l == S.Sem(call.q) && woken == call.woken)
             || (call.Exit? && l == S.Waiting(call.task) && woken == call.joiners)
    requires i < |woken|
    ensures 2 * i + 1 < |S.Tenure(me, call)| && S.Tenure(me, call)[2 * i + 1] == {l, S.Queue(woken[i])}
  {
    S.UnderAt(l, woken, i);
    var front := [{l}] + S.Under(l, woken);
    assert front[2 * i + 1] == S.Under(l, woken)[2 * i];
    assert front <= S.Tenure(me, call);
  }

  lemma SemNeeds(s: State, e: Event, call: S.Call, l: S.Lock)
    requires Enabled(s, e) && PartOf(s, e, call) && (e.SemWait? || e.SemTryWait? || e.SemPost? || e.SemDestroy?)
    requires Needs(s, e, l)
    ensures HoldsAt(e.core, call, 1, l)
  {
    HoldsWhen(e.core, call, 0, l);
  }

  lemma MakerNeeds(s: State, e: Event, call: S.Call, l: S.Lock)
    requires Enabled(s, e) && PartOf(s, e, call) && (e.Register? || e.Start?) && Needs(s, e, l)
    ensures HoldsAt(e.core, call, if e.Register? then 4 else 7, l)
  {
    HoldsWhen(e.core, call, if e.Register? then 3 else 6, l);
  }

  lemma YieldNeeds(s: State, e: Event, call: S.Call, l: S.Lock)
    requires Enabled(s, e) && PartOf(s, e, call) && (e.Resched? || e.SetAffinity?) && Needs(s, e, l)
    ensures HoldsAt(e.core, call, 1, l)
  {
    HoldsWhen(e.core, call, 0, l);
  }

  lemma JoinNeeds(s: State, e: Event, call: S.Call, l: S.Lock)
    requires Enabled(s, e) && PartOf(s, e, call) && (e.JoinLookup? || e.JoinSleep?) && Needs(s, e, l)
    ensures HoldsAt(e.core, call, if e.JoinLookup? then 1 else 3, l)
  {
    HoldsWhen(e.core, call, if e.JoinLookup? then 0 else 2, l);
  }

  lemma WakeNeeds(s: State, e: Event, call: S.Call) returns (n: nat)
    requires Enabled(s, e) && PartOf(s, e, call) && e.Wake?
    ensures forall l :: Needs(s, e, l) ==> HoldsAt(e.core, call, n, l)
  {
    var ph := s.phase[e.core];
    n := BothHeld(e.core, call, if ph.Posting? then S.Sem(ph.sem) else S.Waiting(ph.task), EffectOf(s, e).to.core);
  }

  lemma LookNeeds(s: State, e: Event, call: S.Call) returns (n: nat)
    requires Enabled(s, e) && PartOf(s, e, call) && e.Look?
    ensures forall l :: Needs(s, e, l) ==> HoldsAt(e.core, call, n, l)
  {
    n := LookHolds(e.core, call);
  }

  lemma NothingNeeded(s: State, e: Event, call: S.Call, l: S.Lock)
    requires Enabled(s, e) && PartOf(s, e, call) && Needs(s, e, l)
    ensures || e.Register? || e.Start? || e.Resched? || e.SetAffinity? || e.SemWait? || e.SemTryWait? || e.SemPost?
            || e.SemDestroy? || e.Wake? || e.JoinLookup? || e.JoinSleep? || e.Look?
  {
  }

  lemma NeedsHeld(s: State, e: Event, call: S.Call) returns (n: nat)
    requires Enabled(s, e) && PartOf(s, e, call)
    ensures forall l :: Needs(s, e, l) ==> HoldsAt(e.core, call, n, l)
  {
    if e.Wake? {
      n := WakeNeeds(s, e, call);
    } else if e.Look? {
      n := LookNeeds(s, e, call);
    } else {
      n := if e.Register? then 4 else if e.Start? then 7 else if e.JoinSleep? then 3 else 1;
      forall l | Needs(s, e, l) ensures HoldsAt(e.core, call, n, l) {
        NothingNeeded(s, e, call, l);
        if e.Register? || e.Start? {
          MakerNeeds(s, e, call, l);
        } else if e.Resched? || e.SetAffinity? {
          YieldNeeds(s, e, call, l);
        } else if e.JoinLookup? || e.JoinSleep? {
          JoinNeeds(s, e, call, l);
        } else {
          SemNeeds(s, e, call, l);
        }
      }
    }
  }

  /** At one moment of the call, all the locks that the event needs are held. The two exceptions are those of the code:
      sem_init takes no lock, and proc_exit unlinks its task without those of the tables. */
  lemma Covered(s: State, e: Event, r: State, call: S.Call) returns (n: nat)
    requires Enabled(s, e) && PartOf(s, e, call) && !e.SemInit? && !e.Unlink? && r == After(s, e)
    ensures forall l :: Changes(s, r, l) || Reads(s, e, l) ==> HoldsAt(e.core, call, n, l)
  {
    n := NeedsHeld(s, e, call);
    forall l | Changes(s, r, l) || Reads(s, e, l) ensures HoldsAt(e.core, call, n, l) {
      if !Reads(s, e, l) { ChangesNeeded(s, e, r, l); }
      assert Needs(s, e, l);
    }
  }

  /** The initialisation of a semaphore holds no lock at any time. */
  lemma InitHoldsNone(me: Core, q: nat, n: nat)
    requires n <= |S.Script(me, S.Init(q))|
    ensures S.HeldAt(S.Script(me, S.Init(q)), n) == {}
  {
    if n > 0 { InitHoldsNone(me, q, n - 1); }
  }

  lemma {:induction false} HeldTaken(script: seq<S.Action>, n: nat, l: S.Lock)
    requires n <= |script| && l in S.HeldAt(script, n)
    ensures S.Acquire(l) in script
  {
    if script[n - 1] != S.Acquire(l) { HeldTaken(script, n - 1, l); }
  }

  lemma {:induction false} ReadiesTake(to: seq<Core>, l: S.Lock)
    requires S.Acquire(l) in S.Readies(to)
    ensures l.Queue?
  {
    if S.Acquire(l) !in S.Section(S.Queue(to[0])) { ReadiesTake(to[1..], l); }
  }

  lemma {:induction false} OwnQueueTakes(me: Core, looks: nat, l: S.Lock)
    requires S.Acquire(l) in S.OwnQueue(me, looks)
    ensures l.Queue?
  {
    if S.Acquire(l) !in S.Section(S.Queue(me)) { OwnQueueTakes(me, looks - 1, l); }
  }

  /** And proc_exit never holds a lock of the tables. */
  lemma ExitWithoutTables(me: Core, call: S.Call, n: nat, l: S.Lock)
    requires call.Exit? && HoldsAt(me, call, n, l)
    ensures l != S.ProcessList && l != S.ProcessHash
  {
    HeldTaken(S.Script(me, call), n, l);
    if S.Acquire(l) in S.Readies(call.joiners) { ReadiesTake(call.joiners, l); }
    if S.Acquire(l) in S.OwnQueue(me, call.looks) { OwnQueueTakes(me, call.looks, l); }
  }

  /** Every event but a pull is part of some call. */
  lemma PartOfSome(s: State, e: Event) returns (call: S.Call)
    requires Enabled(s, e) && !e.Pull?
    ensures PartOf(s, e, call)
  {
    var to: Core := if EffectOf(s, e).Shift? && EffectOf(s, e).to.Ready? then EffectOf(s, e).to.core else 0;
    call := S.Create(to);
    match e
    case Resched(c, seen) => call := S.Yield(to, 1);
    case SetAffinity(c, mask, seen) => call := S.Yield(to, 1);
    case SemInit(c, q, init) => call := S.Init(q);
    case SemWait(c, q) => call := S.Wait(q, s.sems[q].count == 0, 1);
    case Return(c) => call := S.Wait(0, true, 1);
    case SemTryWait(c, q) => call := S.TryWait(q);
    case SemPost(c, q) => call := S.Post(q, []);
    case SemDestroy(c, q) => call := S.Destroy(q, []);
    case Wake(c, seen) =>
      call := if s.phase[c].Posting? then S.Post(s.phase[c].sem, [to]) else S.Exit(s.phase[c].task, [to], false, 1);
    case WakeDone(c) =>
      call := if s.phase[c].Posting? then S.Post(s.phase[c].sem, []) else S.Exit(s.phase[c].task, [], false, 1);
    case JoinLookup(c, t, status) => call := S.Join(t, !JoinFails(s, c, t), 1);
    case JoinSleep(c) => call := S.Join(s.phase[c].target, true, 1);
    case Exit(c, value) => call := S.Exit(First(s, Running(c)), [], false, 1);
    case Bury(c) => call := S.Exit(s.phase[c].task, [], false, 1);
    case Unlink(c) => call := S.Exit(s.phase[c].task, [], false, 1);
    case Look(c) => call := S.First(1);
    case _ =>
  }
}
