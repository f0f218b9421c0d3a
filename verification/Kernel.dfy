/** The kernel as a multi-core step system.

    Each event is one section of kernel code on one core that other cores see as a whole: the code between taking
    and releasing a run-queue, semaphore or wait-queue lock, an atomic update, or code that touches nothing shared.
    Events of different cores interleave freely. Values read without a lock are arbitrary (`Seen`). One map says
    which task is held where: on a core, in the hand of a core that is creating it, in a run queue, in a wait queue.
 */
module Kernel {
  import opened Rings
  import opened Placement

  type Tid = nat
  const UINT32: nat := 0x1_0000_0000
  const EAGAIN: int := 11
  const EINVAL: int := 22

  datatype WaitId = SemQ(sem: nat) | JoinQ(task: Tid)
  datatype Place = Ready(core: Core, prio: Prio) | Wait(q: WaitId) | Running(core: Core) | Hand(core: Core)

  datatype Kind = IdleOf(core: Core) | Thread
  datatype StatusPtr = Null | Cell(addr: nat)
  // `ret` is the value to return; `x0` is what the task last found in X0 when it went to user mode.
  datatype Task = Task(prio: Prio, mask: set<Core>, kind: Kind, ret: int, x0: int, status: StatusPtr)

  // What a core does once proc_create has made its task ready.
  datatype AfterMake = ThenRoot | ThenDispatch | ThenReturn

  datatype Phase =
    | Off                                               // before kernel_start
    | Making(registered: bool, next: AfterMake)         // in proc_create, the new task in hand
    | Rooting                                           // kernel_start, idle task made
    | User                                              // running its task in user mode
    | Looked(target: Tid)                               // proc_join, after get_process
    | Leaving                                           // about to switch_to its task
    | Returning(task: Tid)                              // __sem_wait, lock let go, `current->ret = 0` still to come
    | Posting(sem: nat, woken: nat)                     // waking waiters, semaphore lock held; a __sem_post begins
                                                        // with 0 woken, a __sem_destroy with 1, as no post owes
                                                        // its first wake
    | Dying(task: Tid, value: int)                      // proc_exit, waiting.lock not yet taken
    | Burying(task: Tid, value: int, woken: nat)        // proc_exit waking joiners, waiting.lock held
    | Unlinking(task: Tid)                              // proc_exit, joiners woken
    | Scan(prio: Prio)                                  // next(), about to lock the queue for this priority
    | Stuck                                             // next() returned NULL

  // A semaphore, with its history since __sem_init: initial value, posts, grants, and wakes beyond one per post; once
  // doomed, its lock has been taken by __sem_destroy, which never lets it go.
  datatype Sem = Sem(count: nat, init: nat, posts: nat, grants: nat, extra: nat, doomed: bool)

  datatype State = State(
    own: map<Place, seq<Tid>>,
    length: seq<int>,              // ready_queue[core].length
    tasks: map<Tid, Task>,         // every task ever created
    phase: seq<Phase>,
    liveProcs: int,                // live_procs
    nextPid: nat,
    registered: set<Tid>,          // process_list and the pid hash
    idle: map<Core, Tid>,          // the idle task kernel_start made on each core
    sems: map<nat, Sem>,
    cells: map<nat, int>,          // user memory written through the pointers given to pthread_create and pthread_join
    bounded: bool)                 // does alert_on_locked_nr honour nr? As written it does not.

  datatype Event =
    | Boot(core: Core)
    | Root(core: Core)
    | Create(core: Core, thread: nat, mask: set<Core>, arg: int)
    | Register(core: Core)
    | Start(core: Core, seen: Seen)
    | Resched(core: Core, seen: Seen)
    | SetAffinity(core: Core, mask: set<Core>, seen: Seen)
    | SemInit(core: Core, sem: nat, init: nat)
    | SemWait(core: Core, sem: nat)
    | Return(core: Core)
    | SemTryWait(core: Core, sem: nat)
    | SemPost(core: Core, sem: nat)
    | SemDestroy(core: Core, sem: nat)
    | Wake(core: Core, seen: Seen)
    | WakeDone(core: Core)
    | JoinLookup(core: Core, target: Tid, status: StatusPtr)
    | JoinSleep(core: Core)
    | Exit(core: Core, value: int)
    | Bury(core: Core)
    | Unlink(core: Core)
    | Look(core: Core)
    | SwitchTo(core: Core)
    | Pull(core: Core, busy: Core, index: nat)

  // ---------------------------------------------------------------- states

  /** Before any core runs kernel_start. */
  predicate Initial(s: State) {
    && s.own == map[] && s.length == [0, 0, 0, 0] && s.tasks == map[] && s.phase == [Off, Off, Off, Off]
    && s.liveProcs == 0 && s.nextPid == 1 && s.registered == {} && s.idle == map[] && s.sems == map[]
  }

  predicate Shaped(s: State) {
    |s.length| == NUM_CORES && |s.phase| == NUM_CORES
  }

  /** A first task, known to the task table. */
  predicate Has(s: State, pl: Place) {
    At(s.own, pl) != [] && At(s.own, pl)[0] in s.tasks
  }

  function First(s: State, pl: Place): Tid
    requires Has(s, pl)
  {
    At(s.own, pl)[0]
  }

  function FirstTask(s: State, pl: Place): Task
    requires Has(s, pl)
  {
    s.tasks[First(s, pl)]
  }

  /** No core is waking the semaphore's waiters. */
  predicate NobodyWakes(s: State, q: nat) {
    forall c: Core :: c < |s.phase| ==> !(s.phase[c].Posting? && s.phase[c].sem == q)
  }

  /** The semaphore's lock can be taken: no core holds it across events, and no destroy has kept it. */
  predicate SemFree(s: State, q: nat) {
    NobodyWakes(s, q) && (q in s.sems ==> !s.sems[q].doomed)
  }

  /** No core holds the task's waiting.lock across events. */
  predicate JoinFree(s: State, t: Tid) {
    forall c: Core :: c < |s.phase| ==> !(s.phase[c].Burying? && s.phase[c].task == t)
  }

  /** The core runs, in user mode, a task that makes system calls; the idle tasks never do. */
  predicate Calls(s: State, c: Core) {
    Shaped(s) && s.phase[c] == User && Has(s, Running(c)) && FirstTask(s, Running(c)).kind == Thread
  }

  /** The wait queue whose lock the core holds. */
  function Waking(ph: Phase): Place
    requires ph.Posting? || ph.Burying?
  {
    Wait(if ph.Posting? then SemQ(ph.sem) else JoinQ(ph.task))
  }

  /** Where nr is honoured, a post has woken the one task it is to wake. A destroy wakes all that wait. */
  predicate Sated(s: State, ph: Phase) {
    ph.Posting? && s.bounded && ph.woken > 0 && ph.sem in s.sems && !s.sems[ph.sem].doomed
  }

  /** Joining a task that is not registered, or oneself, or pid 0, fails at once. */
  predicate JoinFails(s: State, c: Core, target: Tid)
    requires Has(s, Running(c))
  {
    target == 0 || target !in s.registered || target == First(s, Running(c))
  }

  // ---------------------------------------------------------------- when an event can happen

  predicate Enabled(s: State, e: Event) {
    Shaped(s) && match e
      case Boot(c) => s.phase[c] == Off
      case Root(c) => s.phase[c] == Rooting
      case Create(c, thread, mask, arg) => Calls(s, c)
      case Register(c) => s.phase[c].Making? && !s.phase[c].registered && Has(s, Hand(c))
      case Start(c, seen) => s.phase[c].Making? && s.phase[c].registered && Has(s, Hand(c)) && Plausible(seen)
      case Resched(c, seen) => s.phase[c] == User && Has(s, Running(c)) && Plausible(seen)
      case SetAffinity(c, mask, seen) => Calls(s, c) && Plausible(seen)
      // For the first time, or after a destroy.
      case SemInit(c, q, init) =>
        Calls(s, c) && init < UINT32 && (q in s.sems ==> s.sems[q].doomed && NobodyWakes(s, q))
      case SemWait(c, q) => Calls(s, c) && q in s.sems && SemFree(s, q)
      case Return(c) => s.phase[c].Returning? && s.phase[c].task in s.tasks
      case SemTryWait(c, q) => Calls(s, c) && q in s.sems && SemFree(s, q)
      case SemPost(c, q) => Calls(s, c) && q in s.sems && SemFree(s, q)
      case SemDestroy(c, q) => Calls(s, c) && q in s.sems && SemFree(s, q)
      case Wake(c, seen) =>
        && (s.phase[c].Posting? || s.phase[c].Burying?) && Has(s, Waking(s.phase[c])) && Plausible(seen)
        && (s.phase[c].Posting? ==> s.phase[c].sem in s.sems && !Sated(s, s.phase[c]))
      case WakeDone(c) =>
        && (s.phase[c].Posting? || s.phase[c].Burying?)
        && (s.phase[c].Posting? ==> Has(s, Running(c)))
        && (At(s.own, Waking(s.phase[c])) == [] || Sated(s, s.phase[c]))
      case JoinLookup(c, target, status) => Calls(s, c)
      case JoinSleep(c) => s.phase[c].Looked? && Has(s, Running(c)) && JoinFree(s, s.phase[c].target)
      case Exit(c, value) => Calls(s, c)
      case Bury(c) => s.phase[c].Dying? && JoinFree(s, s.phase[c].task)
      case Unlink(c) => s.phase[c].Unlinking?
      case Look(c) => s.phase[c].Scan?
      case SwitchTo(c) => s.phase[c] == Leaving && Has(s, Running(c))
      case Pull(c, b, i) =>
        && s.phase[c] == User && c != b && i < |At(s.own, Ready(b, PRIORITY_IDLE))|
        && var t := At(s.own, Ready(b, PRIORITY_IDLE))[i]; t in s.tasks && c in s.tasks[t].mask
  }

  // ---------------------------------------------------------------- which task moves

  /** What an event does to the lists: at most one task is added, moved or taken away. */
  datatype Effect = Still | Birth(core: Core) | Shift(from: Place, index: nat, to: Place) | Death(core: Core)

  /** ready(): the first task of `from` goes to the tail of a run queue of its priority, on the core
      sched_pickcpu names. */
  function ReadyFrom(s: State, me: Core, from: Place, mask: set<Core>, seen: Seen): Effect
    requires Has(s, from) && Plausible(seen)
  {
    Shift(from, 0, Ready(PickCpu(me, mask, seen), FirstTask(s, from).prio))
  }

  function EffectOf(s: State, e: Event): Effect
    requires Enabled(s, e)
  {
    match e
    case Boot(c) => Birth(c)
    case Root(c) => Birth(c)
    case Create(c, thread, mask, arg) => Birth(c)
    case Start(c, seen) => ReadyFrom(s, c, Hand(c), FirstTask(s, Hand(c)).mask, seen)
    case Resched(c, seen) => ReadyFrom(s, c, Running(c), FirstTask(s, Running(c)).mask, seen)
    // The test as written: reschedule when the core is still allowed.
    case SetAffinity(c, mask, seen) => if c in mask then ReadyFrom(s, c, Running(c), mask, seen) else Still
    case SemWait(c, q) => if s.sems[q].count > 0 then Still else Shift(Running(c), 0, Wait(SemQ(q)))
    case Wake(c, seen) => ReadyFrom(s, c, Waking(s.phase[c]), FirstTask(s, Waking(s.phase[c])).mask, seen)
    case JoinSleep(c) => Shift(Running(c), 0, Wait(JoinQ(s.phase[c].target)))
    case Exit(c, value) => Death(c)
    case Look(c) =>
      var from := Ready(c, s.phase[c].prio);
      if At(s.own, from) != [] then Shift(from, 0, Running(c)) else Still
    case Pull(c, b, i) =>
      var from := Ready(b, PRIORITY_IDLE);
      Shift(from, i, Ready(c, s.tasks[At(s.own, from)[i]].prio))
    case _ => Still
  }

  predicate Fits(own: map<Place, seq<Tid>>, f: Effect) {
    match f
    case Shift(from, i, to) => i < |At(own, from)|
    case Death(c) => At(own, Running(c)) != []
    case _ => true
  }

  function Moved(own: map<Place, seq<Tid>>, f: Effect, pid: Tid): map<Place, seq<Tid>>
    requires Fits(own, f)
  {
    match f
    case Still => own
    case Birth(c) => Append(own, Hand(c), pid)
    case Shift(from, i, to) => Move(own, from, i, to)
    case Death(c) => Drop(own, Running(c), 0)
  }

  /** 1 for the run queues of the core, 0 elsewhere. */
  function On(pl: Place, c: Core): int {
    if pl.Ready? && pl.core == c then 1 else 0
  }

  /** The lengths are adjusted in the lock sections that move the task. */
  function Lengths(length: seq<int>, f: Effect): (r: seq<int>)
    requires |length| == NUM_CORES
    ensures |r| == NUM_CORES
  {
    if !f.Shift? then length
    else seq(NUM_CORES, c requires 0 <= c < NUM_CORES => length[c] - On(f.from, c) + On(f.to, c))
  }

  // ---------------------------------------------------------------- what a core does next

  /** Where a core goes on once proc_create has made its task ready. */
  function Made(next: AfterMake): Phase {
    match next
    case ThenRoot => Rooting
    case ThenDispatch => Scan(PRIORITY_HIGH)
    case ThenReturn => Leaving
  }

  function PhaseAfter(s: State, e: Event): Phase
    requires Enabled(s, e)
  {
    var ph := s.phase[e.core];
    match e
    case Boot(c) => Making(false, ThenRoot)
    case Root(c) => Making(false, ThenDispatch)
    case Create(c, thread, mask, arg) => Making(false, ThenReturn)
    case Register(c) => Making(true, ph.next)
    case Start(c, seen) => Made(ph.next)
    case Resched(c, seen) => Scan(PRIORITY_HIGH)
    case SetAffinity(c, mask, seen) => if c in mask then Scan(PRIORITY_HIGH) else Leaving
    case SemInit(c, q, init) => Leaving
    case SemWait(c, q) => if s.sems[q].count > 0 then Leaving else Returning(First(s, Running(c)))
    case Return(c) => Scan(PRIORITY_HIGH)
    case SemTryWait(c, q) => Leaving
    case SemPost(c, q) => if At(s.own, Wait(SemQ(q))) == [] then Leaving else Posting(q, 0)
    case SemDestroy(c, q) => if At(s.own, Wait(SemQ(q))) == [] then Leaving else Posting(q, 1)
    case Wake(c, seen) =>
      if ph.Posting? then Posting(ph.sem, ph.woken + 1) else Burying(ph.task, ph.value, ph.woken + 1)
    case WakeDone(c) => if ph.Posting? then Leaving else Unlinking(ph.task)
    case JoinLookup(c, target, status) => if JoinFails(s, c, target) then Leaving else Looked(target)
    case JoinSleep(c) => Scan(PRIORITY_HIGH)
    case Exit(c, value) => Dying(First(s, Running(c)), value)
    case Bury(c) => Burying(ph.task, ph.value, 0)
    case Unlink(c) => Scan(PRIORITY_HIGH)
    case Look(c) =>
      if At(s.own, Ready(c, ph.prio)) != [] then Leaving
      else if ph.prio == PRIORITY_IDLE then Stuck else Scan(ph.prio - 1)
    case SwitchTo(c) => User
    case Pull(c, b, i) => User
  }

  // ---------------------------------------------------------------- the fields of the tasks

  function Returns(s: State, c: Core, value: int): map<Tid, Task>
    requires Has(s, Running(c))
  {
    s.tasks[First(s, Running(c)) := FirstTask(s, Running(c)).(ret := value)]
  }

  function TasksAfter(s: State, e: Event): map<Tid, Task>
    requires Enabled(s, e)
  {
    match e
    case Boot(c) => s.tasks[s.nextPid := Task(PRIORITY_IDLE, {c}, IdleOf(c), 0, 0, Null)]
    case Root(c) => s.tasks[s.nextPid := Task(PRIORITY_MED, {c}, Thread, 0, 0, Null)]
    case Create(c, thread, mask, arg) => Returns(s, c, 0)[s.nextPid := Task(PRIORITY_MED, mask, Thread, arg, 0, Null)]
    case SetAffinity(c, mask, seen) =>
      s.tasks[First(s, Running(c)) := FirstTask(s, Running(c)).(mask := mask, ret := 0)]
    case SemInit(c, q, init) => Returns(s, c, 0)
    case SemWait(c, q) => if s.sems[q].count > 0 then Returns(s, c, 0) else s.tasks
    case Return(c) => s.tasks[s.phase[c].task := s.tasks[s.phase[c].task].(ret := 0)]
    case SemTryWait(c, q) => Returns(s, c, if TryGrants(s.sems[q]) then 0 else EAGAIN)
    case SemPost(c, q) => if At(s.own, Wait(SemQ(q))) == [] then Returns(s, c, 0) else s.tasks
    case SemDestroy(c, q) => if At(s.own, Wait(SemQ(q))) == [] then Returns(s, c, 0) else s.tasks
    case Wake(c, seen) =>
      // wake_waiting: the joiner's call returns 0.
      if s.phase[c].Burying?
      then s.tasks[First(s, Waking(s.phase[c])) := FirstTask(s, Waking(s.phase[c])).(ret := 0)]
      else s.tasks
    case WakeDone(c) => if s.phase[c].Posting? then Returns(s, c, 0) else s.tasks
    case JoinLookup(c, target, status) =>
      if JoinFails(s, c, target) then Returns(s, c, EINVAL)
      else s.tasks[First(s, Running(c)) := FirstTask(s, Running(c)).(status := status)]
    case SwitchTo(c) => s.tasks[First(s, Running(c)) := FirstTask(s, Running(c)).(x0 := FirstTask(s, Running(c)).ret)]
    case _ => s.tasks
  }

  /** proc_create writes the new pid where the caller wants it; wake_waiting writes the exit value through the joiner's
      status pointer, if it gave one. */
  function CellsAfter(s: State, e: Event): map<nat, int>
    requires Enabled(s, e)
  {
    if e.Create? then s.cells[e.thread := s.nextPid]
    else if e.Wake? && s.phase[e.core].Burying? && FirstTask(s, Waking(s.phase[e.core])).status.Cell?
    then s.cells[FirstTask(s, Waking(s.phase[e.core])).status.addr := s.phase[e.core].value]
    else s.cells
  }

  function RegisteredAfter(s: State, e: Event): set<Tid>
    requires Enabled(s, e)
  {
    match e
    case Register(c) => s.registered + {First(s, Hand(c))}
    case Unlink(c) => s.registered - {s.phase[c].task}
    case _ => s.registered
  }

  // ---------------------------------------------------------------- the semaphores

  /** An unsigned int read as an int. */
  function Signed(n: nat): int {
    if n % UINT32 < UINT32 / 2 then n % UINT32 else n % UINT32 - UINT32
  }

  /** `int count = sem->count - 1; if (count >= 0)`: the difference is unsigned, and then read as signed. */
  predicate TryGrants(sem: Sem) {
    Signed(sem.count + UINT32 - 1) >= 0
  }

  function Granted(sem: Sem): Sem {
    sem.(count := (sem.count + UINT32 - 1) % UINT32, grants := sem.grants + 1)
  }

  function SemsAfter(s: State, e: Event): map<nat, Sem>
    requires Enabled(s, e)
  {
    match e
    case SemInit(c, q, init) => s.sems[q := Sem(init, init, 0, 0, 0, false)]
    case SemWait(c, q) => if s.sems[q].count > 0 then s.sems[q := Granted(s.sems[q])] else s.sems
    case SemTryWait(c, q) => if TryGrants(s.sems[q]) then s.sems[q := Granted(s.sems[q])] else s.sems
    case SemPost(c, q) =>
      var sem := s.sems[q].(posts := s.sems[q].posts + 1);
      s.sems[q := if At(s.own, Wait(SemQ(q))) == [] then sem.(count := (sem.count + 1) % UINT32) else sem]
    case SemDestroy(c, q) => s.sems[q := s.sems[q].(doomed := true)]
    case Wake(c, seen) =>
      if s.phase[c].Posting? then
        var sem := s.sems[s.phase[c].sem];
        var surplus := if s.phase[c].woken > 0 then 1 else 0;
        s.sems[s.phase[c].sem := sem.(grants := sem.grants + 1, extra := sem.extra + surplus)]
      else s.sems
    case _ => s.sems
  }

  // ---------------------------------------------------------------- steps and runs

  lemma EffectFits(s: State, e: Event)
    requires Enabled(s, e)
    ensures Fits(s.own, EffectOf(s, e))
  {
  }

  function After(s: State, e: Event): State
    requires Enabled(s, e)
  {
    EffectFits(s, e);
    var f := EffectOf(s, e);
    var born, died := if f.Birth? then 1 else 0, if f.Death? then 1 else 0;
    State(Moved(s.own, f, s.nextPid), Lengths(s.length, f), TasksAfter(s, e), s.phase[e.core := PhaseAfter(s, e)],
          s.liveProcs + born - died, s.nextPid + born, RegisteredAfter(s, e),
          if e.Boot? then s.idle[e.core := s.nextPid] else s.idle, SemsAfter(s, e), CellsAfter(s, e), s.bounded)
  }

  /** Every event can happen when its turn comes. */
  predicate Runs(s: State, es: seq<Event>)
    decreases es
  {
    es == [] || (Enabled(s, es[0]) && Runs(After(s, es[0]), es[1..]))
  }

  function End(s: State, es: seq<Event>): State
    requires Runs(s, es)
    decreases es
  {
    if es == [] then s else End(After(s, es[0]), es[1..])
  }
}
