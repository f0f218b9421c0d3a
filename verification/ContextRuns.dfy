/** Interrupted tasks over whole runs of four cores that share one memory.

    Each core steps on its own: its task computes, an interrupt saves the task's registers on the task's stack and
    parks the task, the handler works, and switch_to takes some parked task, perhaps one that another core parked.
    The steps are those of `Machine.EnterKernel` and `Machine.LeaveKernel` (see SwitchTasks). */
module ContextRuns {
  import opened Placement
  import opened Contexts

  type Tid = nat

  datatype CpuState = OnTask(task: Tid, regs: Regs) | InKernel

  /** `frames` has exactly the parked tasks: a frame that has been popped is no longer one. */
  datatype State = State(mem: Memory, cores: seq<CpuState>, frames: map<Tid, int>, rets: map<Tid, Word>)

  datatype Event =
    | Compute(core: Core)                // user code
    | Enter(core: Core)                  // an interrupt, up to switch_from
    | Work(core: Core)                   // the handler, in C
    | Create(core: Core, task: Tid)      // proc_create has copied the first frame of a new task
    | Leave(core: Core, task: Tid)       // switch_to and the ERET

  type Stacks = map<Tid, (int, int)>

  predicate Disjoint(stacks: Stacks) {
    forall t, u :: t in stacks && u in stacks && t != u ==> stacks[t].1 <= stacks[u].0 || stacks[u].1 <= stacks[t].0
  }

  /** An aligned frame in the task's own stack. */
  predicate FrameIn(stacks: Stacks, t: Tid, a: int) {
    t in stacks && stacks[t].0 <= a && a + FRAME_SIZE <= stacks[t].1 && a % 16 == 0
  }

  predicate On(s: State, c: Core, t: Tid) {
    c < |s.cores| && s.cores[c].OnTask? && s.cores[c].task == t
  }

  predicate Off(s: State, t: Tid) {
    forall c: Core :: !On(s, c, t)
  }

  /** Every parked frame is in its task's stack; a task is on one core, or parked, or neither. */
  ghost predicate Good(stacks: Stacks, s: State) {
    && |s.cores| == NUM_CORES && Disjoint(stacks)
    && (forall t :: t in s.frames ==> FrameIn(stacks, t, s.frames[t]) && Off(s, t))
    && forall c: Core, d: Core, t :: On(s, c, t) && On(s, d, t) ==> c == d
  }

  // ---------------------------------------------------------------- the steps

  ghost predicate Untouched(m: Memory, r: Memory, a: int) {
    forall b :: a <= b < a + FRAME_SIZE ==> Read(r, b) == Read(m, b)
  }

  /** Nobody but the switching code writes into the frame of a parked task. */
  ghost predicate LeavesFrames(m: Memory, r: Memory, frames: map<Tid, int>) {
    forall t :: t in frames ==> Untouched(m, r, frames[t])
  }

  ghost predicate Computes(s: State, c: Core, r: State)
    requires c < |s.cores|
  {
    && s.cores[c].OnTask? && r.frames == s.frames && r.rets == s.rets && LeavesFrames(s.mem, r.mem, s.frames)
    && exists regs: Regs :: |regs.x| == 31 && r.cores == s.cores[c := OnTask(s.cores[c].task, regs)]
  }

  ghost predicate Enters(stacks: Stacks, s: State, c: Core, r: State)
    requires c < |s.cores|
  {
    && s.cores[c].OnTask?
    && var t, regs := s.cores[c].task, s.cores[c].regs;
       && |regs.x| == 31 && FrameIn(stacks, t, regs.sp - FRAME_SIZE) && Saves(s.mem, r.mem, regs)
       && r.cores == s.cores[c := InKernel] && r.frames == s.frames[t := regs.sp - FRAME_SIZE] && r.rets == s.rets
  }

  ghost predicate Works(s: State, c: Core, r: State)
    requires c < |s.cores|
  {
    s.cores[c].InKernel? && r.cores == s.cores && r.frames == s.frames && LeavesFrames(s.mem, r.mem, s.frames)
  }

  ghost predicate Creates(stacks: Stacks, s: State, c: Core, t: Tid, r: State)
    requires c < |s.cores|
  {
    && s.cores[c].InKernel? && r.cores == s.cores && LeavesFrames(s.mem, r.mem, s.frames)
    && Off(s, t) && t !in s.frames && t in r.frames && FrameIn(stacks, t, r.frames[t])
    && r.frames == s.frames[t := r.frames[t]]
  }

  ghost predicate Leaves(s: State, c: Core, t: Tid, r: State)
    requires c < |s.cores|
  {
    && s.cores[c].InKernel? && t in s.frames && t in s.rets
    && r.mem == Answered(s.mem, s.frames[t], s.rets[t]) && r.frames == s.frames - {t} && r.rets == s.rets
    && r.cores == s.cores[c := OnTask(t, Popped(r.mem, s.frames[t]))]
  }

  ghost predicate Next(stacks: Stacks, s: State, e: Event, r: State) {
    |s.cores| == NUM_CORES && match e
      case Compute(c) => Computes(s, c, r)
      case Enter(c) => Enters(stacks, s, c, r)
      case Work(c) => Works(s, c, r)
      case Create(c, t) => Creates(stacks, s, c, t, r)
      case Leave(c, t) => Leaves(s, c, t, r)
  }

  lemma GoodNext(stacks: Stacks, s: State, e: Event, r: State)
    requires Good(stacks, s) && Next(stacks, s, e, r)
    ensures Good(stacks, r)
  {
    var c := e.core;
    assert forall d: Core, t :: On(r, d, t) ==> if d != c then On(s, d, t) else e.Leave? || On(s, d, t);
    assert e.Enter? ==> Off(r, s.cores[c].task) by {
      if e.Enter? { assert On(s, c, s.cores[c].task); }
    }
    assert e.Leave? ==> Off(s, e.task);
  }

  // ---------------------------------------------------------------- what becomes of a parked task

  /** The task is parked, its frame at `a` holding these registers. */
  ghost predicate Kept(s: State, t: Tid, a: int, regs: Regs) {
    t in s.frames && s.frames[t] == a && |regs.x| == 31 && Holds(s.mem, a, Words(FrameOf(regs)))
  }

  /** The same registers, but for X0. */
  predicate SameButX0(regs: Regs, was: Regs) {
    && |regs.x| == 31 && |was.x| == 31 && regs.x[1..] == was.x[1..]
    && regs.sp == was.sp && regs.elr == was.elr && regs.spsr == was.spsr
  }

  lemma UntouchedHolds(m: Memory, r: Memory, a: int, ws: seq<Word>)
    requires Holds(m, a, ws) && Untouched(m, r, a) && |ws| <= 34
    ensures Holds(r, a, ws)
  {
    forall i | 0 <= i < |ws| ensures Read(r, a + 8 * i) == ws[i] { assert Read(m, a + 8 * i) == ws[i]; }
  }

  lemma Apart(stacks: Stacks, t: Tid, a: int, u: Tid, b: int)
    requires Disjoint(stacks) && FrameIn(stacks, t, a) && FrameIn(stacks, u, b) && t != u
    ensures a + FRAME_SIZE <= b || b + FRAME_SIZE <= a
  {
  }

  /** Saving another task's registers leaves this frame alone. */
  lemma SavedElsewhere(stacks: Stacks, s: State, c: Core, r: State, t: Tid, a: int, regs: Regs)
    requires Good(stacks, s) && Enters(stacks, s, c, r) && Kept(s, t, a, regs)
    ensures Kept(r, t, a, regs)
  {
    var u, f := s.cores[c].task, s.cores[c].regs.sp - FRAME_SIZE;
    assert On(s, c, u) && Off(s, t);
    Apart(stacks, t, a, u, f);
    StillHolds(s.mem, r.mem, f, f + FRAME_SIZE, a, Words(FrameOf(regs)));
  }

  /** Writing a return value into another task's frame leaves this one alone. */
  lemma AnsweredElsewhere(m: Memory, a: int, ws: seq<Word>, b: int, ret: Word)
    requires Holds(m, a, ws) && |ws| == 34 && (a + FRAME_SIZE <= b || b + FRAME_SIZE <= a)
    ensures Holds(Answered(m, b, ret), a, ws)
  {
    forall i | 0 <= i < |ws| ensures Read(Answered(m, b, ret), a + 8 * i) == ws[i] {
      assert Read(m, a + 8 * i) == ws[i];
    }
  }

  /** One step of any core, seen from a parked task that it does not resume. */
  lemma KeptStep(stacks: Stacks, s: State, e: Event, r: State, t: Tid, a: int, regs: Regs)
    requires Good(stacks, s) && Next(stacks, s, e, r) && Kept(s, t, a, regs) && !(e.Leave? && e.task == t)
    ensures Kept(r, t, a, regs)
  {
    match e
    case Enter(c) => SavedElsewhere(stacks, s, c, r, t, a, regs);
    case Leave(c, u) =>
      Apart(stacks, t, a, u, s.frames[u]);
      AnsweredElsewhere(s.mem, a, Words(FrameOf(regs)), s.frames[u], s.rets[u]);
    case _ => UntouchedHolds(s.mem, r.mem, a, Words(FrameOf(regs)));
  }

  /** The frame of the answered memory is the saved one, but for X0. */
  lemma AnsweredFrame(m: Memory, a: int, f: Frame, ret: Word)
    requires |f.reg| == 32 && Holds(m, a, Words(f))
    ensures FrameAt(Answered(m, a, ret), a) == f.(reg := f.reg[0 := ret])
  {
    FrameHeld(m, a, f);
    var r := Answered(m, a, ret);
    assert Read(r, a) == Read(m, a) && Read(r, a + 8) == Read(m, a + 8);
    forall i | 0 <= i < 32 ensures FrameAt(r, a).reg[i] == f.reg[0 := ret][i] {
      assert FrameAt(m, a).reg[i] == f.reg[i] == Read(m, a + 16 + 8 * i);
    }
  }

  /** A task that goes on, on whichever core, has its registers but for X0, and there its return value. */
  lemma Back(s: State, c: Core, r: State, t: Tid, a: int, regs: Regs)
    requires c < |s.cores| && Leaves(s, c, t, r) && Kept(s, t, a, regs) && regs.sp == a + FRAME_SIZE
    ensures r.cores[c] == OnTask(t, regs.(x := regs.x[0 := s.rets[t]]))
  {
    var f, ret := FrameOf(regs), s.rets[t];
    AnsweredFrame(s.mem, a, f, ret);
    assert f.reg[0 := ret][..31] == regs.x[0 := ret];
  }

  // ---------------------------------------------------------------- runs

  /** Each event takes one state of the run to the next. */
  ghost predicate Run(stacks: Stacks, run: seq<State>, es: seq<Event>) {
    && |run| == |es| + 1 && Good(stacks, run[0])
    && forall i, j :: 0 <= i < |es| && j == i + 1 ==> Next(stacks, run[i], es[i], run[j])
  }

  lemma StepOf(stacks: Stacks, run: seq<State>, es: seq<Event>, i: nat, j: nat)
    requires Run(stacks, run, es) == true && j == i + 1 < |run|
    ensures Next(stacks, run[i], es[i], run[j]) == true
  {
  }

  lemma {:induction false} RunGood(stacks: Stacks, run: seq<State>, es: seq<Event>, i: nat)
    requires Run(stacks, run, es) == true && i < |run|
    ensures Good(stacks, run[i]) == true
  {
    if i > 0 {
      RunGood(stacks, run, es, i - 1);
      StepOf(stacks, run, es, i - 1, i);
      GoodNext(stacks, run[i - 1], es[i - 1], run[i]);
    }
  }

  /** No core resumes the task from event `i` up to event `j`. */
  predicate Parked(es: seq<Event>, t: Tid, i: nat, j: nat) {
    forall k :: i <= k < j && k < |es| ==> !(es[k].Leave? && es[k].task == t)
  }

  lemma {:induction false} KeptUntil(stacks: Stacks, run: seq<State>, es: seq<Event>, i: nat, j: nat, t: Tid, a: int,
                                     regs: Regs)
    requires Run(stacks, run, es) == true && i <= j < |run| && Parked(es, t, i, j)
    requires Kept(run[i], t, a, regs) == true
    ensures Kept(run[j], t, a, regs) == true
    decreases j
  {
    if i < j {
      KeptUntil(stacks, run, es, i, j - 1, t, a, regs);
      RunGood(stacks, run, es, j - 1);
      StepOf(stacks, run, es, j - 1, j);
      KeptStep(stacks, run[j - 1], es[j - 1], run[j], t, a, regs);
    }
  }

  /** Interrupted by event `i` on core `c`, and next resumed by event `j` on core `d`. */
  predicate Resumption(run: seq<State>, es: seq<Event>, i: nat, c: Core, j: nat, d: Core, t: Tid) {
    && i < j < |es| && |run| == |es| + 1 && On(run[i], c, t)
    && es[i] == Enter(c) && es[j] == Leave(d, t) && Parked(es, t, i, j)
  }

  lemma Parks(stacks: Stacks, s: State, c: Core, r: State, t: Tid)
    requires Good(stacks, s) && Enters(stacks, s, c, r) && On(s, c, t)
    ensures Kept(r, t, s.cores[c].regs.sp - FRAME_SIZE, s.cores[c].regs)
  {
  }

  /** The round trip: a task interrupted on one core and next resumed on another or the same, whatever all four cores do
      in between, goes on with X1 to X30, SP, ELR and SPSR as they were, and with its return value in X0. */
  lemma Resumes(stacks: Stacks, run: seq<State>, es: seq<Event>, i: nat, c: Core, j: nat, d: Core, t: Tid)
    requires Run(stacks, run, es) == true && Resumption(run, es, i, c, j, d, t)
    ensures On(run[j + 1], d, t) && t in run[j].rets
    ensures SameButX0(run[j + 1].cores[d].regs, run[i].cores[c].regs)
    ensures run[j + 1].cores[d].regs.x[0] == run[j].rets[t]
  {
    var regs := run[i].cores[c].regs;
    var a := regs.sp - FRAME_SIZE;
    RunGood(stacks, run, es, i);
    StepOf(stacks, run, es, i, i + 1);
    Parks(stacks, run[i], c, run[i + 1], t);
    KeptUntil(stacks, run, es, i + 1, j, t, a, regs);
    RunGood(stacks, run, es, j);
    StepOf(stacks, run, es, j, j + 1);
    Back(run[j], d, run[j + 1], t, a, regs);
  }

  /** So an interrupt is transparent to the task exactly when its return value is what X0 held: a system call gets its
      result, but a task the timer interrupted finds in X0 the result of its last call. */
  lemma X0Kept(stacks: Stacks, run: seq<State>, es: seq<Event>, i: nat, c: Core, j: nat, d: Core, t: Tid)
    requires Run(stacks, run, es) == true && Resumption(run, es, i, c, j, d, t)
    ensures On(run[j + 1], d, t) && t in run[j].rets && |run[i].cores[c].regs.x| == 31
    ensures run[j + 1].cores[d].regs == run[i].cores[c].regs <==> run[j].rets[t] == run[i].cores[c].regs.x[0]
  {
    Resumes(stacks, run, es, i, c, j, d, t);
    var x, y := run[i].cores[c].regs.x, run[j + 1].cores[d].regs.x;
    assert x == [x[0]] + x[1..] && y == [y[0]] + y[1..];
  }

  // ---------------------------------------------------------------- a timer interrupt that takes X0

  function Stored(m: Memory, a: int, ws: seq<Word>): Memory {
    if ws == [] then m else Stored(m, a, ws[..|ws| - 1])[a + 8 * (|ws| - 1) := ws[|ws| - 1]]
  }

  lemma {:induction false} StoredHolds(m: Memory, a: int, ws: seq<Word>)
    ensures Holds(Stored(m, a, ws), a, ws) && Outside(m, Stored(m, a, ws), a, a + 8 * |ws|)
    decreases |ws|
  {
    if ws != [] {
      var less := ws[..|ws| - 1];
      StoredHolds(m, a, less);
      forall i | 0 <= i < |ws| ensures Read(Stored(m, a, ws), a + 8 * i) == ws[i] {
        if i < |less| { assert Read(Stored(m, a, less), a + 8 * i) == less[i]; }
      }
    }
  }

  /** The task puts a value into X0. */
  function WithX0(s: State, c: Core, v: Word): State
    requires |s.cores| == NUM_CORES && s.cores[c].OnTask? && |s.cores[c].regs.x| == 31
  {
    s.(cores := s.cores[c := OnTask(s.cores[c].task, s.cores[c].regs.(x := s.cores[c].regs.x[0 := v]))])
  }

  /** An interrupt that saves the registers of the core's task. */
  function Entered(s: State, c: Core): State
    requires |s.cores| == NUM_CORES && s.cores[c].OnTask?
  {
    var t, regs := s.cores[c].task, s.cores[c].regs;
    var a := regs.sp - FRAME_SIZE;
    State(Stored(s.mem, a, Words(FrameOf(regs))), s.cores[c := InKernel], s.frames[t := a], s.rets)
  }

  /** switch_to, to a parked task. */
  function Left(s: State, c: Core, t: Tid): State
    requires |s.cores| == NUM_CORES && t in s.frames && t in s.rets
  {
    var m := Answered(s.mem, s.frames[t], s.rets[t]);
    State(m, s.cores[c := OnTask(t, Popped(m, s.frames[t]))], s.frames - {t}, s.rets)
  }

  lemma EnteredEnters(stacks: Stacks, s: State, c: Core)
    requires |s.cores| == NUM_CORES && s.cores[c].OnTask? && |s.cores[c].regs.x| == 31
    requires FrameIn(stacks, s.cores[c].task, s.cores[c].regs.sp - FRAME_SIZE)
    ensures Enters(stacks, s, c, Entered(s, c))
  {
    var regs := s.cores[c].regs;
    StoredHolds(s.mem, regs.sp - FRAME_SIZE, Words(FrameOf(regs)));
  }

  lemma InterruptedAndBack(stacks: Stacks, s: State, c: Core, t: Tid)
    requires |s.cores| == NUM_CORES && On(s, c, t) && t in s.rets && |s.cores[c].regs.x| == 31
    requires FrameIn(stacks, t, s.cores[c].regs.sp - FRAME_SIZE)
    ensures Enters(stacks, s, c, Entered(s, c)) && Leaves(Entered(s, c), c, t, Left(Entered(s, c), c, t))
    ensures Left(Entered(s, c), c, t).cores[c] == OnTask(t, s.cores[c].regs.(x := s.cores[c].regs.x[0 := s.rets[t]]))
  {
    EnteredEnters(stacks, s, c);
    var regs, r := s.cores[c].regs, Entered(s, c);
    assert r.frames[t] == regs.sp - FRAME_SIZE && Kept(r, t, regs.sp - FRAME_SIZE, regs);
    Back(r, c, Left(r, c, t), t, regs.sp - FRAME_SIZE, regs);
  }

  /** Every task that after its last call has put anything else into X0 can lose it: the timer interrupts it, the kernel
      goes on with the same task, and the old return value is back in X0. */
  lemma TimerTakesX0(stacks: Stacks, s: State, c: Core, t: Tid, v: Word) returns (run: seq<State>, es: seq<Event>)
    requires Good(stacks, s) == true && On(s, c, t) && t in s.rets && v != s.rets[t] && |s.cores| == NUM_CORES
    requires |s.cores[c].regs.x| == 31 && FrameIn(stacks, t, s.cores[c].regs.sp - FRAME_SIZE)
    ensures |run| == 4 && run[0] == s && es == [Compute(c), Enter(c), Leave(c, t)] && Run(stacks, run, es)
    ensures On(run[1], c, t) && run[1].cores[c].regs == s.cores[c].regs.(x := s.cores[c].regs.x[0 := v])
    ensures On(run[3], c, t) && run[3].cores[c].regs == s.cores[c].regs.(x := s.cores[c].regs.x[0 := s.rets[t]])
    ensures run[3].cores[c].regs.x[0] != run[1].cores[c].regs.x[0]
  {
    var s1 := WithX0(s, c, v);
    assert Computes(s, c, s1);
    InterruptedAndBack(stacks, s1, c, t);
    assert s.cores[c].regs.x[0 := v][0 := s.rets[t]] == s.cores[c].regs.x[0 := s.rets[t]];
    run, es := ThreeSteps(stacks, s, s1, Entered(s1, c), Left(Entered(s1, c), c, t), Compute(c), Enter(c), Leave(c, t));
  }

  lemma ThreeSteps(stacks: Stacks, s0: State, s1: State, s2: State, s3: State, e0: Event, e1: Event, e2: Event)
    returns (run: seq<State>, es: seq<Event>)
    requires Good(stacks, s0) == true && Next(stacks, s0, e0, s1) == true
    requires Next(stacks, s1, e1, s2) == true && Next(stacks, s2, e2, s3) == true
    ensures run == [s0, s1, s2, s3] && es == [e0, e1, e2] && Run(stacks, run, es) == true
  {
    run, es := [s0, s1, s2, s3], [e0, e1, e2];
  }

  // ---------------------------------------------------------------- the machine takes these steps

  /** What a saved frame, a handler and a restored frame make of the state. */
  lemma MachineSteps(stacks: Stacks, s: State, c: Core, t: Tid, u: Tid, regs: Regs, m1: Memory, m2: Memory, ret: Word)
    returns (s1: State, s2: State, s3: State)
    requires |s.cores| == NUM_CORES && s.cores[c] == OnTask(t, regs) && |regs.x| == 31
    requires FrameIn(stacks, t, regs.sp - FRAME_SIZE) && Saves(s.mem, m1, regs) && (u == t || u in s.frames)
    requires LeavesFrames(m1, m2, s.frames[t := regs.sp - FRAME_SIZE])
    ensures s1 == State(m1, s.cores[c := InKernel], s.frames[t := regs.sp - FRAME_SIZE], s.rets)
    ensures s2 == s1.(mem := m2, rets := s.rets[u := ret])
    ensures s3.mem == Answered(m2, s1.frames[u], ret) && s3.frames == s1.frames - {u} && s3.rets == s2.rets
    ensures s3.cores == s.cores[c := OnTask(u, Popped(s3.mem, s1.frames[u]))]
    ensures Next(stacks, s, Enter(c), s1) && Next(stacks, s1, Work(c), s2) && Next(stacks, s2, Leave(c, u), s3)
  {
    s1 := State(m1, s.cores[c := InKernel], s.frames[t := regs.sp - FRAME_SIZE], s.rets);
    s2 := s1.(mem := m2, rets := s.rets[u := ret]);
    s3 := Left(s2, c, u);
    assert s1.cores[c := s3.cores[c]] == s.cores[c := s3.cores[c]];
  }

  /** An interrupt on one core, as the code runs it: EnterKernel, then a handler that answers some parked task and may
      write anywhere but in parked frames, then LeaveKernel. The three steps are those of the runs above. */
  method SwitchTasks(m: Machine, from: Tcb, to: Tcb, link: Word, handler: Memory -> Memory, ret: Word,
                     ghost stacks: Stacks, ghost s: State, ghost c: Core, ghost t: Tid, ghost u: Tid)
    returns (ghost s1: State, ghost s2: State, ghost s3: State)
    requires m.Valid() && Good(stacks, s) == true && |s.cores| == NUM_CORES && s.mem == m.mem
    requires s.cores[c] == OnTask(t, m.Now())
    requires FrameIn(stacks, t, m.sp - FRAME_SIZE) && (to == from <==> u == t)
    requires u != t ==> u in s.frames && s.frames[u] == to.frame
    requires forall v: Memory :: LeavesFrames(v, handler(v), s.frames[t := m.sp - FRAME_SIZE])
    modifies m, from`frame, to`ret
    ensures m.Valid() && Next(stacks, s, Enter(c), s1) && Next(stacks, s1, Work(c), s2)
    ensures Next(stacks, s2, Leave(c, u), s3)
    ensures s1.frames[t] == from.frame && s2.mem == handler(s1.mem) && s2.rets == s.rets[u := ret]
    ensures s3.mem == m.mem && s3.cores == s.cores[c := OnTask(u, m.Now())] && to.ret == ret
  {
    ghost var regs := m.Now();
    m.EnterKernel(from, link);
    ghost var saved := m.mem;
    m.mem := handler(m.mem);
    to.ret := ret;
    s1, s2, s3 := MachineSteps(stacks, s, c, t, u, regs, saved, m.mem, ret);
    FrameAligned(stacks, s, u);
    m.LeaveKernel(to, link);
  }

  lemma FrameAligned(stacks: Stacks, s: State, u: Tid)
    requires Good(stacks, s)
    ensures u in s.frames ==> s.frames[u] % 16 == 0
  {
  }
}
