/** The step system and the register machine together: every run of the kernel's cores is one of the runs of interrupts
    in which the same tasks are resumed on the same cores, each with a frame that was parked for it. */
module KernelContexts {
  import opened Rings
  import opened Placement
  import opened Kernel
  import opened KernelInvariants
  import opened KernelIdle
  import opened KernelTheorems
  import M = Contexts
  import C = ContextRuns

  // ---------------------------------------------------------------- what the two have in common

  /** The task each core has in user mode, if it is in user mode. */
  function Mode(s: State, c: Core): Option<Tid>
    requires Shaped(s)
  {
    if s.phase[c] == User && Has(s, Running(c)) then Some(First(s, Running(c))) else None
  }

  function Modes(s: State): (r: seq<Option<Tid>>)
    requires Shaped(s)
    ensures |r| == NUM_CORES && forall c: Core :: r[c] == Mode(s, c)
  {
    seq(NUM_CORES, c requires 0 <= c < NUM_CORES => Mode(s, c))
  }

  /** Cores in user mode run the tasks that they should, every other task has a frame parked, and the values to return
      are the same, `word` saying how they look in a register. */
  ghost predicate Agrees(x: C.State, modes: seq<Option<Tid>>, tasks: map<Tid, Task>, word: int -> M.Word) {
    && |x.cores| == |modes| == NUM_CORES
    && (forall c: Core :: x.cores[c].OnTask? <==> modes[c].Some?)
    && (forall c: Core :: x.cores[c].OnTask? ==> x.cores[c].task == modes[c].value && modes[c].value in tasks)
    && (forall t: Tid :: t in x.frames <==> t in tasks && C.Off(x, t))
    && forall t: Tid :: t in tasks ==> t in x.rets && x.rets[t] == word(tasks[t].ret)
  }

  // ---------------------------------------------------------------- one step of the machine

  lemma AgreesCompute(stacks: C.Stacks, x: C.State, c: Core, y: C.State, modes: seq<Option<Tid>>, tasks: map<Tid, Task>,
                      word: int -> M.Word)
    requires Agrees(x, modes, tasks, word) && C.Next(stacks, x, C.Compute(c), y)
    ensures Agrees(y, modes, tasks, word)
  {
    assert forall t: Tid, d: Core :: C.On(y, d, t) <==> C.On(x, d, t);
    assert forall t: Tid :: C.Off(y, t) <==> C.Off(x, t);
  }

  lemma AgreesEnter(stacks: C.Stacks, x: C.State, c: Core, y: C.State, modes: seq<Option<Tid>>, tasks: map<Tid, Task>,
                    word: int -> M.Word)
    requires C.Good(stacks, x) && Agrees(x, modes, tasks, word) && C.Next(stacks, x, C.Enter(c), y)
    ensures Agrees(y, modes[c := None], tasks, word) == true
  {
    var u := x.cores[c].task;
    assert C.On(x, c, u);
    forall t: Tid ensures C.Off(y, t) <==> C.Off(x, t) || t == u {
      assert forall d: Core :: C.On(y, d, t) <==> C.On(x, d, t) && d != c;
    }
  }

  /** What the handler makes of the values to return. */
  function Answers(tasks: map<Tid, Task>, word: int -> M.Word): map<Tid, M.Word> {
    map t | t in tasks :: word(tasks[t].ret)
  }

  lemma AgreesSame(x: C.State, modes: seq<Option<Tid>>, tasks: map<Tid, Task>, more: map<Tid, Task>,
                   word: int -> M.Word)
    requires Agrees(x, modes, tasks, word)
    requires more.Keys == tasks.Keys && forall t :: t in tasks ==> more[t].ret == tasks[t].ret
    ensures Agrees(x, modes, more, word)
  {
    forall t: Tid ensures t in more <==> t in tasks { assert t in more.Keys <==> t in tasks.Keys; }
  }

  lemma AgreesWork(x: C.State, modes: seq<Option<Tid>>, tasks: map<Tid, Task>, more: map<Tid, Task>,
                   word: int -> M.Word)
    requires Agrees(x, modes, tasks, word) && more.Keys == tasks.Keys
    ensures Agrees(x.(rets := Answers(more, word)), modes, more, word) == true
  {
    var y := x.(rets := Answers(more, word));
    assert forall t: Tid, d: Core :: C.On(y, d, t) <==> C.On(x, d, t);
    forall t: Tid ensures t in more <==> t in tasks { assert t in more.Keys <==> t in tasks.Keys; }
    assert forall t: Tid :: C.Off(y, t) <==> C.Off(x, t);
  }

  lemma AgreesCreate(x: C.State, modes: seq<Option<Tid>>, tasks: map<Tid, Task>, more: map<Tid, Task>, t: Tid, a: int,
                     word: int -> M.Word)
    requires Agrees(x, modes, tasks, word) && t !in tasks && more.Keys == tasks.Keys + {t}
    ensures C.Off(x, t) && t !in x.frames
    ensures Agrees(x.(frames := x.frames[t := a], rets := Answers(more, word)), modes, more, word) == true
  {
    var y := x.(frames := x.frames[t := a], rets := Answers(more, word));
    assert forall u: Tid, d: Core :: C.On(y, d, u) <==> C.On(x, d, u);
    forall u: Tid ensures u in more <==> u in tasks || u == t { assert u in more.Keys <==> u in tasks.Keys || u == t; }
    assert forall u: Tid :: C.Off(y, u) <==> C.Off(x, u);
  }

  /** A task that runs on no core can be resumed: its frame is parked. */
  lemma AgreesLeave(x: C.State, c: Core, t: Tid, modes: seq<Option<Tid>>, tasks: map<Tid, Task>, word: int -> M.Word)
    requires Agrees(x, modes, tasks, word) && modes[c] == None && t in tasks && forall d: Core :: modes[d] != Some(t)
    ensures t in x.frames && t in x.rets && C.Leaves(x, c, t, C.Left(x, c, t))
    ensures Agrees(C.Left(x, c, t), modes[c := Some(t)], tasks, word) == true
  {
    assert C.Off(x, t);
    var y := C.Left(x, c, t);
    forall u: Tid ensures C.Off(y, u) <==> C.Off(x, u) && u != t {
      assert forall d: Core :: C.On(y, d, u) <==> C.On(x, d, u) || (d == c && u == t);
      assert C.On(y, c, t);
    }
  }

  // ---------------------------------------------------------------- one step of the kernel

  /** A core leaves user mode by any event but a pull, and enters it by switch_to only. */
  lemma ModeStep(s: State, e: Event)
    requires Enabled(s, e) && !e.Pull?
    ensures PhaseAfter(s, e) == User <==> e.SwitchTo?
    ensures e.SwitchTo? ==> s.phase[e.core] == Leaving && EffectOf(s, e) == Still
  {
  }

  lemma ModeKept(s: State, e: Event, d: Core, r: State)
    requires Enabled(s, e) && Fits(s.own, EffectOf(s, e)) && d != e.core && Shaped(r) && r.phase[d] == s.phase[d]
    requires r.own == Moved(s.own, EffectOf(s, e), s.nextPid) && s.tasks.Keys <= r.tasks.Keys
    requires forall t :: t in At(s.own, Running(d)) ==> t in s.tasks
    ensures Mode(r, d) == Mode(s, d)
  {
    OthersSame(s, e, d);
    if At(s.own, Running(d)) != [] { assert At(s.own, Running(d))[0] in s.tasks.Keys; }
  }

  lemma AllKnown(s: State, pl: Place)
    requires Held(s)
    ensures forall t :: t in At(s.own, pl) ==> t in s.tasks
  {
    forall t | t in At(s.own, pl) ensures t in s.tasks { assert t in Members(s.own); }
  }

  lemma ModesStep(s: State, e: Event, r: State)
    requires Inv(s) && Enabled(s, e) && !e.Pull? && r == After(s, e)
    ensures Modes(r) == Modes(s)[e.core := if e.SwitchTo? then Some(First(s, Running(e.core))) else None]
  {
    IdlePartsAfter(s, e);
    ModeStep(s, e);
    TasksKeys(s, e);
    forall d: Core | d != e.core ensures Mode(r, d) == Mode(s, d) {
      AllKnown(s, Running(d));
      ModeKept(s, e, d, r);
    }
    OwnMode(s, e, r);
  }

  lemma OwnMode(s: State, e: Event, r: State)
    requires Enabled(s, e) && !e.Pull? && r == After(s, e)
    ensures Mode(r, e.core) == if e.SwitchTo? then Some(First(s, Running(e.core))) else None
  {
    ModeStep(s, e);
  }

  /** The task that a core is about to switch to is in user mode on no core. */
  lemma SwitchesToParked(s: State, c: Core)
    requires Inv(s) && Enabled(s, SwitchTo(c))
    ensures forall d: Core :: Mode(s, d) != Some(First(s, Running(c)))
  {
    var t := First(s, Running(c));
    forall d: Core ensures Mode(s, d) != Some(t) {
      if Mode(s, d) == Some(t) { UniquePlace(s.own, Running(d), 0, Running(c), 0); }
    }
  }

  // ---------------------------------------------------------------- whole runs

  /** Each task on a core has room for the frame of an interrupt on its stack. */
  ghost predicate Roomy(stacks: C.Stacks, x: C.State) {
    forall c: Core :: c < |x.cores| && x.cores[c].OnTask? ==>
      |x.cores[c].regs.x| == 31 && C.FrameIn(stacks, x.cores[c].task, x.cores[c].regs.sp - M.FRAME_SIZE)
  }

  lemma Extends(stacks: C.Stacks, run: seq<C.State>, ces: seq<C.Event>, e: C.Event, y: C.State)
    requires C.Run(stacks, run, ces) && C.Good(stacks, run[|run| - 1]) && C.Next(stacks, run[|run| - 1], e, y)
    ensures C.Run(stacks, run + [y], ces + [e]) && C.Good(stacks, y)
  {
    C.GoodNext(stacks, run[|run| - 1], e, y);
  }

  /** The tasks that the cores resume, in order. */
  function Resumed(ces: seq<C.Event>): seq<(Core, Tid)> {
    if ces == [] then [] else
      var last := ces[|ces| - 1];
      Resumed(ces[..|ces| - 1]) + if last.Leave? then [(last.core, last.task)] else []
  }

  lemma ResumedMore(ces: seq<C.Event>, e: C.Event)
    ensures Resumed(ces + [e]) == Resumed(ces) + if e.Leave? then [(e.core, e.task)] else []
  {
    assert (ces + [e])[..|ces|] == ces;
  }

  /** The tasks that the kernel switches to. */
  function Switched(s: State, es: seq<Event>): seq<(Core, Tid)>
    requires Runs(s, es)
    decreases es
  {
    if es == [] then [] else Switches(s, es[0]) + Switched(After(s, es[0]), es[1..])
  }

  function Switches(s: State, e: Event): seq<(Core, Tid)>
    requires Enabled(s, e)
  {
    if e.SwitchTo? then [(e.core, First(s, Running(e.core)))] else []
  }

  /** As far as the kernel, with these cores in user mode and these tasks. */
  ghost predicate ReachedAs(stacks: C.Stacks, run: seq<C.State>, ces: seq<C.Event>, x: C.State, modes: seq<Option<Tid>>,
                            tasks: map<Tid, Task>, word: int -> M.Word) {
    && C.Run(stacks, run, ces) && run[|run| - 1] == x && C.Good(stacks, x) && Roomy(stacks, x)
    && Agrees(x, modes, tasks, word)
  }

  lemma Unpack(stacks: C.Stacks, run: seq<C.State>, ces: seq<C.Event>, x: C.State, modes: seq<Option<Tid>>,
               tasks: map<Tid, Task>, word: int -> M.Word)
    requires ReachedAs(stacks, run, ces, x, modes, tasks, word)
    ensures C.Run(stacks, run, ces) == true && run != [] && run[|run| - 1] == x
    ensures C.Good(stacks, x) == true && Roomy(stacks, x) == true && Agrees(x, modes, tasks, word) == true
  {
  }

  /** One more step of the machine. */
  lemma Reaches(stacks: C.Stacks, run: seq<C.State>, ces: seq<C.Event>, e: C.Event, y: C.State, modes: seq<Option<Tid>>,
                tasks: map<Tid, Task>, word: int -> M.Word)
    requires C.Run(stacks, run, ces) && C.Good(stacks, run[|run| - 1]) && C.Next(stacks, run[|run| - 1], e, y)
    requires Roomy(stacks, y) && Agrees(y, modes, tasks, word)
    ensures ReachedAs(stacks, run + [y], ces + [e], y, modes, tasks, word) == true
  {
    Extends(stacks, run, ces, e, y);
  }

  lemma NotOnTask(x: C.State, c: Core, modes: seq<Option<Tid>>, tasks: map<Tid, Task>, word: int -> M.Word)
    requires Agrees(x, modes, tasks, word) && modes[c] == None
    ensures |x.cores| == NUM_CORES && x.cores[c].InKernel?
  {
  }

  /** A frame that is popped leaves the room that it took. */
  lemma LeftRoomy(stacks: C.Stacks, x: C.State, c: Core, t: Tid)
    requires C.Good(stacks, x) && Roomy(stacks, x) && t in x.frames && t in x.rets
    ensures Roomy(stacks, C.Left(x, c, t))
  {
    assert C.FrameIn(stacks, t, x.frames[t]);
  }

  lemma LeaveStep(stacks: C.Stacks, x: C.State, modes: seq<Option<Tid>>, tasks: map<Tid, Task>, c: Core, t: Tid,
                  word: int -> M.Word)
    returns (y: C.State)
    requires C.Good(stacks, x) == true && Roomy(stacks, x) == true && Agrees(x, modes, tasks, word) == true
    requires |modes| == NUM_CORES && modes[c] == None && t in tasks && forall d: Core :: modes[d] != Some(t)
    ensures C.Next(stacks, x, C.Leave(c, t), y) && Roomy(stacks, y) == true
    ensures Agrees(y, modes[c := Some(t)], tasks, word) == true
  {
    AgreesLeave(x, c, t, modes, tasks, word);
    NotOnTask(x, c, modes, tasks, word);
    y := C.Left(x, c, t);
    LeftRoomy(stacks, x, c, t);
  }

  lemma TaskThere(stacks: C.Stacks, x: C.State, c: Core, modes: seq<Option<Tid>>, tasks: map<Tid, Task>,
                  word: int -> M.Word)
    requires Roomy(stacks, x) && Agrees(x, modes, tasks, word) && modes[c].Some?
    ensures |x.cores| == NUM_CORES && x.cores[c].OnTask? && |x.cores[c].regs.x| == 31
    ensures C.FrameIn(stacks, x.cores[c].task, x.cores[c].regs.sp - M.FRAME_SIZE)
  {
  }

  lemma EnteredRoomy(stacks: C.Stacks, x: C.State, c: Core)
    requires |x.cores| == NUM_CORES && x.cores[c].OnTask? && Roomy(stacks, x)
    ensures Roomy(stacks, C.Entered(x, c)) == true
  {
  }

  lemma EnterStep(stacks: C.Stacks, x: C.State, modes: seq<Option<Tid>>, tasks: map<Tid, Task>, c: Core,
                  word: int -> M.Word)
    returns (y: C.State)
    requires C.Good(stacks, x) == true && Roomy(stacks, x) == true && Agrees(x, modes, tasks, word) == true
    requires |modes| == NUM_CORES && modes[c].Some?
    ensures C.Next(stacks, x, C.Enter(c), y) && Roomy(stacks, y) == true
    ensures Agrees(y, modes[c := None], tasks, word) == true
  {
    TaskThere(stacks, x, c, modes, tasks, word);
    C.EnteredEnters(stacks, x, c);
    EnteredRoomy(stacks, x, c);
    y := C.Entered(x, c);
    AgreesEnter(stacks, x, c, y, modes, tasks, word);
  }

  lemma RetsOnly(stacks: C.Stacks, x: C.State, c: Core, rets: map<Tid, M.Word>)
    requires |x.cores| == NUM_CORES && x.cores[c].InKernel? && Roomy(stacks, x)
    ensures C.Next(stacks, x, C.Work(c), x.(rets := rets)) == true && Roomy(stacks, x.(rets := rets)) == true
  {
  }

  lemma WorkStep(stacks: C.Stacks, x: C.State, modes: seq<Option<Tid>>, tasks: map<Tid, Task>, more: map<Tid, Task>,
                 c: Core, word: int -> M.Word)
    returns (y: C.State)
    requires Roomy(stacks, x) == true && Agrees(x, modes, tasks, word) == true
    requires |modes| == NUM_CORES && modes[c] == None && more.Keys == tasks.Keys
    ensures C.Next(stacks, x, C.Work(c), y) == true && Roomy(stacks, y) == true && Agrees(y, modes, more, word) == true
  {
    AgreesWork(x, modes, tasks, more, word);
    NotOnTask(x, c, modes, tasks, word);
    RetsOnly(stacks, x, c, Answers(more, word));
    y := x.(rets := Answers(more, word));
  }

  lemma NewFrame(stacks: C.Stacks, x: C.State, c: Core, t: Tid, a: int, rets: map<Tid, M.Word>)
    requires |x.cores| == NUM_CORES && x.cores[c].InKernel? && Roomy(stacks, x)
    requires C.Off(x, t) && t !in x.frames && C.FrameIn(stacks, t, a)
    ensures var y := x.(frames := x.frames[t := a], rets := rets);
      C.Next(stacks, x, C.Create(c, t), y) == true && Roomy(stacks, y) == true
  {
  }

  lemma CreateStep(stacks: C.Stacks, x: C.State, modes: seq<Option<Tid>>, tasks: map<Tid, Task>, more: map<Tid, Task>,
                   c: Core, t: Tid, a: int, word: int -> M.Word)
    returns (y: C.State)
    requires Roomy(stacks, x) == true && Agrees(x, modes, tasks, word) == true
    requires |modes| == NUM_CORES && modes[c] == None
    requires t !in tasks && more.Keys == tasks.Keys + {t} && C.FrameIn(stacks, t, a)
    ensures C.Next(stacks, x, C.Create(c, t), y) == true && Roomy(stacks, y) == true
    ensures Agrees(y, modes, more, word) == true
  {
    AgreesCreate(x, modes, tasks, more, t, a, word);
    NotOnTask(x, c, modes, tasks, word);
    NewFrame(stacks, x, c, t, a, Answers(more, word));
    y := x.(frames := x.frames[t := a], rets := Answers(more, word));
  }

  lemma SwitchInduces(stacks: C.Stacks, run: seq<C.State>, ces: seq<C.Event>, x: C.State, modes: seq<Option<Tid>>,
                      tasks: map<Tid, Task>, c: Core, t: Tid, word: int -> M.Word)
    returns (run': seq<C.State>, ces': seq<C.Event>, y: C.State)
    requires ReachedAs(stacks, run, ces, x, modes, tasks, word) == true && |modes| == NUM_CORES
    requires modes[c] == None && t in tasks && forall d: Core :: modes[d] != Some(t)
    ensures ReachedAs(stacks, run', ces', y, modes[c := Some(t)], tasks, word) == true
    ensures Resumed(ces') == Resumed(ces) + [(c, t)]
  {
    Unpack(stacks, run, ces, x, modes, tasks, word);
    y := LeaveStep(stacks, x, modes, tasks, c, t, word);
    Reaches(stacks, run, ces, C.Leave(c, t), y, modes[c := Some(t)], tasks, word);
    ResumedMore(ces, C.Leave(c, t));
    run', ces' := run + [y], ces + [C.Leave(c, t)];
  }

  lemma EnterInduces(stacks: C.Stacks, run: seq<C.State>, ces: seq<C.Event>, x: C.State, modes: seq<Option<Tid>>,
                     tasks: map<Tid, Task>, c: Core, word: int -> M.Word)
    returns (run': seq<C.State>, ces': seq<C.Event>, y: C.State)
    requires ReachedAs(stacks, run, ces, x, modes, tasks, word) == true && |modes| == NUM_CORES
    ensures ReachedAs(stacks, run', ces', y, modes[c := None], tasks, word) == true && Resumed(ces') == Resumed(ces)
  {
    if modes[c] == None {
      run', ces', y := run, ces, x;
      assert modes[c := None] == modes;
    } else {
      Unpack(stacks, run, ces, x, modes, tasks, word);
      y := EnterStep(stacks, x, modes, tasks, c, word);
      Reaches(stacks, run, ces, C.Enter(c), y, modes[c := None], tasks, word);
      ResumedMore(ces, C.Enter(c));
      run', ces' := run + [y], ces + [C.Enter(c)];
    }
  }

  lemma WorkInduces(stacks: C.Stacks, run: seq<C.State>, ces: seq<C.Event>, x: C.State, modes: seq<Option<Tid>>,
                    tasks: map<Tid, Task>, more: map<Tid, Task>, c: Core, word: int -> M.Word)
    returns (run': seq<C.State>, ces': seq<C.Event>, y: C.State)
    requires ReachedAs(stacks, run, ces, x, modes, tasks, word) == true && |modes| == NUM_CORES && modes[c] == None
    requires more.Keys == tasks.Keys
    ensures ReachedAs(stacks, run', ces', y, modes, more, word) == true && Resumed(ces') == Resumed(ces)
  {
    Unpack(stacks, run, ces, x, modes, tasks, word);
    y := WorkStep(stacks, x, modes, tasks, more, c, word);
    Reaches(stacks, run, ces, C.Work(c), y, modes, more, word);
    ResumedMore(ces, C.Work(c));
    run', ces' := run + [y], ces + [C.Work(c)];
  }

  lemma CreateInduces(stacks: C.Stacks, run: seq<C.State>, ces: seq<C.Event>, x: C.State, modes: seq<Option<Tid>>,
                      tasks: map<Tid, Task>, more: map<Tid, Task>, c: Core, t: Tid, a: int, word: int -> M.Word)
    returns (run': seq<C.State>, ces': seq<C.Event>, y: C.State)
    requires ReachedAs(stacks, run, ces, x, modes, tasks, word) == true && |modes| == NUM_CORES && modes[c] == None
    requires t !in tasks && more.Keys == tasks.Keys + {t} && C.FrameIn(stacks, t, a)
    ensures ReachedAs(stacks, run', ces', y, modes, more, word) == true && Resumed(ces') == Resumed(ces)
  {
    Unpack(stacks, run, ces, x, modes, tasks, word);
    y := CreateStep(stacks, x, modes, tasks, more, c, t, a, word);
    Reaches(stacks, run, ces, C.Create(c, t), y, modes, more, word);
    ResumedMore(ces, C.Create(c, t));
    run', ces' := run + [y], ces + [C.Create(c, t)];
  }

  lemma SameReached(stacks: C.Stacks, run: seq<C.State>, ces: seq<C.Event>, x: C.State, modes: seq<Option<Tid>>,
                    tasks: map<Tid, Task>, more: map<Tid, Task>, word: int -> M.Word)
    requires ReachedAs(stacks, run, ces, x, modes, tasks, word)
    requires more.Keys == tasks.Keys && forall t :: t in tasks ==> more[t].ret == tasks[t].ret
    ensures ReachedAs(stacks, run, ces, x, modes, more, word) == true
  {
    AgreesSame(x, modes, tasks, more, word);
  }

  lemma SwitchedTasks(s: State, c: Core, r: State)
    requires Enabled(s, SwitchTo(c)) && r == After(s, SwitchTo(c))
    ensures r.tasks.Keys == s.tasks.Keys && forall t :: t in s.tasks ==> r.tasks[t].ret == s.tasks[t].ret
    ensures Mode(s, c) == None && First(s, Running(c)) in s.tasks
  {
  }

  lemma SwitchEvent(stacks: C.Stacks, run: seq<C.State>, ces: seq<C.Event>, x: C.State, s: State, c: Core, r: State,
                    word: int -> M.Word)
    returns (run': seq<C.State>, ces': seq<C.Event>, y: C.State)
    requires Inv(s) == true && Enabled(s, SwitchTo(c)) && r == After(s, SwitchTo(c))
    requires ReachedAs(stacks, run, ces, x, Modes(s), s.tasks, word) == true
    ensures Shaped(r) && ReachedAs(stacks, run', ces', y, Modes(r), r.tasks, word) == true
    ensures Resumed(ces') == Resumed(ces) + [(c, First(s, Running(c)))]
  {
    ModesStep(s, SwitchTo(c), r);
    SwitchesToParked(s, c);
    SwitchedTasks(s, c, r);
    run', ces', y := SwitchInduces(stacks, run, ces, x, Modes(s), s.tasks, c, First(s, Running(c)), word);
    SameReached(stacks, run', ces', y, Modes(r), s.tasks, r.tasks, word);
  }

  /** No task is new, or just this one. */
  predicate Grows(tasks: map<Tid, Task>, more: map<Tid, Task>, t: Tid) {
    more.Keys == tasks.Keys || (t !in tasks && more.Keys == tasks.Keys + {t})
  }

  /** What any event does to the table of tasks, ... */
  lemma TasksGrow(s: State, e: Event, r: State)
    requires Inv(s) == true && Enabled(s, e) && r == After(s, e)
    ensures Grows(s.tasks, r.tasks, s.nextPid)
  {
    TasksKeys(s, e);
  }

  /** ... and any but a switch to the cores in user mode. */
  lemma OtherModes(s: State, e: Event, r: State)
    requires Inv(s) == true && Enabled(s, e) && !e.Pull? && !e.SwitchTo? && r == After(s, e)
    ensures Shaped(r) && Modes(r) == Modes(s)[e.core := None]
  {
    ModesStep(s, e, r);
  }

  lemma OtherSteps(s: State, e: Event, r: State)
    requires Inv(s) == true && Enabled(s, e) && !e.Pull? && !e.SwitchTo? && r == After(s, e)
    ensures Shaped(r) && Modes(r) == Modes(s)[e.core := None] && Grows(s.tasks, r.tasks, s.nextPid) == true
  {
    OtherModes(s, e, r);
    TasksGrow(s, e, r);
  }

  lemma OtherInduces(stacks: C.Stacks, run: seq<C.State>, ces: seq<C.Event>, x: C.State, modes: seq<Option<Tid>>,
                     tasks: map<Tid, Task>, more: map<Tid, Task>, c: Core, t: Tid, a: int, word: int -> M.Word)
    returns (run': seq<C.State>, ces': seq<C.Event>, y: C.State)
    requires ReachedAs(stacks, run, ces, x, modes, tasks, word) == true && |modes| == NUM_CORES
    requires Grows(tasks, more, t) && C.FrameIn(stacks, t, a)
    ensures ReachedAs(stacks, run', ces', y, modes[c := None], more, word) == true && Resumed(ces') == Resumed(ces)
  {
    var run1, ces1, x1 := EnterInduces(stacks, run, ces, x, modes, tasks, c, word);
    if more.Keys == tasks.Keys {
      run', ces', y := WorkInduces(stacks, run1, ces1, x1, modes[c := None], tasks, more, c, word);
    } else {
      run', ces', y := CreateInduces(stacks, run1, ces1, x1, modes[c := None], tasks, more, c, t, a, word);
    }
  }

  lemma OtherEvent(stacks: C.Stacks, run: seq<C.State>, ces: seq<C.Event>, x: C.State, s: State, e: Event, r: State,
                   a: int, word: int -> M.Word)
    returns (run': seq<C.State>, ces': seq<C.Event>, y: C.State)
    requires Inv(s) == true && Enabled(s, e) && !e.Pull? && !e.SwitchTo? && r == After(s, e)
    requires C.FrameIn(stacks, s.nextPid, a) == true
    requires ReachedAs(stacks, run, ces, x, Modes(s), s.tasks, word) == true
    ensures Shaped(r) && ReachedAs(stacks, run', ces', y, Modes(r), r.tasks, word) == true
    ensures Resumed(ces') == Resumed(ces) + Switches(s, e)
  {
    OtherSteps(s, e, r);
    run', ces', y := OtherInduces(stacks, run, ces, x, Modes(s), s.tasks, r.tasks, e.core, s.nextPid, a, word);
    assert Resumed(ces) + [] == Resumed(ces);
  }

  /** Stacks of one page each. */
  function Pages(n: nat): C.Stacks {
    map t: nat | t < n :: Page(t)
  }

  function Page(t: nat): (int, int) {
    (4096 * t, 4096 * t + 4096)
  }

  lemma PageOf(n: nat, t: nat)
    requires t < n
    ensures C.FrameIn(Pages(n), t, 4096 * t)
  {
    assert t in Pages(n) && Pages(n)[t] == Page(t);
    Aligned(t);
  }

  lemma Aligned(t: nat)
    ensures 4096 * t % 16 == 0
  {
    assert 4096 * t == 16 * (256 * t);
  }

  /** One event of the kernel is one or two steps of the machine, on the same core. */
  lemma EventInduces(n: nat, run: seq<C.State>, ces: seq<C.Event>, x: C.State, s: State, e: Event, r: State,
                     word: int -> M.Word)
    returns (run': seq<C.State>, ces': seq<C.Event>, y: C.State)
    requires Inv(s) == true && Enabled(s, e) && !e.Pull? && r == After(s, e) && s.nextPid < n
    requires Shaped(s) && ReachedAs(Pages(n), run, ces, x, Modes(s), s.tasks, word) == true
    ensures Shaped(r) && ReachedAs(Pages(n), run', ces', y, Modes(r), r.tasks, word) == true
    ensures Resumed(ces') == Resumed(ces) + Switches(s, e)
  {
    if e.SwitchTo? {
      run', ces', y := SwitchEvent(Pages(n), run, ces, x, s, e.core, r, word);
    } else {
      PageOf(n, s.nextPid);
      run', ces', y := OtherEvent(Pages(n), run, ces, x, s, e, r, 4096 * s.nextPid, word);
    }
  }

  lemma NextReachable(s: State, e: Event, r: State)
    requires Reachable(s) && Enabled(s, e) && r == After(s, e)
    ensures Reachable(r) == true && r.nextPid <= s.nextPid + 1
  {
    ReachableStep(s, e);
  }

  lemma InvTrue(s: State)
    requires Reachable(s)
    ensures Inv(s) == true
  {
    ReachableInv(s);
  }

  lemma NoPull(s: State, e: Event)
    requires Reachable(s) && Enabled(s, e)
    ensures !e.Pull?
  {
    if e.Pull? { PullIsDead(s, e.core, e.busy, e.index); }
  }

  /** The first event of a run, and what is left of it. */
  lemma FirstSwitched(s: State, es: seq<Event>) returns (r: State)
    requires es != [] && Runs(s, es)
    ensures Enabled(s, es[0]) && r == After(s, es[0]) && Runs(r, es[1..]) && End(s, es) == End(r, es[1..])
    ensures Switched(s, es) == Switches(s, es[0]) + Switched(r, es[1..])
  {
    r := After(s, es[0]);
  }

  lemma FirstInduces(n: nat, run: seq<C.State>, ces: seq<C.Event>, x: C.State, s: State, es: seq<Event>,
                     word: int -> M.Word)
    returns (run': seq<C.State>, ces': seq<C.Event>, y: C.State, r: State, first: seq<(Core, Tid)>)
    requires Reachable(s) == true && es != [] && Runs(s, es) && s.nextPid + |es| < n
    requires Shaped(s) && ReachedAs(Pages(n), run, ces, x, Modes(s), s.tasks, word) == true
    ensures Reachable(r) == true && Runs(r, es[1..]) && End(s, es) == End(r, es[1..]) && r.nextPid + |es[1..]| < n
    ensures Shaped(r) && ReachedAs(Pages(n), run', ces', y, Modes(r), r.tasks, word) == true
    ensures Switched(s, es) == first + Switched(r, es[1..]) && Resumed(ces') == Resumed(ces) + first
  {
    r := FirstSwitched(s, es);
    InvTrue(s);
    NoPull(s, es[0]);
    NextReachable(s, es[0], r);
    run', ces', y := EventInduces(n, run, ces, x, s, es[0], r, word);
    first := Switches(s, es[0]);
  }

  lemma {:induction false} RunInduces(n: nat, run: seq<C.State>, ces: seq<C.Event>, x: C.State, s: State,
                                      es: seq<Event>, end: State, word: int -> M.Word)
    returns (run': seq<C.State>, ces': seq<C.Event>, y: C.State)
    requires Reachable(s) == true && Runs(s, es) && end == End(s, es) && s.nextPid + |es| < n
    requires Shaped(s) && ReachedAs(Pages(n), run, ces, x, Modes(s), s.tasks, word) == true
    ensures Shaped(end) && ReachedAs(Pages(n), run', ces', y, Modes(end), end.tasks, word) == true
    ensures Resumed(ces') == Resumed(ces) + Switched(s, es)
    decreases |es|
  {
    if es == [] {
      run', ces', y := run, ces, x;
    } else {
      var run1, ces1, x1, r, first := FirstInduces(n, run, ces, x, s, es, word);
      run', ces', y := RunInduces(n, run1, ces1, x1, r, es[1..], end, word);
      Glue(Resumed(ces), first, Switched(r, es[1..]));
    }
  }

  lemma Glue<N>(a: seq<N>, b: seq<N>, c: seq<N>)
    ensures a + (b + c) == a + b + c
  {
  }

  lemma BeginsSo(n: nat, s: State, word: int -> M.Word) returns (x: C.State)
    requires Initial(s)
    ensures ReachedAs(Pages(n), [x], [], x, Modes(s), s.tasks, word) == true
  {
    x := C.State(map[], [C.InKernel, C.InKernel, C.InKernel, C.InKernel], map[], map[]);
    forall c: Core ensures !x.cores[c].OnTask? { assert c == 0 || c == 1 || c == 2 || c == 3; }
  }

  /** Every run of the kernel from before boot is a run of interrupts in which the cores resume the same tasks in the
      same order; so whatever holds of those runs holds of it, and each task that a core switches to has a frame parked
      for it, which no other core can be using. */
  lemma Induces(s: State, es: seq<Event>, word: int -> M.Word)
    returns (stacks: C.Stacks, run: seq<C.State>, ces: seq<C.Event>, x: C.State)
    requires Initial(s) && Runs(s, es)
    ensures C.Run(stacks, run, ces) && run[|run| - 1] == x && Resumed(ces) == Switched(s, es)
    ensures Shaped(End(s, es)) && Agrees(x, Modes(End(s, es)), End(s, es).tasks, word)
  {
    var n := s.nextPid + |es| + 1;
    stacks := Pages(n);
    var x0 := BeginsSo(n, s, word);
    InitialReachable(s);
    run, ces, x := RunInduces(n, [x0], [], x0, s, es, End(s, es), word);
    Unpack(stacks, run, ces, x, Modes(End(s, es)), End(s, es).tasks, word);
  }
}
