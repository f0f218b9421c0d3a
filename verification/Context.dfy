/** Saving and restoring a task's registers: vectors64.s and context.c as a small register and stack machine.

    Memory is a map from word addresses; SP_EL0 is kept 16-byte aligned, as the hardware checks. The handler runs on
    SP_EL1, so the interrupted stack pointer is untouched in between. */
module Contexts {
  type Word = bv64
  type Memory = map<int, Word>

  const FRAME_SIZE: int := 272     // sizeof(aarch64_frame_t): 34 words
  const XZR: nat := 31

  /** aarch64_frame_t, low addresses first. */
  datatype Frame = Frame(spsr: Word, elr: Word, reg: seq<Word>)

  function Words(f: Frame): seq<Word> {
    [f.spsr, f.elr] + f.reg
  }

  /** What a task has in its core: X0 to X30, SP, and the ELR and SPSR of the interrupt. */
  datatype Regs = Regs(x: seq<Word>, sp: int, elr: Word, spsr: Word)

  function FrameOf(regs: Regs): Frame {
    Frame(regs.spsr, regs.elr, regs.x + [0])
  }

  function Read(m: Memory, a: int): Word {
    if a in m then m[a] else 0
  }

  /** The words at address `a` and up are `ws`. */
  ghost predicate Holds(m: Memory, a: int, ws: seq<Word>) {
    forall i :: 0 <= i < |ws| ==> Read(m, a + 8 * i) == ws[i]
  }

  /** The memories differ at most from `lo` up to `hi`. */
  ghost predicate Outside(m: Memory, r: Memory, lo: int, hi: int) {
    forall a :: !(lo <= a < hi) ==> Read(r, a) == Read(m, a)
  }

  lemma HoldsPair(m: Memory, a: int, v: Word, w: Word, ws: seq<Word>)
    requires Holds(m, a + 16, ws) && Read(m, a) == v && Read(m, a + 8) == w
    ensures Holds(m, a, [v, w] + ws)
  {
    forall i | 0 <= i < |ws| + 2 ensures Read(m, a + 8 * i) == ([v, w] + ws)[i] {
      if i >= 2 { assert Read(m, a + 16 + 8 * (i - 2)) == ws[i - 2]; }
    }
  }

  lemma HoldsTail(m: Memory, a: int, ws: seq<Word>)
    requires Holds(m, a, ws) && |ws| >= 2
    ensures Read(m, a) == ws[0] && Read(m, a + 8) == ws[1] && Holds(m, a + 16, ws[2..])
  {
    assert Read(m, a + 8 * 0) == ws[0] && Read(m, a + 8 * 1) == ws[1];
    forall i | 0 <= i < |ws| - 2 ensures Read(m, a + 16 + 8 * i) == ws[2..][i] {
      assert Read(m, a + 8 * (i + 2)) == ws[i + 2];
    }
  }

  lemma StillHolds(m: Memory, r: Memory, lo: int, hi: int, a: int, ws: seq<Word>)
    requires Holds(m, a, ws) && Outside(m, r, lo, hi) && (hi <= a || a + 8 * |ws| <= lo)
    ensures Holds(r, a, ws)
  {
    forall i | 0 <= i < |ws| ensures Read(r, a + 8 * i) == ws[i] { assert Read(m, a + 8 * i) == ws[i]; }
  }

  /** The frame at an address. */
  function FrameAt(m: Memory, a: int): Frame {
    Frame(Read(m, a), Read(m, a + 8), seq(32, i => Read(m, a + 16 + 8 * i)))
  }

  /** The registers that a frame stands for, once it has been popped. */
  function Popped(m: Memory, a: int): Regs {
    var f := FrameAt(m, a);
    Regs(f.reg[..31], a + FRAME_SIZE, f.elr, f.spsr)
  }

  /** An interrupt has put the registers on the stack, and changed no other memory. */
  ghost predicate Saves(m: Memory, r: Memory, regs: Regs) {
    Holds(r, regs.sp - FRAME_SIZE, Words(FrameOf(regs))) && Outside(m, r, regs.sp - FRAME_SIZE, regs.sp)
  }

  /** switch_to writes the return value over the X0 of the frame. */
  function Answered(m: Memory, a: int, ret: Word): Memory {
    m[a + 16 := ret]
  }

  lemma HoldsFrame(m: Memory, a: int)
    ensures Holds(m, a, Words(FrameAt(m, a)))
  {
    var ws := Words(FrameAt(m, a));
    forall i | 0 <= i < |ws| ensures Read(m, a + 8 * i) == ws[i] {
      if i >= 2 { assert ws[i] == FrameAt(m, a).reg[i - 2]; }
    }
  }

  lemma FrameHeld(m: Memory, a: int, f: Frame)
    requires Holds(m, a, Words(f)) && |f.reg| == 32
    ensures FrameAt(m, a) == f
  {
    var ws := Words(f);
    assert Read(m, a + 8 * 0) == ws[0] && Read(m, a + 8 * 1) == ws[1];
    forall i | 0 <= i < 32 ensures FrameAt(m, a).reg[i] == f.reg[i] {
      assert Read(m, a + 8 * (i + 2)) == ws[i + 2];
    }
  }

  // ---------------------------------------------------------------- align

  const UINT32: int := 0x1_0000_0000
  const PROC_STACK: int := 4096

  /** align(ptr, 16): `ptr & -alignment`, where the negation is done in 32 bits and then widened with zeros. */
  function AlignWord(ptr: Word): Word {
    ptr & ((0 as bv32 - 16) as Word)
  }

  /** The same on numbers. */
  function Align(ptr: int): int {
    ptr % UINT32 - ptr % 16
  }

  lemma AlignIsMask(ptr: Word)
    ensures AlignWord(ptr) == ptr % 0x1_0000_0000 - ptr % 16
  {
  }

  /** The aligned address is the nearest multiple of 16 below exactly when the address fits in 32 bits. */
  lemma AlignExact(ptr: int)
    requires 0 <= ptr
    ensures Align(ptr) % 16 == 0
    ensures ptr - 16 < Align(ptr) <= ptr <==> ptr < UINT32
  {
    assert ptr == UINT32 * (ptr / UINT32) + ptr % UINT32;
    assert ptr == 16 * (ptr / 16) + ptr % 16;
    assert Align(ptr) == 16 * (ptr / 16 - 0x1000_0000 * (ptr / UINT32));
    if ptr >= UINT32 { assert ptr / UINT32 >= 1; }
  }

  // ---------------------------------------------------------------- the machine

  /** The frame proc_create makes: as if the task had been interrupted just before its first instruction. */
  function InitialFrame(start: Word, arg: Word, exit: Word): (f: Frame)
    ensures |f.reg| == 32 && f.reg[0] == arg && f.reg[30] == exit
  {
    Frame(4, start, [arg] + seq(29, i => 0 as Word) + [exit, 0])
  }

  /** The part of process_t that context.c uses. */
  class Tcb {
    var frame: int
    var ret: Word

    constructor (frame: int, ret: Word)
      ensures this.frame == frame && this.ret == ret
    {
      this.frame, this.ret := frame, ret;
    }
  }

  class Machine {
    var x: seq<Word>          // X0 to X30
    var sp: int               // SP_EL0
    var elr: Word
    var spsr: Word
    var mem: Memory

    ghost predicate Valid()
      reads this
    {
      |x| == 31 && sp % 16 == 0
    }

    constructor (x: seq<Word>, sp: int, elr: Word, spsr: Word, mem: Memory)
      requires |x| == 31 && sp % 16 == 0
      ensures Valid() && this.x == x && this.sp == sp && this.elr == elr && this.spsr == spsr && this.mem == mem
    {
      this.x, this.sp, this.elr, this.spsr, this.mem := x, sp, elr, spsr, mem;
    }

    function X(r: nat): Word
      reads this
      requires Valid() && r <= XZR
    {
      if r == XZR then 0 else x[r]
    }

    // -------------------------------------------------------------- instructions

    /** STP Xa, Xb, [SP, #-16]! */
    method Stp(a: nat, b: nat, ghost above: seq<Word>)
      requires Valid() && a <= XZR && b <= XZR && Holds(mem, sp, above)
      modifies this`mem, this`sp
      ensures Valid() && sp == old(sp) - 16
      ensures Holds(mem, sp, [X(a), X(b)] + above) && Outside(old(mem), mem, sp, old(sp))
    {
      sp := sp - 16;
      mem := mem[sp := X(a)][sp + 8 := X(b)];
      StillHolds(old(mem), mem, sp, sp + 16, sp + 16, above);
      HoldsPair(mem, sp, X(a), X(b), above);
    }

    /** LDP Xa, Xb, [SP], #16; a load into XZR is dropped. */
    method Ldp(a: nat, b: nat)
      requires Valid() && a < XZR && b <= XZR
      modifies this`x, this`sp
      ensures Valid() && sp == old(sp) + 16
      ensures b == XZR ==> x == old(x)[a := Read(mem, old(sp))]
      ensures b != XZR ==> x == old(x)[a := Read(mem, old(sp))][b := Read(mem, old(sp) + 8)]
    {
      x := x[a := Read(mem, sp)];
      if b != XZR {
        x := x[b := Read(mem, sp + 8)];
      }
      sp := sp + 16;
    }

    /** BL: whatever the return address is, it goes to X30. */
    method Link(address: Word)
      requires Valid()
      modifies this`x
      ensures Valid() && x == old(x)[30 := address]
    {
      x := x[30 := address];
    }

    // -------------------------------------------------------------- saving

    /** The registers from Xk to X29 are on the stack, on top of `above`, and nothing outside it has changed. */
    ghost predicate Saved(m0: Memory, top: int, k: nat, above: seq<Word>)
      reads this
      requires Valid() && k <= 30
    {
      Holds(mem, sp, x[k..30] + above) && Outside(m0, mem, sp, top)
    }

    /** One line of __save_regs. */
    method Push(k: nat, ghost m0: Memory, ghost top: int, ghost above: seq<Word>)
      requires Valid() && k <= 28 && sp <= top && Saved(m0, top, k + 2, above) == true
      modifies this`mem, this`sp
      ensures Valid() && sp == old(sp) - 16 && Saved(m0, top, k, above) == true
    {
      assert [x[k], x[k + 1]] + (x[k + 2..30] + above) == x[k..30] + above;
      Stp(k, k + 1, x[k + 2..30] + above);
    }

    // __save_regs, in three parts.

    method SaveHigh(ghost m0: Memory, ghost top: int, ghost above: seq<Word>)
      requires Valid() && sp <= top && Saved(m0, top, 30, above) == true
      modifies this`mem, this`sp
      ensures Valid() && sp == old(sp) - 80 && Saved(m0, top, 20, above) == true
    {
      Push(28, m0, top, above);
      Push(26, m0, top, above);
      Push(24, m0, top, above);
      Push(22, m0, top, above);
      Push(20, m0, top, above);
    }

    method SaveMiddle(ghost m0: Memory, ghost top: int, ghost above: seq<Word>)
      requires Valid() && sp <= top && Saved(m0, top, 20, above) == true
      modifies this`mem, this`sp
      ensures Valid() && sp == old(sp) - 80 && Saved(m0, top, 10, above) == true
    {
      Push(18, m0, top, above);
      Push(16, m0, top, above);
      Push(14, m0, top, above);
      Push(12, m0, top, above);
      Push(10, m0, top, above);
    }

    method SaveLow(ghost m0: Memory, ghost top: int, ghost above: seq<Word>)
      requires Valid() && sp <= top && Saved(m0, top, 10, above) == true
      modifies this`mem, this`sp
      ensures Valid() && sp == old(sp) - 80 && Saved(m0, top, 0, above) == true
    {
      Push(8, m0, top, above);
      Push(6, m0, top, above);
      Push(4, m0, top, above);
      Push(2, m0, top, above);
      Push(0, m0, top, above);
    }

    method SaveRegs(ghost m0: Memory, ghost top: int, ghost above: seq<Word>)
      requires Valid() && sp <= top && Holds(mem, sp, above) && Outside(m0, mem, sp, top)
      modifies this`mem, this`sp
      ensures Valid() && sp == old(sp) - 240 && Holds(mem, sp, x[..30] + above) && Outside(m0, mem, sp, top)
    {
      assert x[30..30] + above == above && x[0..30] == x[..30];
      SaveHigh(m0, top, above);
      SaveMiddle(m0, top, above);
      SaveLow(m0, top, above);
    }

    ghost function Now(): Regs
      reads this
    {
      Regs(x, sp, elr, spsr)
    }

    /** STP X30, XZR and BL __save_regs: all the registers are saved, though X30 has the return address by then. */
    method SaveGeneral(link: Word)
      requires Valid()
      modifies this`mem, this`sp, this`x
      ensures Valid() && sp == old(sp) - 256
      ensures Holds(mem, sp, old(x) + [0]) && Outside(old(mem), mem, sp, old(sp))
    {
      Stp(30, XZR, []);
      assert [x[30], 0] + [] == [x[30], 0];
      Link(link);
      SaveRegs(old(mem), old(sp), [old(x)[30], 0]);
      LinkKept(old(x), link);
    }

    /** interrupt_handler, up to the call of the handler. The frame has the registers as they were at the interrupt,
        though X30, X9 and X10 are used on the way. */
    method SaveContext(link: Word)
      requires Valid()
      modifies this`mem, this`sp, this`x
      ensures Valid() && sp == old(sp) - FRAME_SIZE && spsr == old(spsr) && elr == old(elr)
      ensures Saves(old(mem), mem, old(Now()))
    {
      SaveGeneral(link);
      ghost var above := old(x) + [0];
      x := x[9 := spsr];
      x := x[10 := elr];
      Stp(9, 10, above);
      assert [spsr, elr] + above == Words(FrameOf(old(Now())));
    }

    // -------------------------------------------------------------- restoring

    /** The registers below Xk are those of `ws`, whose other words are at SP. */
    ghost predicate Loaded(k: nat, ws: seq<Word>)
      reads this
      requires Valid() && k <= 30 && |ws| == 32
    {
      Holds(mem, sp, ws[k..]) && x[..k] == ws[..k]
    }

    /** One line of __load_regs. */
    method Pop(k: nat, ghost ws: seq<Word>)
      requires Valid() && k <= 28 && |ws| == 32 && Loaded(k, ws) == true
      modifies this`x, this`sp
      ensures Valid() && sp == old(sp) + 16 && Loaded(k + 2, ws) == true
    {
      HoldsTail(mem, sp, ws[k..]);
      assert ws[k..][2..] == ws[k + 2..];
      Ldp(k, k + 1);
      assert x[..k + 2] == old(x)[..k] + [x[k], x[k + 1]] && ws[..k + 2] == ws[..k] + [ws[k], ws[k + 1]];
    }

    // __load_regs, in three parts.

    method LoadLow(ghost ws: seq<Word>)
      requires Valid() && |ws| == 32 && Loaded(0, ws) == true
      modifies this`x, this`sp
      ensures Valid() && sp == old(sp) + 80 && Loaded(10, ws) == true
    {
      Pop(0, ws);
      Pop(2, ws);
      Pop(4, ws);
      Pop(6, ws);
      Pop(8, ws);
    }

    method LoadMiddle(ghost ws: seq<Word>)
      requires Valid() && |ws| == 32 && Loaded(10, ws) == true
      modifies this`x, this`sp
      ensures Valid() && sp == old(sp) + 80 && Loaded(20, ws) == true
    {
      Pop(10, ws);
      Pop(12, ws);
      Pop(14, ws);
      Pop(16, ws);
      Pop(18, ws);
    }

    method LoadHigh(ghost ws: seq<Word>)
      requires Valid() && |ws| == 32 && Loaded(20, ws) == true
      modifies this`x, this`sp
      ensures Valid() && sp == old(sp) + 80 && Loaded(30, ws) == true
    {
      Pop(20, ws);
      Pop(22, ws);
      Pop(24, ws);
      Pop(26, ws);
      Pop(28, ws);
    }

    method LoadRegs(ghost ws: seq<Word>)
      requires Valid() && |ws| == 32 && Holds(mem, sp, ws)
      modifies this`x, this`sp
      ensures Valid() && sp == old(sp) + 240 && Holds(mem, sp, ws[30..]) && x[..30] == ws[..30]
    {
      assert ws[0..] == ws;
      LoadLow(ws);
      LoadMiddle(ws);
      LoadHigh(ws);
    }

    /** __load_context: the registers are exactly those of the frame at SP. */
    method LoadContext(link: Word, ghost f: Frame)
      requires Valid() && |f.reg| == 32 && Holds(mem, sp, Words(f))
      modifies this`x, this`sp, this`elr, this`spsr
      ensures Valid() && sp == old(sp) + FRAME_SIZE && x == f.reg[..31] && elr == f.elr && spsr == f.spsr
    {
      HoldsTail(mem, sp, Words(f));
      assert Words(f)[2..] == f.reg && Words(f)[0] == f.spsr && Words(f)[1] == f.elr;
      Ldp(9, 10);
      elr := x[10];
      spsr := x[9];
      Link(link);
      LoadAll(f.reg);
    }

    /** __load_regs, and the last load, of X30. */
    method LoadAll(ghost ws: seq<Word>)
      requires Valid() && |ws| == 32 && Holds(mem, sp, ws)
      modifies this`x, this`sp
      ensures Valid() && sp == old(sp) + 256 && x == ws[..31]
    {
      LoadRegs(ws);
      HoldsTail(mem, sp, ws[30..]);
      Ldp(30, XZR);
      assert x == x[..30] + [x[30]] && ws[..31] == ws[..30] + [ws[30]];
    }

    // -------------------------------------------------------------- switching

    /** From the interrupt up to the end of switch_from. */
    method EnterKernel(process: Tcb, link: Word)
      requires Valid()
      modifies this`mem, this`sp, this`x, process`frame
      ensures Valid() && process.frame == sp == old(sp) - FRAME_SIZE
      ensures Saves(old(mem), mem, old(Now()))
    {
      SaveContext(link);
      process.frame := sp;
    }

    /** From switch_to up to the ERET: X0 is the value to return, the rest is the frame. */
    method LeaveKernel(process: Tcb, link: Word)
      requires Valid() && process.frame % 16 == 0
      modifies this
      ensures Valid() && mem == Answered(old(mem), process.frame, process.ret)
      ensures Now() == Popped(mem, process.frame) && x[0] == process.ret
    {
      mem := mem[process.frame + 16 := process.ret];
      sp := process.frame;
      ghost var f := FrameAt(mem, process.frame);
      HoldsFrame(mem, process.frame);
      LoadContext(link, f);
      assert f.reg[0] == Read(mem, process.frame + 16 + 8 * 0);
    }

    /** memcpy of the initial frame */
    method CopyFrame(to: int, f: Frame)
      requires |f.reg| == 32
      modifies this`mem
      ensures Holds(mem, to, Words(f)) && Outside(old(mem), mem, to, to + FRAME_SIZE)
    {
      var ws := Words(f);
      for i := 0 to 34
        invariant forall k :: 0 <= k < i ==> Read(mem, to + 8 * k) == ws[k]
        invariant Outside(old(mem), mem, to, to + FRAME_SIZE)
      {
        mem := mem[to + 8 * i := ws[i]];
      }
    }

    /** The end of proc_create: the first frame is copied to the top of the new stack, which it fits. */
    method PlaceFrame(base: int, f: Frame, arg: Word) returns (process: Tcb)
      requires |f.reg| == 32 && 0 <= base && base + PROC_STACK <= UINT32
      modifies this`mem
      ensures fresh(process) && process.ret == arg && process.frame % 16 == 0
      ensures base <= process.frame && process.frame + FRAME_SIZE <= base + PROC_STACK
      ensures FrameAt(mem, process.frame) == f && Outside(old(mem), mem, process.frame, process.frame + FRAME_SIZE)
    {
      var frame := Align(base + PROC_STACK - FRAME_SIZE);
      AlignExact(base + PROC_STACK - FRAME_SIZE);
      process := new Tcb(frame, arg);
      CopyFrame(frame, f);
      FrameHeld(mem, frame, f);
    }

    /** The end of proc_create and the first dispatch of the new task: for every stack below 2^32 the frame lies in the
        stack, and the task starts at its start routine with its argument in X0, the address of pthread_exit in X30,
        and an aligned stack pointer inside the stack. */
    method FirstDispatch(base: int, start: Word, arg: Word, exit: Word, link: Word) returns (process: Tcb)
      requires Valid() && 0 <= base && base + PROC_STACK <= UINT32
      modifies this
      ensures Valid() && fresh(process)
      ensures base <= process.frame && process.frame + FRAME_SIZE <= base + PROC_STACK
      ensures Outside(old(mem), mem, process.frame, process.frame + FRAME_SIZE)
      ensures elr == start && spsr == 4 && x[0] == arg && x[30] == exit && (forall i :: 0 < i < 30 ==> x[i] == 0)
      ensures sp % 16 == 0 && base < sp <= base + PROC_STACK
    {
      var f := InitialFrame(start, arg, exit);
      process := PlaceFrame(base, f, arg);
      ghost var built := mem;
      LeaveKernel(process, link);
      StartsWith(built, mem, process.frame, f);
      OutsideMore(old(mem), built, mem, process.frame, arg);
    }
  }

  lemma OutsideMore(m: Memory, built: Memory, r: Memory, a: int, ret: Word)
    requires Outside(m, built, a, a + FRAME_SIZE) && r == Answered(built, a, ret)
    ensures Outside(m, r, a, a + FRAME_SIZE)
  {
  }

  lemma LinkKept(x: seq<Word>, link: Word)
    requires |x| == 31
    ensures x[30 := link][..30] + [x[30], 0] == x + [0]
  {
  }

  /** Writing the argument over itself changes nothing. */
  lemma StartsWith(m: Memory, r: Memory, a: int, f: Frame)
    requires FrameAt(m, a) == f && |f.reg| == 32 && r == m[a + 16 := f.reg[0]]
    ensures FrameAt(r, a) == f
  {
    assert Read(m, a + 16 + 8 * 0) == FrameAt(m, a).reg[0];
    forall i | 0 <= i < 32 ensures FrameAt(r, a).reg[i] == FrameAt(m, a).reg[i] {}
  }
}
