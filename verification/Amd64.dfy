/**
 The context switch on amd64, word by word (src/gas-amd64-sysv.s:4-46), and the frames that
 fiber_add_deferred and fiber_spawn_stack_top build for it (src/fiber.c:14-24, 62-89).
 Memory holds 8-byte words at the addresses used.  A C function that is called may change the
 caller-saved registers and what is below its frame on its own stack, nothing above.
 */
module Amd64 {

  datatype Memory = Memory(words: map<int, int>)
  {
    function At(a: int): int {
      if a in words then words[a] else 0
    }
  }

  function Store(m: Memory, x: int, v: int): (r: Memory)
    ensures forall a :: r.At(a) == if a == x then v else m.At(a)
  {
    Memory(m.words[x := v])
  }

  /** `m` with the words from `lo` up to `hi` replaced by those of `other`. */
  function Overwrite(m: Memory, other: Memory, lo: int, hi: int): (r: Memory)
    ensures forall a :: r.At(a) == if lo <= a < hi then other.At(a) else m.At(a)
  {
    Memory(map a | a in m.words.Keys + other.words.Keys :: if lo <= a < hi then other.At(a) else m.At(a))
  }

  // The three code addresses that contexts resume at.
  const RESUME: int := 1
  const UNARYOP: int := 2
  const ENTRANCE: int := 3

  /** A call to a C function: its address, its argument and the stack pointer at its entry. */
  datatype Call = Call(fn: int, arg: int, rsp: int)

  datatype Deferred = Deferred(fn: int, arg: int)

  /** What a C function leaves behind: stack words and caller-saved registers. */
  datatype Effect = Effect(mem: Memory, rax: int, rdi: int)

  /** The registers that a switch saves, and where it returns to. */
  datatype Context = Context(rbp: int, rax: int, rbx: int, r12: int, r13: int, r14: int, r15: int, ret: int)

  /** A saved context at `p`: the words that fiber_switch_impl pushed. */
  predicate Saved(m: Memory, p: int, c: Context) {
    && m.At(p) == RESUME
    && m.At(p + 8) == c.r15 && m.At(p + 16) == c.r14 && m.At(p + 24) == c.r13 && m.At(p + 32) == c.r12
    && m.At(p + 40) == c.rbx && m.At(p + 48) == c.rax && m.At(p + 56) == c.rbp
    && m.At(p + 64) == c.ret
  }

  /** From `p` up to `base` the frames of deferred calls, in the order in which they will run. */
  ghost predicate Stacked(m: Memory, p: int, base: int, calls: seq<Deferred>)
    decreases |calls|
  {
    if calls == [] then p == base
    else
      && m.At(p) == UNARYOP && m.At(p + 8) == calls[0].fn && m.At(p + 16) == calls[0].arg
      && Stacked(m, p + 32, base, calls[1..])
  }

  /** A spawned fiber's first frame at `p`. */
  predicate Spawned(m: Memory, p: int, entrance: int, data: int, exit: int, sched: int) {
    && m.At(p) == ENTRANCE
    && m.At(p + 8) == entrance && m.At(p + 16) == data && m.At(p + 24) == exit && m.At(p + 32) == sched
  }

  ghost predicate Same(m: Memory, m': Memory, lo: int, hi: int) {
    forall a :: lo <= a < hi ==> m'.At(a) == m.At(a)
  }

  lemma {:induction false} StackedSame(m: Memory, m': Memory, p: int, base: int, calls: seq<Deferred>)
    requires Stacked(m, p, base, calls) && Same(m, m', p, base)
    ensures Stacked(m', p, base, calls) && p == base - 32 * |calls|
    decreases |calls|
  {
    if calls != [] {
      StackedHeight(m, p + 32, base, calls[1..]);
      StackedSame(m, m', p + 32, base, calls[1..]);
    }
  }

  lemma {:induction false} StackedHeight(m: Memory, p: int, base: int, calls: seq<Deferred>)
    requires Stacked(m, p, base, calls)
    ensures p == base - 32 * |calls|
    decreases |calls|
  {
    if calls != [] {
      StackedHeight(m, p + 32, base, calls[1..]);
    }
  }

  /** What is outside the stack from `low` up to `base` is as it was. */
  ghost predicate Kept(m: Memory, m': Memory, low: int, base: int) {
    forall a :: a < low || base <= a ==> m'.At(a) == m.At(a)
  }

  lemma KeptSelf(m: Memory, low: int, base: int)
    ensures Kept(m, m, low, base)
  {}

  lemma KeptMore(m: Memory, m': Memory, m'': Memory, low: int, base: int, above: int)
    requires Kept(m, m', low, base) && Kept(m', m'', low, above) && above <= base
    ensures Kept(m, m'', low, base) && m''.At(base) == m.At(base)
  {}

  lemma SavedSame(m: Memory, m': Memory, p: int, c: Context)
    requires Saved(m, p, c) && Same(m, m', p, p + 72)
    ensures Saved(m', p, c)
  {}

  lemma SpawnedSame(m: Memory, m': Memory, p: int, entrance: int, data: int, exit: int, sched: int)
    requires Spawned(m, p, entrance, data, exit, sched) && Same(m, m', p, p + 40)
    ensures m'.At(p + 8) == entrance && m'.At(p + 16) == data && m'.At(p + 24) == exit && m'.At(p + 32) == sched
  {}

  lemma SavedKept(m: Memory, m': Memory, p: int, c: Context, low: int, base: int)
    requires Saved(m, p, c) && Kept(m, m', low, base) && (p + 72 <= low || base <= p)
    ensures Saved(m', p, c)
  {}

  lemma SavedResumes(m: Memory, p: int, c: Context)
    requires Saved(m, p, c)
    ensures m.At(p) != UNARYOP
  {}

  lemma SpawnedResumes(m: Memory, p: int, entrance: int, data: int, exit: int, sched: int)
    requires Spawned(m, p, entrance, data, exit, sched)
    ensures m.At(p) != UNARYOP
  {}

  /** The calls that the frames from `p` on stand for. */
  function CallsAt(p: int, calls: seq<Deferred>): (r: seq<Call>)
    ensures |r| == |calls|
  {
    seq(|calls|, i requires 0 <= i < |calls| => Call(calls[i].fn, calls[i].arg, p + 32 * i))
  }

  /** The System V AMD64 ABI, section 3.2.2: at the entry of a function the stack pointer is 8
      below a multiple of 16. */
  predicate EntryAligned(c: Call) {
    (c.rsp + 8) % 16 == 0
  }

  /** A stack pointer as every context is saved with: 8 above a multiple of 16. */
  predicate PointerAligned(p: int) {
    p % 16 == 8
  }

  /** A stack pointer just before a call or after its return. */
  predicate CallerAligned(rsp: int) {
    rsp % 16 == 0
  }

  /** fiber_switch_impl was entered as the ABI has it, on a slot that holds such a pointer. */
  predicate SwitchAligned(rsp: int, m: Memory, slot: int) {
    CallerAligned(rsp + 8) && PointerAligned(m.At(slot))
  }

  /** All calls from the n-th on were entered as the ABI has it. */
  ghost predicate CallsAligned(trace: seq<Call>, n: nat) {
    forall i :: n <= i < |trace| ==> EntryAligned(trace[i])
  }

  lemma FramesAligned(seen: seq<Call>, p: int, calls: seq<Deferred>)
    requires PointerAligned(p)
    ensures CallsAligned(seen + CallsAt(p, calls), |seen|)
  {
    var trace := seen + CallsAt(p, calls);
    forall i | |seen| <= i < |trace|
      ensures EntryAligned(trace[i])
    {
      assert trace[i] == CallsAt(p, calls)[i - |seen|];
    }
  }

  lemma TwoMoreAligned(trace: seq<Call>, n: nat, base: int, entrance: int, data: int, exit: int, sched: int)
    requires CallsAligned(trace, n) && n <= |trace| && PointerAligned(base)
    ensures CallsAligned(trace + [Call(entrance, data, base), Call(exit, sched, base)], n)
  {}

  lemma Sixteens(p: int, k: int)
    ensures (p + 16 * k) % 16 == p % 16
  {}

  lemma FrameAligned(p: int, n: nat, base: int)
    requires base == p + 32 * n
    ensures PointerAligned(p) <==> PointerAligned(base)
  {
    Sixteens(p, 2 * n);
  }

  /** What a switch entered with the stack pointer `rsp`, to the frames of `calls` up to `base`,
      saves, calls and goes back with. */
  lemma SwitchKeepsAligned(rsp: int, m: Memory, slot: int, calls: seq<Deferred>, base: int, seen: seq<Call>)
    requires Stacked(m, m.At(slot), base, calls)
    ensures SwitchAligned(rsp, m, slot) ==> PointerAligned(rsp - 64) && PointerAligned(base) && CallerAligned(base + 72)
    ensures SwitchAligned(rsp, m, slot) ==> CallsAligned(seen + CallsAt(m.At(slot), calls), |seen|)
  {
    if !SwitchAligned(rsp, m, slot) {
      return;
    }
    StackedHeight(m, m.At(slot), base, calls);
    FrameAligned(m.At(slot), |calls|, base);
    FramesAligned(seen, m.At(slot), calls);
    SavedAligned(rsp, base);
    hide *;
  }

  lemma SavedAligned(rsp: int, base: int)
    ensures CallerAligned(rsp + 8) ==> PointerAligned(rsp - 64)
    ensures PointerAligned(base) ==> CallerAligned(base + 72)
  {}

  function Reversed<T>(s: seq<T>): (r: seq<T>)
    ensures |r| == |s|
  {
    if s == [] then [] else Reversed(s[1..]) + [s[0]]
  }

  lemma {:induction false} ReversedLast<T>(s: seq<T>, x: T)
    ensures Reversed(s + [x]) == [x] + Reversed(s)
  {
    if s != [] {
      ReversedLast(s[1..], x);
      assert (s + [x])[1..] == s[1..] + [x];
    }
  }

  class Cpu {
    var rsp: int
    var rax: int
    var rdi: int
    var rbx: int
    var rbp: int
    var r12: int
    var r13: int
    var r14: int
    var r15: int
    var mem: Memory
    /** History: the calls to C functions. */
    var trace: seq<Call>

    constructor (mem: Memory, rsp: int)
      ensures this.mem == mem && this.rsp == rsp && trace == []
    {
      this.mem, this.rsp, trace := mem, rsp, [];
      rax, rdi, rbx, rbp, r12, r13, r14, r15 := 0, 0, 0, 0, 0, 0, 0, 0;
    }

    /** The context that a switch with this return address would save. */
    function Here(ret: int): Context
      reads this
    {
      Context(rbp, rax, rbx, r12, r13, r14, r15, ret)
    }

    method Push(v: int)
      modifies `rsp, `mem
      ensures rsp == old(rsp) - 8 && mem == Store(old(mem), rsp, v)
    {
      rsp := rsp - 8;
      mem := Store(mem, rsp, v);
    }

    method Pop() returns (v: int)
      modifies `rsp
      ensures v == mem.At(old(rsp)) && rsp == old(rsp) + 8
    {
      v := mem.At(rsp);
      rsp := rsp + 8;
    }

    /** `callq *%rax`, the C function, and its return.  Its stack begins at `low`. */
    method CallC(e: Effect, low: int)
      requires low <= rsp - 8
      modifies `rsp, `mem, `rax, `rdi, `trace
      ensures rsp == old(rsp) && trace == old(trace) + [Call(old(rax), old(rdi), rsp - 8)]
      ensures Kept(old(mem), mem, low, rsp)
    {
      Push(0);
      trace := trace + [Call(rax, rdi, rsp)];
      mem := Overwrite(mem, e.mem, low, rsp);
      rax, rdi := e.rax, e.rdi;
      rsp := rsp + 8;
    }

    /** fiber_load_unaryop, entered by a `retq` that left the stack pointer above it. */
    method LoadUnaryop(e: Effect, low: int)
      requires low <= rsp - 8
      modifies `rsp, `mem, `rax, `rdi, `trace
      ensures rsp == old(rsp) + 24
      ensures trace == old(trace) + [Call(old(mem).At(old(rsp)), old(mem).At(old(rsp) + 8), old(rsp) - 8)]
      ensures Kept(old(mem), mem, low, old(rsp))
    {
      rax := mem.At(rsp);
      rdi := mem.At(rsp + 8);
      CallC(e, low);
      rsp := rsp + 24;
    }

    /** One frame: the deferred call and the `retq` after it. */
    method RunFrame(e: Effect, low: int, ghost at: int, ghost base: int, ghost calls: seq<Deferred>) returns (rip: int)
      requires Stacked(mem, at, base, calls) && calls != [] && rsp == at + 8 && low <= at
      modifies `rsp, `mem, `rax, `rdi, `trace
      ensures rsp == at + 40 && rip == mem.At(at + 32) && at + 32 <= base
      ensures Stacked(mem, at + 32, base, calls[1..]) && Kept(old(mem), mem, low, at + 8)
      ensures trace + CallsAt(at + 32, calls[1..]) == old(trace) + CallsAt(at, calls)
    {
      ghost var m, seen := mem, trace;
      StackedTop(mem, at, base, calls);
      StackedHeight(mem, at, base, calls);
      hide CallsAt;
      LoadUnaryop(e, low);
      StackedSame(m, mem, at + 32, base, calls[1..]);
      NextCall(seen, at, calls);
      rip := Pop();
    }

    /** A `retq` onto stacked frames: the deferred calls run, once each, and control goes where
        the word under the frames says.  The n-th C function has the n-th effect. */
    method Land(effects: int -> Effect, low: int, ghost base: int, ghost calls: seq<Deferred>) returns (rip: int)
      requires Stacked(mem, rsp, base, calls) && mem.At(base) != UNARYOP && low <= rsp
      modifies `rsp, `mem, `rax, `rdi, `trace
      ensures rip == old(mem).At(base) && rsp == base + 8
      ensures trace == old(trace) + CallsAt(old(rsp), calls)
      ensures Kept(old(mem), mem, low, base)
    {
      hide Stacked, CallsAt, Kept;
      ghost var rest := calls;
      KeptSelf(mem, low, base);
      StackedTop(mem, rsp, base, rest);
      rip := Pop();
      var n := 0;
      while rip == UNARYOP
        invariant low <= rsp - 8 <= base && rip == mem.At(rsp - 8)
        invariant Stacked(mem, rsp - 8, base, rest)
        invariant trace + CallsAt(rsp - 8, rest) == old(trace) + CallsAt(old(rsp), calls)
        invariant Kept(old(mem), mem, low, base) && mem.At(base) == old(mem).At(base)
        decreases |rest|
      {
        ghost var m, at := mem, rsp - 8;
        StackedTop(mem, at, base, rest);
        rip := RunFrame(effects(n), low, at, base, rest);
        KeptMore(old(mem), m, mem, low, base, at + 8);
        n, rest := n + 1, rest[1..];
      }
      StackedTop(mem, rsp - 8, base, rest);
      assert CallsAt(rsp - 8, []) == [];
    }

    /** `fiber_switch_impl` up to the load of the other stack pointer: the context is saved on
        this stack and its address left in the slot that %rdi points to. */
    method SaveAndLoad()
      requires !(rsp - 64 <= rdi < rsp + 8)
      modifies `rsp, `mem, `rax
      ensures Saved(mem, old(rsp) - 64, old(Here(mem.At(rsp)))) && mem.At(rdi) == old(rsp) - 64 && rsp == old(mem.At(rdi))
      ensures forall a :: a < old(rsp) - 64 || old(rsp) <= a ==> a != rdi ==> mem.At(a) == old(mem).At(a)
    {
      ghost var c := Here(mem.At(rsp));
      Push(rbp);
      Push(rax);
      Push(rbx);
      Push(r12);
      Push(r13);
      Push(r14);
      Push(r15);
      Push(RESUME);
      assert Saved(mem, rsp, c);
      rax := mem.At(rdi);
      mem := Store(mem, rdi, rsp);
      rsp := rax;
    }

    method RestoreHigh(ghost p: int, ghost c: Context)
      requires Saved(mem, p, c) && rsp == p + 8
      modifies `rsp, `r12, `r13, `r14, `r15
      ensures r15 == c.r15 && r14 == c.r14 && r13 == c.r13 && r12 == c.r12 && rsp == p + 40
    {
      r15 := Pop();
      r14 := Pop();
      r13 := Pop();
      r12 := Pop();
    }

    /** The code at RESUME. */
    method Restore(ghost p: int, ghost c: Context) returns (rip: int)
      requires Saved(mem, p, c) && rsp == p + 8
      modifies `rsp, `rax, `rbx, `rbp, `r12, `r13, `r14, `r15
      ensures Here(rip) == c && rsp == p + 72
    {
      RestoreHigh(p, c);
      rbx := Pop();
      rax := Pop();
      rbp := Pop();
      rip := Pop();
    }

    /** fiber_switch_impl up to where the deferred calls have run: this context is saved, and
        what is from `base` up to `top` on the other stack is as it was. */
    method Depart(effects: int -> Effect, low: int, ghost base: int, ghost top: int, ghost calls: seq<Deferred>)
      returns (rip: int)
      requires !(rsp - 64 <= rdi < rsp + 8)
      requires Stacked(mem, mem.At(rdi), base, calls) && mem.At(base) != UNARYOP && low <= mem.At(rdi) && base < top
      requires rsp + 8 <= low || top <= rsp - 64
      requires rdi < low || top <= rdi
      modifies this
      ensures rip == old(mem).At(base) && rsp == base + 8 && Same(old(mem), mem, base, top)
      ensures trace == old(trace) + CallsAt(old(mem.At(rdi)), calls)
      ensures Saved(mem, old(rsp) - 64, old(Here(mem.At(rsp)))) && mem.At(old(rdi)) == old(rsp) - 64
    {
      hide Saved, Stacked, CallsAt;
      ghost var own, at, m := Here(mem.At(rsp)), rsp - 64, mem;
      StackedHeight(mem, mem.At(rdi), base, calls);
      SaveAndLoad();
      StackedSame(m, mem, rsp, base, calls);
      ghost var m' := mem;
      rip := Land(effects, low, base, calls);
      SavedKept(m', mem, at, own, low, base);
    }

    /** fiber_switch to a saved context under any number of deferred calls: they run once each,
        then the registers and the stack pointer are what they were when the context was
        saved, and this context is saved for a later switch. */
    method Switch(effects: int -> Effect, low: int, ghost base: int, ghost calls: seq<Deferred>, ghost c: Context)
      returns (rip: int)
      requires !(rsp - 64 <= rdi < rsp + 8)
      requires Stacked(mem, mem.At(rdi), base, calls) && Saved(mem, base, c) && low <= mem.At(rdi)
      requires rsp + 8 <= low || base + 72 <= rsp - 64
      requires rdi < low || base + 72 <= rdi
      modifies this
      ensures Here(rip) == c && rsp == base + 72
      ensures trace == old(trace) + CallsAt(old(mem.At(rdi)), calls)
      ensures Saved(mem, old(rsp) - 64, old(Here(mem.At(rsp)))) && mem.At(old(rdi)) == old(rsp) - 64
    {
      hide Saved, Stacked, CallsAt;
      ghost var m := mem;
      SavedResumes(m, base, c);
      rip := Depart(effects, low, base, base + 72, calls);
      SavedSame(m, mem, base, c);
      rip := Restore(base, c);
    }

    /** fiber_load_entrance, entered by a `retq`: the entrance, and when it returns the exit. */
    method LoadEntrance(first: Effect, second: Effect, low: int)
      requires low <= rsp - 8
      modifies `rsp, `mem, `rax, `rdi, `trace
      ensures
        var m, p := old(mem), old(rsp);
        && trace == old(trace) + [Call(m.At(p), m.At(p + 8), p - 8), Call(m.At(p + 16), m.At(p + 24), p - 8)]
        && rsp == p + 32
      ensures Kept(old(mem), mem, low, old(rsp))
    {
      rax := mem.At(rsp);
      rdi := mem.At(rsp + 8);
      CallC(first, low);
      rax := mem.At(rsp + 16);
      rdi := mem.At(rsp + 24);
      CallC(second, low);
      rsp := rsp + 32;
    }

    /** fiber_add_deferred on the context at `stackTop`. */
    method AddDeferred(stackTop: int, fn: int, data: int, ghost base: int, ghost calls: seq<Deferred>)
      returns (stackTop': int)
      requires Stacked(mem, stackTop, base, calls)
      modifies `mem
      ensures stackTop' == stackTop - 32 && Stacked(mem, stackTop', base, [Deferred(fn, data)] + calls)
      ensures PointerAligned(stackTop) ==> PointerAligned(stackTop')
      ensures forall a :: !(stackTop' <= a < stackTop) ==> mem.At(a) == old(mem).At(a)
    {
      ghost var m := mem;
      StackedHeight(mem, stackTop, base, calls);
      mem := Store(mem, stackTop - 8, 0);
      mem := Store(mem, stackTop - 16, data);
      mem := Store(mem, stackTop - 24, fn);
      mem := Store(mem, stackTop - 32, UNARYOP);
      stackTop' := stackTop - 32;
      StackedSame(m, mem, stackTop, base, calls);
      assert ([Deferred(fn, data)] + calls)[1..] == calls;
    }

    /** Deferring one call after another: the last one will run first. */
    method DeferAll(stackTop: int, ds: seq<Deferred>) returns (stackTop': int)
      modifies `mem
      ensures stackTop' == stackTop - 32 * |ds| && Stacked(mem, stackTop', stackTop, Reversed(ds))
      ensures forall a :: a >= stackTop ==> mem.At(a) == old(mem).At(a)
    {
      stackTop' := stackTop;
      for i := 0 to |ds|
        invariant stackTop' == stackTop - 32 * i && Stacked(mem, stackTop', stackTop, Reversed(ds[..i]))
        invariant forall a :: a >= stackTop ==> mem.At(a) == old(mem).At(a)
      {
        stackTop' := AddDeferred(stackTop', ds[i].fn, ds[i].arg, stackTop, Reversed(ds[..i]));
        ReversedLast(ds[..i], ds[i]);
        assert ds[..i + 1] == ds[..i] + [ds[i]];
      }
      assert ds[..|ds|] == ds;
    }

    /** fiber_spawn_stack_top on the block that ends at `top`. */
    method SpawnStackTop(top: int, sched: int, exit: int, entrance: int, data: int) returns (stackTop: int)
      modifies `mem
      ensures stackTop == top - 40 && Spawned(mem, stackTop, entrance, data, exit, sched)
      ensures top % 16 == 0 ==> PointerAligned(stackTop)
      ensures forall a :: !(stackTop <= a < top) ==> mem.At(a) == old(mem).At(a)
    {
      mem := Store(mem, top - 8, sched);
      mem := Store(mem, top - 16, exit);
      mem := Store(mem, top - 24, data);
      mem := Store(mem, top - 32, entrance);
      mem := Store(mem, top - 40, ENTRANCE);
      stackTop := top - 40;
    }

    /** The first switch to a spawned fiber, under any number of deferred calls: they run, then
        the entrance with its data, then the exit with the scheduler, and the context that was
        left stays saved. */
    method Start(effects: int -> Effect, low: int, ghost base: int, ghost calls: seq<Deferred>,
                 ghost entrance: int, ghost data: int, ghost exit: int, ghost sched: int)
      requires !(rsp - 64 <= rdi < rsp + 8)
      requires Stacked(mem, mem.At(rdi), base, calls) && Spawned(mem, base, entrance, data, exit, sched) && low <= mem.At(rdi)
      requires rsp + 8 <= low || base + 40 <= rsp - 64
      requires rdi < low || base + 40 <= rdi
      modifies this
      ensures trace == old(trace) + CallsAt(old(mem.At(rdi)), calls) + [Call(entrance, data, base), Call(exit, sched, base)]
      ensures Saved(mem, old(rsp) - 64, old(Here(mem.At(rsp)))) && mem.At(old(rdi)) == old(rsp) - 64
    {
      hide Stacked, CallsAt, Saved, Spawned, Kept;
      ghost var m := mem;
      StackedHeight(mem, mem.At(rdi), base, calls);
      SpawnedResumes(m, base, entrance, data, exit, sched);
      var rip := Depart(effects, low, base, base + 40, calls);
      SpawnedSame(m, mem, base, entrance, data, exit, sched);
      m := mem;
      LoadEntrance(effects(-1), effects(-2), low);
      SavedKept(m, mem, old(rsp) - 64, old(Here(mem.At(rsp))), low, base + 8);
    }
  }

  /** A switch entered as the ABI has it, to an aligned context, saves an aligned context,
      enters every deferred call as the ABI has it and comes back to a caller whose stack is
      aligned. */
  method SwitchAsCalled(cpu: Cpu, effects: int -> Effect, low: int, ghost base: int, ghost calls: seq<Deferred>, ghost c: Context)
    returns (rip: int)
    requires SwitchAligned(cpu.rsp, cpu.mem, cpu.rdi)
    requires !(cpu.rsp - 64 <= cpu.rdi < cpu.rsp + 8)
    requires Stacked(cpu.mem, cpu.mem.At(cpu.rdi), base, calls) && Saved(cpu.mem, base, c) && low <= cpu.mem.At(cpu.rdi)
    requires cpu.rsp + 8 <= low || base + 72 <= cpu.rsp - 64
    requires cpu.rdi < low || base + 72 <= cpu.rdi
    modifies cpu
    ensures PointerAligned(cpu.mem.At(old(cpu.rdi))) && CallsAligned(cpu.trace, |old(cpu.trace)|) && CallerAligned(cpu.rsp)
    ensures |cpu.trace| == |old(cpu.trace)| + |calls|
  {
    SwitchKeepsAligned(cpu.rsp, cpu.mem, cpu.rdi, calls, base, cpu.trace);
    hide *;
    rip := cpu.Switch(effects, low, base, calls, c);
  }

  /** So does the first switch to a spawned fiber, whose entrance and exit are entered as the
      ABI has it too. */
  method StartAsCalled(cpu: Cpu, effects: int -> Effect, low: int, ghost base: int, ghost calls: seq<Deferred>,
                       ghost entrance: int, ghost data: int, ghost exit: int, ghost sched: int)
    requires SwitchAligned(cpu.rsp, cpu.mem, cpu.rdi)
    requires !(cpu.rsp - 64 <= cpu.rdi < cpu.rsp + 8)
    requires Stacked(cpu.mem, cpu.mem.At(cpu.rdi), base, calls) && Spawned(cpu.mem, base, entrance, data, exit, sched)
    requires low <= cpu.mem.At(cpu.rdi)
    requires cpu.rsp + 8 <= low || base + 40 <= cpu.rsp - 64
    requires cpu.rdi < low || base + 40 <= cpu.rdi
    modifies cpu
    ensures PointerAligned(cpu.mem.At(old(cpu.rdi)))
    ensures CallsAligned(cpu.trace, |old(cpu.trace)|) && |cpu.trace| == |old(cpu.trace)| + |calls| + 2
  {
    SwitchKeepsAligned(cpu.rsp, cpu.mem, cpu.rdi, calls, base, cpu.trace);
    TwoMoreAligned(cpu.trace + CallsAt(cpu.mem.At(cpu.rdi), calls), |cpu.trace|, base, entrance, data, exit, sched);
    hide *;
    cpu.Start(effects, low, base, calls, entrance, data, exit, sched);
  }

  lemma StackedTop(m: Memory, p: int, base: int, calls: seq<Deferred>)
    requires Stacked(m, p, base, calls)
    ensures p == base - 32 * |calls| && (calls == [] ==> p == base)
    ensures calls != [] ==> m.At(p) == UNARYOP && m.At(p + 8) == calls[0].fn && m.At(p + 16) == calls[0].arg
  {
    StackedHeight(m, p, base, calls);
  }

  lemma NextCall(seen: seq<Call>, at: int, calls: seq<Deferred>)
    requires calls != []
    ensures seen + [Call(calls[0].fn, calls[0].arg, at)] + CallsAt(at + 32, calls[1..]) == seen + CallsAt(at, calls)
  {
    assert CallsAt(at, calls) == [Call(calls[0].fn, calls[0].arg, at)] + CallsAt(at + 32, calls[1..]);
  }

  // ------------------------------------------------------------ alignment

  lemma DeferredCallsAligned(base: int, ds: seq<Deferred>)
    requires PointerAligned(base)
    ensures CallsAligned(CallsAt(base - 32 * |ds|, Reversed(ds)), 0)
  {
    hide *;
    var p := base - 32 * |ds|;
    var calls := CallsAt(p, Reversed(ds));
    FrameAligned(p, |ds|, base);
    FramesAligned([], p, Reversed(ds));
    assert [] + calls == calls;
  }

  /** align_address */
  function Align(a: int): int {
    a / 16 * 16
  }

  const STACK_SIZE: int := 8 * 1024

  /** fiber_memory_create puts the block's descriptor, `size` bytes long, at the upper end of
      the mapping at `addr`, and the stack ends where it begins: at a multiple of 16, whatever
      the alignment of the mapping, with the descriptor inside the mapping. */
  lemma StackTopOfBlock(addr: int, size: int)
    requires 0 < size <= STACK_SIZE - 16
    ensures
      var top := Align(addr + STACK_SIZE - size);
      top % 16 == 0 && addr < top && top + size <= addr + STACK_SIZE
  {}

  /** The frame of a deferred call at `p` has the word at `a`. */
  predicate Covers(p: int, a: int) {
    p <= a < p + 32
  }

  /** fiber_spawn_impl puts the fiber's record, the saved stack pointer and the two words of
      its link in a 32-byte struct, below the first frame: it is aligned, it does not overlap
      the frame, and it is in the block.  The frame of the first deferred call covers exactly
      the link, and not the saved pointer; that of the second covers the saved pointer. */
  lemma SpawnRecord(addr: int, top: int)
    requires top % 16 == 0 && addr + 80 <= top
    ensures
      var stackTop := top - 40;
      var record := Align(stackTop) - 32;
      && record % 16 == 0 && addr <= record && record + 24 <= stackTop
      && !Covers(stackTop - 32, record) && Covers(stackTop - 32, record + 8) && Covers(stackTop - 32, record + 16)
      && Covers(stackTop - 64, record)
  {}

  /** So after the first deferral the record's pointer can still be read, and its link cannot. */
  method DeferOverRecord(cpu: Cpu, top: int, fn: int, data: int) returns (stackTop': int)
    requires top % 16 == 0
    modifies cpu`mem
    ensures
      var record := Align(top - 40) - 32;
      && stackTop' == top - 72 && cpu.mem.At(record) == old(cpu.mem).At(record)
      && cpu.mem.At(record + 8) == UNARYOP && cpu.mem.At(record + 16) == fn
  {
    SpawnRecord(top - 80, top);
    stackTop' := cpu.AddDeferred(top - 40, fn, data, top - 40, []);
  }
}
