/**
 The scheduler's shared state updated in place, as src/work-thread.c, src/fiber.c and
 src/scheduler.c do it: each method is one region, write or switch, `Advance` dispatches to
 them as the machine in `Scheduler` does, and `Execute` runs it, so that everything proved of
 the machine's runs holds of these fields.
 */
module Runtime {
  import opened Scheduler
  import B = BatchEnqueue
  import J = Journeys
  import Records

  /** The machine and the loops of `BatchEnqueue` agree: a step of a batch either leaves the
      two shared lists alone or is one of the four regions the loops are made of, and the last
      region of a batch leaves what `EnqueueFiberList` says. */
  lemma BatchStepIsRegion(s: State, w: Wid, fs: seq<Fid>, ths: seq<Wid>)
    ensures
      var s' := BatchStep(s, w, fs, ths);
      var before, after := B.Shared(s.queue, s.idle), B.Shared(s'.queue, s'.idle);
      && (after == before || B.Region(before, after))
      && (fs != [] && ths == [] && s.idle == [] ==> after == B.Shared(s.queue + fs, []))
      && (fs == [] && ths != [] && s.queue == [] ==> after == B.Shared([], ths + s.idle))
  {
    if fs == [] && ths != [] && s.queue == [] {
      assert (ths + s.idle)[|ths + s.idle| - |s.idle|..] == s.idle;
    }
  }

  class Sched {
    var queue: seq<Fid>
    var idle: seq<Wid>
    var objs: seq<Obj>
    var disposed: seq<Fid>
    var fib: seq<Fiber>
    var ws: seq<Agent>

    function Value(): State
      reads this
    {
      State(queue, idle, objs, disposed, fib, ws)
    }

    /** Lists, places, seats and pending calls correspond. */
    ghost predicate Valid()
      reads this
    {
      Inv(Value())
    }

    constructor (extra: nat, objects: nat)
      ensures Valid() && Value() == Init(extra, objects)
    {
      var s := Init(extra, objects);
      queue, idle, objs, disposed, fib, ws := s.queue, s.idle, s.objs, s.disposed, s.fib, s.ws;
      new;
      InitInv(extra, objects);
    }

    method SetPc(w: Wid, pc: Pc)
      requires w < |ws|
      modifies `ws
      ensures Value() == old(Value()).Goto(w, pc)
    {
      ws := ws[w := ws[w].(pc := pc)];
    }

    /** History only: fiber `f` changes its place. */
    method Move(f: Fid, p: Place)
      modifies `fib
      ensures Value() == old(Value()).Put(f, p)
    {
      if f < |fib| {
        fib := fib[f := fib[f].(place := p)];
      }
    }

    /** thread_fiber.stack_top of thread `th`. */
    method SetSlot(th: Wid, t: Top, x: Seat)
      modifies `ws
      ensures Value() == old(Value()).FillSlot(th, t, x)
    {
      if th < |ws| {
        ws := ws[th := ws[th].(slot := t, seat := x)];
      }
    }

    method SetTop(f: Fid, t: Top)
      modifies `fib
      ensures Value() == old(Value()).Aim(f, t)
    {
      if f < |fib| {
        fib := fib[f := fib[f].(top := t)];
      }
    }

    /** The locked region of work_thread_loop: park, or take the first fiber. */
    method WorkThreadTurn(w: Wid)
      requires w < |ws|
      modifies this
      ensures Value() == LoopTurn(old(Value()), w)
    {
      if queue == [] {
        idle := idle + [w];
        ws := Value().SeatAll([w], Idle).ws;
        SetPc(w, Parked);
      } else {
        var it := queue[0];
        queue := queue[1..];
        Move(it, Held(w));
        SetPc(w, LoopPopped(it));
      }
    }

    /** thread_fiber.stack_top = f.stack_top in work_thread_loop. */
    method LoadSlot(w: Wid, f: Fid)
      requires w < |ws|
      modifies this
      ensures Value() == LoopRead(old(Value()), w, f)
    {
      SetSlot(w, Value().TopOf(f), Busy);
      Move(f, Slotted(w));
      SetPc(w, Awake);
    }

    /** fjx_thread_semaphore_wait of a parked worker. */
    method AwaitSignal(w: Wid)
      requires w < |ws|
      modifies this
      ensures Value() == SemaphoreWait(old(Value()), w)
    {
      if ws[w].sem > 0 {
        ws := ws[w := ws[w].(sem := ws[w].sem - 1, seat := Busy, pc := Awake)];
      }
    }

    /** enqueue_fiber, its locked region. */
    method Enqueue(w: Wid, f: Fid)
      requires w < |ws|
      modifies this
      ensures Value() == EnqueueRegion(old(Value()), w, f)
    {
      if idle != [] {
        var th := idle[0];
        idle := idle[1..];
        ws := Value().SeatAll([th], Stolen(w)).ws;
        Move(f, Held(w));
        SetPc(w, Giving(f, th));
      } else {
        queue := queue + [f];
        Move(f, Queued);
        SetPc(w, Free);
      }
    }

    /** enqueue_fiber, its two unlocked writes: first the slot, then the signal. */
    method HandOver(w: Wid, f: Fid, th: Wid, next: Pc)
      requires w < |ws|
      modifies this
      ensures Value() == WriteSlot(old(Value()), w, f, th, next)
    {
      SetSlot(th, Value().TopOf(f), Filled(w));
      Move(f, Slotted(th));
      SetPc(w, next);
    }

    method SignalWorker(w: Wid, th: Wid, next: Pc)
      requires w < |ws|
      modifies this
      ensures Value() == SignalThread(old(Value()), w, th, next)
    {
      if th < |ws| {
        ws := ws[th := ws[th].(sem := ws[th].sem + 1, seat := Signalled)];
      }
      SetPc(w, next);
    }

    /** get_available_fiber for a fiber that leaves its worker. */
    method GetAvailableFiber(w: Wid, call: Call)
      requires w < |ws|
      modifies this
      ensures Value() == Leave(old(Value()), w, call)
    {
      if queue == [] {
        SetPc(w, ToLoop(call));
      } else {
        var it := queue[0];
        queue := queue[1..];
        Move(it, Held(w));
        SetPc(w, Popped(it, call));
      }
    }

    /** f.stack_top = t, then fiber_add_deferred(f, call), for the current fiber f. */
    method AddDeferred(w: Wid, t: Top, call: Call)
      requires w < |ws|
      modifies this
      ensures Value() == AimAt(old(Value()), w, t, call)
    {
      if ws[w].cur.Loop? {
        return;
      }
      var f := ws[w].cur.f;
      SetTop(f, t);
      SetTop(f, Top(t.ctx, Push(call, t.calls)));
      SetPc(w, Aimed);
    }

    /** fiber_switch(&f) by the current fiber f: its context is saved in its record, and the
        context that was there is loaded with the calls stacked on it. */
    method SwitchFiber(w: Wid)
      requires w < |ws|
      modifies this
      ensures Value() == if old(ws[w].cur.Fib?) then SwitchFromFiber(old(Value()), w, old(ws[w].cur.f)) else old(Value())
    {
      if ws[w].cur.Loop? || ws[w].cur.f >= |fib| {
        return;
      }
      var f := ws[w].cur.f;
      var t := fib[f].top;
      var p := if t.calls.Push? && !t.calls.call.Unlock? then Calling(w) else fib[f].place;
      fib := fib[f := Fiber(Top(Fib(f), Nil), true, p)];
      if t.ctx.Fib? && t.ctx.f < |fib| {
        fib := fib[t.ctx.f := fib[t.ctx.f].(saved := false, place := Running(w))];
      }
      ws := ws[w := ws[w].(cur := t.ctx, pending := t.calls, pc := Free)];
    }

    /** fiber_switch(&thread_fiber) by the worker's loop. */
    method SwitchLoop(w: Wid)
      requires w < |ws|
      modifies this
      ensures Value() == SwitchFromLoop(old(Value()), w)
    {
      var t := ws[w].slot;
      if t.ctx.Fib? && t.ctx.f < |fib| {
        fib := fib[t.ctx.f := fib[t.ctx.f].(saved := false, place := Running(w))];
      }
      ws := ws[w := ws[w].(slot := Top(Loop(w), Nil), cur := t.ctx, pending := t.calls, pc := Free)];
    }

    /** The deferred recycle_fiber_pair. */
    method RecycleFiber(w: Wid, f: Fid)
      requires w < |ws| && ws[w].pending.Push?
      modifies this
      ensures Value() == RecycleCall(old(Value()), w, f)
    {
      ws := ws[w := ws[w].(pending := ws[w].pending.rest)];
      disposed := disposed + [f];
      Move(f, Disposed);
    }

    /** The pending call is taken off the stack to be run. */
    method PopPending(w: Wid)
      requires w < |ws| && ws[w].pending.Push?
      modifies `ws
      ensures Value() == old(Value()).PopCall(w)
    {
      ws := ws[w := ws[w].(pending := ws[w].pending.rest)];
    }

    /** The deferred fjx_spinlock_unlock. */
    method UnlockObject(w: Wid, o: Oid)
      requires w < |ws| && ws[w].pending.Push?
      modifies this
      ensures Value() == UnlockCall(old(Value()), w, o)
    {
      PopPending(w);
      if o < |objs| {
        objs := objs[o := objs[o].(holder := None)];
      }
    }

    /** The deferred enqueue_fiber_pair. */
    method EnqueuePair(w: Wid, f: Fid)
      requires w < |ws| && ws[w].pending.Push?
      modifies this
      ensures Value() == EnqueueCall(old(Value()), w, f)
    {
      PopPending(w);
      Move(f, Held(w));
      SetPc(w, Waking(f));
    }

    /** The deferred timer_add_fiber. */
    method AddTimer(w: Wid, f: Fid, k: nat)
      requires w < |ws| && ws[w].pending.Push?
      modifies this
      ensures Value() == TimerAddCall(old(Value()), w, f, k)
    {
      PopPending(w);
      if objs != [] {
        var l := objs[0].waiters;
        var at := if k <= |l| then k else |l|;
        objs := objs[0 := objs[0].(waiters := l[..at] + [f] + l[at..])];
        Move(f, Waiting(0));
      }
    }

    method RunPending(w: Wid, k: nat)
      requires w < |ws| && ws[w].pc.Free? && ws[w].pending.Push?
      modifies this
      ensures Value() == FreeStep(old(Value()), w, At(k))
    {
      match ws[w].pending.call
      case Unlock(o) => UnlockObject(w, o);
      case Enqueue(f) => EnqueuePair(w, f);
      case TimerAdd(f) => AddTimer(w, f, k);
      case Recycle(f) => RecycleFiber(w, f);
    }

    /** A batch of fibers leaves its list. */
    method TakeAll(w: Wid, fs: seq<Fid>)
      requires w < |ws|
      modifies `fib, `ws
      ensures Value() == old(Value()).PutAll(fs, Batched(w)).Goto(w, Batch(fs, []))
    {
      fib := Value().PutAll(fs, Batched(w)).fib;
      SetPc(w, Batch(fs, []));
    }

    /** The timer thread takes the expired nodes. */
    method ExpireNodes(w: Wid, k: nat)
      requires w < |ws|
      modifies this
      ensures Value() == Expire(old(Value()), w, k)
    {
      if objs != [] {
        var l := objs[0].waiters;
        var n := if k <= |l| then k else |l|;
        objs := objs[0 := objs[0].(waiters := l[n..])];
        TakeAll(w, l[..n]);
      }
    }

    /** The locked region of an operation that has to wait: the lock is kept. */
    method BlockCurrent(w: Wid, f: Fid, o: Oid)
      requires w < |ws|
      modifies this
      ensures Value() == BlockOn(old(Value()), w, f, o)
    {
      if Unlocked(Value(), o) {
        objs := objs[o := Obj(Some(w), objs[o].waiters + [f])];
        Move(f, Waiting(o));
        SetPc(w, Publishing(o));
      }
    }

    /** The locked region of an operation that finds a waiter. */
    method TakeWaiter(w: Wid, o: Oid, f: Fid, switchTo: bool)
      requires w < |ws|
      modifies this
      ensures Value() == PopWaiter(old(Value()), w, o, f, switchTo)
    {
      if Unlocked(Value(), o) && objs[o].waiters != [] {
        var it := objs[o].waiters[0];
        objs := objs[o := Obj(None, objs[o].waiters[1..])];
        Move(it, Held(w));
        if switchTo {
          SetPc(w, Popped(it, Call.Enqueue(f)));
        } else {
          SetPc(w, Waking(it));
        }
      }
    }

    /** The locked region of a close or a destroy. */
    method TakeAllWaiters(w: Wid, o: Oid)
      requires w < |ws|
      modifies this
      ensures Value() == TakeWaiters(old(Value()), w, o)
    {
      if Unlocked(Value(), o) {
        var l := objs[o].waiters;
        objs := objs[o := Obj(None, [])];
        TakeAll(w, l);
      }
    }

    /** get_available_memory, its locked region. */
    method TakeDisposed(w: Wid)
      requires w < |ws|
      modifies this
      ensures Value() == TakeBlock(old(Value()), w)
    {
      if disposed != [] {
        var it := disposed[0];
        disposed := disposed[1..];
        Move(it, Reclaimed);
      }
      SetPc(w, Building);
    }

    /** fiber_spawn, up to the enqueueing. */
    method BuildFiber(w: Wid)
      requires w < |ws|
      modifies this
      ensures Value() == Build(old(Value()), w)
    {
      var f := |fib|;
      fib := fib + [Fiber(Top(Fib(f), Nil), true, Held(w))];
      SetPc(w, Waking(f));
    }

    /** What the code of the current fiber asks for. */
    method RunCode(w: Wid, a: Act)
      requires w < |ws| && ws[w].pc.Free? && ws[w].pending.Nil? && ws[w].cur.Fib?
      modifies this
      ensures Value() == FreeStep(old(Value()), w, a)
    {
      var f := ws[w].cur.f;
      match a
      case Block(o) => BlockCurrent(w, f, o);
      case WakeOne(o) => TakeWaiter(w, o, f, false);
      case Handoff(o) => TakeWaiter(w, o, f, true);
      case WakeAll(o) => TakeAllWaiters(w, o);
      case Yield =>
        if queue != [] {
          GetAvailableFiber(w, Call.Enqueue(f));
        }
      case Sleep => GetAvailableFiber(w, TimerAdd(f));
      case Exit => GetAvailableFiber(w, Recycle(f));
      case Spawn => TakeDisposed(w);
      case At(_) =>
    }

    /** enqueue_fiber_list, its regions, and its slot write. */
    method ServeBatch(w: Wid, fs: seq<Fid>, ths: seq<Wid>)
      requires w < |ws|
      modifies this
      ensures Value() == BatchStep(old(Value()), w, fs, ths)
    {
      if fs == [] && ths == [] {
        SetPc(w, Free);
      } else if fs == [] {
        if queue == [] {
          idle := ths + idle;
          ws := Value().SeatAll(ths, Idle).ws;
          SetPc(w, Free);
        } else {
          var more := queue;
          queue := [];
          fib := Value().PutAll(more, Batched(w)).fib;
          SetPc(w, Batch(more, ths));
        }
      } else if ths == [] {
        if idle == [] {
          queue := queue + fs;
          fib := Value().PutAll(fs, Queued).fib;
          SetPc(w, Free);
        } else {
          var all := idle;
          idle := [];
          ws := Value().SeatAll(all, Stolen(w)).ws;
          SetPc(w, Batch(fs, all));
        }
      } else {
        HandOver(w, fs[0], ths[0], BatchSignal(ths[0], fs[1..], ths[1..]));
      }
    }

    method RunFree(w: Wid, a: Act)
      requires w < |ws| && ws[w].pc.Free?
      modifies this
      ensures Value() == FreeStep(old(Value()), w, a)
    {
      var k := if a.At? then a.k else 0;
      if ws[w].pending.Push? {
        RunPending(w, k);
      } else if ws[w].cur.Loop? {
        if w == TIMER {
          ExpireNodes(w, k);
        } else {
          WorkThreadTurn(w);
        }
      } else {
        RunCode(w, a);
      }
    }

    /** Switches, and the writes of a record before them. */
    method RunSwitch(w: Wid, a: Act)
      requires w < |ws| && (ws[w].pc.Publishing? || ws[w].pc.Popped? || ws[w].pc.ToLoop? || ws[w].pc.Aimed? || ws[w].pc.Awake?)
      modifies this
      ensures Value() == Step(old(Value()), w, a)
    {
      hide SwitchFromLoop, AimAt, SwitchFromFiber;
      match ws[w].pc
      case Awake => SwitchLoop(w);
      case Publishing(o) => AddDeferred(w, ws[w].slot, Call.Unlock(o));
      case Popped(g, call) => AddDeferred(w, Value().TopOf(g), call);
      case ToLoop(call) => AddDeferred(w, ws[w].slot, call);
      case Aimed => SwitchFiber(w);
    }

    /** Slots, semaphores and new fibers. */
    method RunHands(w: Wid, a: Act)
      requires w < |ws| && (ws[w].pc.Parked? || ws[w].pc.LoopPopped? || ws[w].pc.Building? || ws[w].pc.Giving? || ws[w].pc.Signalling?
                            || ws[w].pc.BatchSignal?)
      modifies this
      ensures Value() == Step(old(Value()), w, a)
    {
      hide SemaphoreWait, LoopRead, Build, WriteSlot, SignalThread;
      match ws[w].pc
      case Parked => AwaitSignal(w);
      case LoopPopped(f) => LoadSlot(w, f);
      case Building => BuildFiber(w);
      case Giving(f, th) => HandOver(w, f, th, Signalling(th));
      case Signalling(th) => SignalWorker(w, th, Free);
      case BatchSignal(th, fs, ths) => SignalWorker(w, th, Batch(fs, ths));
    }

    /** What thread `w` does next; what the code of a fiber asks for, it gets. */
    method Advance(w: Wid, a: Act)
      requires Valid() && w < |ws|
      modifies this
      ensures Valid() && Value() == Step(old(Value()), w, a) && |ws| == old(|ws|)
      ensures old(InCode(Value(), w)) ==> J.Obeyed(old(Value()), Value(), w, a, old(ws[w].cur.f))
    {
      ghost var s := Value();
      StepInv(s, w, a);
      if InCode(s, w) {
        J.Obeys(s, w, a);
      }
      Records.SameThreads(Value(), w, a);
      var pc := ws[w].pc;
      if pc.Free? {
        RunFree(w, a);
      } else if pc.Waking? {
        Enqueue(w, pc.f);
      } else if pc.Batch? {
        ServeBatch(w, pc.fs, pc.ths);
      } else if pc.Publishing? || pc.Popped? || pc.ToLoop? || pc.Aimed? || pc.Awake? {
        RunSwitch(w, a);
      } else {
        RunHands(w, a);
      }
      hide Inv, J.Obeyed, FreeStep, SemaphoreWait, SwitchFromLoop, LoopRead, AimAt, SwitchFromFiber, Build, EnqueueRegion, WriteSlot,
        SignalThread, BatchStep;
    }

    /** Any threads in any interleaving, from the start: the fields are those of a reachable
        state, of which everything proved of the machine holds. */
    method Execute(ghost extra: nat, ghost objects: nat, run: seq<Scheduler.Move>)
      requires Valid() && Value() == Init(extra, objects)
      requires forall i :: 0 <= i < |run| ==> run[i].w < extra + 2
      modifies this
      ensures Valid() && Reachable(extra, objects, run, Value())
    {
      assert |Value().ws| == extra + 2;
      hide Inv, Step, Init;
      for i := 0 to |run|
        invariant Valid() && |ws| == extra + 2 && Reachable(extra, objects, run[..i], Value())
      {
        ghost var before := Value();
        assert run[..i + 1][..i] == run[..i];
        Advance(run[i].w, run[i].a);
      }
      assert run[..|run|] == run;
    }
  }
}
