/**
 The M:N scheduler as a step system: src/scheduler.c, src/work-thread.c and the switch
 with deferred callbacks of src/fiber.c.  An agent is an OS thread: agent 0 is the timer
 thread, every other agent a worker.  A step of an agent is one region under the queue
 lock or under the lock of a wait object, or one unlocked write of a record, of a
 worker's slot or of a semaphore, or one stack switch.
 */
module Scheduler {

  type Fid = nat
  type Wid = nat
  type Oid = nat

  /** A call that `fiber_add_deferred` pushes on the stack of the next context. */
  datatype Call =
    | Unlock(o: Oid)
    | Enqueue(f: Fid)
    | TimerAdd(f: Fid)
    | Recycle(f: Fid)

  datatype Calls = Nil | Push(call: Call, rest: Calls)

  /** Whose stack it is: the loop of a worker, or a fiber. */
  datatype Ctx = Loop(w: Wid) | Fib(f: Fid)

  /** A `stack_top` value: a suspended stack, with the calls stacked on it. */
  datatype Top = Top(ctx: Ctx, calls: Calls)

  /** History: where the fiber is. */
  datatype Place =
    | Running(w: Wid)
    | Queued
    | Waiting(o: Oid)
    | Held(owner: Wid)
    | Batched(owner: Wid)
    | Slotted(w: Wid)
    | Calling(w: Wid)
    | Disposed
    | Reclaimed

  /** A `fjx_fiber` record on the fiber's own stack.  `saved` tells whether the stack
      holds a saved context, that is, nobody is executing on it. */
  datatype Fiber = Fiber(top: Top, saved: bool, place: Place)

  /** What an agent does next. */
  datatype Pc =
    | Free                                            // ordinary code
    | Parked                                          // idle: before or in the semaphore wait
    | Awake                                           // before fiber_switch(&thread_fiber)
    | LoopPopped(f: Fid)                              // the loop read a record off the queue
    | Publishing(o: Oid)                              // on the wait list, its lock held
    | Popped(g: Fid, call: Call)                      // will switch to g with a callback
    | ToLoop(call: Call)                              // will switch to the worker's loop
    | Aimed                                           // before fiber_switch(&f)
    | Building                                        // a stack block is at hand for a new fiber
    | Waking(f: Fid)                                  // before enqueue_fiber(f)
    | Giving(f: Fid, th: Wid)                         // th is taken, its slot not written
    | Signalling(th: Wid)                             // slot written, semaphore not signalled
    | Batch(fs: seq<Fid>, ths: seq<Wid>)              // in enqueue_fiber_list
    | BatchSignal(next: Wid, fs: seq<Fid>, ths: seq<Wid>)

  /** History: where the worker is when it has parked. */
  datatype Seat = Busy | Idle | Stolen(owner: Wid) | Filled(owner: Wid) | Signalled

  /** `slot` is `thread_fiber.stack_top`, `sem` the count of the worker's semaphore;
      `pending` are the calls still stacked on the current context. */
  datatype Agent = Agent(cur: Ctx, pending: Calls, pc: Pc, slot: Top, sem: nat, seat: Seat)

  datatype Option<T> = None | Some(value: T)

  /** A mutex, semaphore or channel with its spinlock and wait list; object 0 is the timer. */
  datatype Obj = Obj(holder: Option<Wid>, waiters: seq<Fid>)

  const TIMER: Wid := 0

  datatype State = State(queue: seq<Fid>, idle: seq<Wid>, objs: seq<Obj>, disposed: seq<Fid>,
                         fib: seq<Fiber>, ws: seq<Agent>)
  {
    function TopOf(f: Fid): Top {
      if f < |fib| then fib[f].top else Top(Loop(0), Nil)
    }

    function Put(f: Fid, p: Place): State {
      if f < |fib| then this.(fib := fib[f := fib[f].(place := p)]) else this
    }

    function PutAll(fs: seq<Fid>, p: Place): State {
      this.(fib := seq(|fib|, i requires 0 <= i < |fib| => if i in fs then fib[i].(place := p) else fib[i]))
    }

    function SeatAll(ths: seq<Wid>, x: Seat): State {
      this.(ws := seq(|ws|, i requires 0 <= i < |ws| => if i in ths then ws[i].(seat := x) else ws[i]))
    }

    function Aim(f: Fid, t: Top): State {
      if f < |fib| then this.(fib := fib[f := fib[f].(top := t)]) else this
    }

    function Resume(g: Fid, w: Wid): State {
      if g < |fib| then this.(fib := fib[g := fib[g].(saved := false, place := Running(w))]) else this
    }

    function Goto(w: Wid, p: Pc): State {
      if w < |ws| then this.(ws := ws[w := ws[w].(pc := p)]) else this
    }

    function PopCall(w: Wid): State {
      if w < |ws| && ws[w].pending.Push? then this.(ws := ws[w := ws[w].(pending := ws[w].pending.rest)]) else this
    }

    function FillSlot(th: Wid, t: Top, x: Seat): State {
      if th < |ws| then this.(ws := ws[th := ws[th].(slot := t, seat := x)]) else this
    }

    function Signal(th: Wid): State {
      if th < |ws| then this.(ws := ws[th := ws[th].(sem := ws[th].sem + 1, seat := Signalled)]) else this
    }

    function SetObj(o: Oid, x: Obj): State {
      if o < |objs| then this.(objs := objs[o := x]) else this
    }
  }

  /** What the code that an agent runs asks for next; only consulted in ordinary code. */
  datatype Act =
    | Block(o: Oid)        // lock, semaphore wait, send or receive that has to wait
    | WakeOne(o: Oid)      // unlock or signal that finds a waiter
    | Handoff(o: Oid)      // send or receive that finds a partner
    | WakeAll(o: Oid)      // close and the destroy operations
    | Yield
    | Sleep
    | Exit
    | Spawn
    | At(k: nat)           // timer: how many nodes have expired, or where a node is inserted

  // ---------------------------------------------------------------- steps

  /** enqueue_fiber: the region under the queue lock (src/scheduler.c:152-167). */
  function EnqueueRegion(s: State, w: Wid, f: Fid): State {
    if s.idle != [] then
      s.(idle := s.idle[1..]).SeatAll([s.idle[0]], Stolen(w)).Put(f, Held(w)).Goto(w, Giving(f, s.idle[0]))
    else
      s.(queue := s.queue + [f]).Put(f, Queued).Goto(w, Free)
  }

  function WriteSlot(s: State, w: Wid, f: Fid, th: Wid, next: Pc): State {
    s.FillSlot(th, s.TopOf(f), Filled(w)).Put(f, Slotted(th)).Goto(w, next)
  }

  function SignalThread(s: State, w: Wid, th: Wid, next: Pc): State {
    s.Signal(th).Goto(w, next)
  }

  /** get_available_fiber for a fiber that must leave its worker (src/scheduler.c:52-66). */
  function Leave(s: State, w: Wid, call: Call): State {
    if s.queue == [] then s.Goto(w, ToLoop(call))
    else s.(queue := s.queue[1..]).Put(s.queue[0], Held(w)).Goto(w, Popped(s.queue[0], call))
  }

  /** One turn of work_thread_loop (src/work-thread.c:15-30). */
  function LoopTurn(s: State, w: Wid): State {
    if s.queue == [] then
      s.(idle := s.idle + [w]).SeatAll([w], Idle).Goto(w, Parked)
    else
      s.(queue := s.queue[1..]).Put(s.queue[0], Held(w)).Goto(w, LoopPopped(s.queue[0]))
  }

  function SemaphoreWait(s: State, w: Wid): State
    requires w < |s.ws|
  {
    var me := s.ws[w];
    if me.sem > 0 then s.(ws := s.ws[w := me.(sem := me.sem - 1, seat := Busy, pc := Awake)]) else s
  }

  function LoopRead(s: State, w: Wid, f: Fid): State {
    s.FillSlot(w, s.TopOf(f), Busy).Put(f, Slotted(w)).Goto(w, Awake)
  }

  /** The deferred fjx_spinlock_unlock. */
  function UnlockCall(s: State, w: Wid, o: Oid): State {
    if o < |s.objs| then s.PopCall(w).SetObj(o, s.objs[o].(holder := None)) else s.PopCall(w)
  }

  /** The deferred enqueue_fiber_pair. */
  function EnqueueCall(s: State, w: Wid, f: Fid): State {
    s.PopCall(w).Put(f, Held(w)).Goto(w, Waking(f))
  }

  /** The deferred timer_add_fiber: the node goes in at some place of the sorted list. */
  function TimerAddCall(s: State, w: Wid, f: Fid, k: nat): State {
    if s.objs == [] then s.PopCall(w) else
    var l := s.objs[0].waiters;
    var at := if k <= |l| then k else |l|;
    s.PopCall(w).SetObj(0, s.objs[0].(waiters := l[..at] + [f] + l[at..])).Put(f, Waiting(0))
  }

  /** The deferred recycle_fiber_pair. */
  function RecycleCall(s: State, w: Wid, f: Fid): State {
    s.PopCall(w).(disposed := s.disposed + [f]).Put(f, Disposed)
  }

  /** The timer thread takes the expired prefix and hands it on as a batch. */
  function Expire(s: State, w: Wid, k: nat): State {
    if s.objs == [] then s else
    var l := s.objs[0].waiters;
    var n := if k <= |l| then k else |l|;
    s.SetObj(0, s.objs[0].(waiters := l[n..])).PutAll(l[..n], Batched(w)).Goto(w, Batch(l[..n], []))
  }

  predicate Unlocked(s: State, o: Oid) {
    0 < o < |s.objs| && s.objs[o].holder.None?
  }

  /** Append to the wait list and keep the spinlock. */
  function BlockOn(s: State, w: Wid, f: Fid, o: Oid): State {
    if Unlocked(s, o) then
      s.SetObj(o, Obj(Some(w), s.objs[o].waiters + [f])).Put(f, Waiting(o)).Goto(w, Publishing(o))
    else s
  }

  /** Pop the first waiter: to be enqueued, or to be switched to. */
  function PopWaiter(s: State, w: Wid, o: Oid, f: Fid, switchTo: bool): State {
    if Unlocked(s, o) && s.objs[o].waiters != [] then
      var l := s.objs[o].waiters;
      s.SetObj(o, Obj(None, l[1..])).Put(l[0], Held(w))
      .Goto(w, if switchTo then Popped(l[0], Enqueue(f)) else Waking(l[0]))
    else s
  }

  /** close and destroy take all waiters. */
  function TakeWaiters(s: State, w: Wid, o: Oid): State {
    if Unlocked(s, o) then
      s.SetObj(o, Obj(None, [])).PutAll(s.objs[o].waiters, Batched(w)).Goto(w, Batch(s.objs[o].waiters, []))
    else s
  }

  /** get_available_memory: a block is taken off the disposed list if there is one. */
  function TakeBlock(s: State, w: Wid): State {
    if s.disposed == [] then s.Goto(w, Building)
    else s.(disposed := s.disposed[1..]).Put(s.disposed[0], Reclaimed).Goto(w, Building)
  }

  /** fiber_spawn: the new fiber starts with a context to load already on its stack. */
  function Build(s: State, w: Wid): State {
    s.(fib := s.fib + [Fiber(Top(Fib(|s.fib|), Nil), true, Held(w))]).Goto(w, Waking(|s.fib|))
  }

  /** Point the record of the current fiber at the next context and push the callback. */
  function AimAt(s: State, w: Wid, t: Top, call: Call): State
    requires w < |s.ws|
  {
    if s.ws[w].cur.Loop? then s
    else s.Aim(s.ws[w].cur.f, Top(t.ctx, Push(call, t.calls))).Goto(w, Aimed)
  }

  /** fiber_switch from the worker's loop: the loop's own context is saved in the slot. */
  function SwitchFromLoop(s: State, w: Wid): State
    requires w < |s.ws|
  {
    var t := s.ws[w].slot;
    var s1 := if t.ctx.Fib? then s.Resume(t.ctx.f, w) else s;
    s1.(ws := s.ws[w := s.ws[w].(slot := Top(Loop(w), Nil), cur := t.ctx, pending := t.calls, pc := Free)])
  }

  /** fiber_switch from a fiber: its context is saved in its own record. */
  function SwitchFromFiber(s: State, w: Wid, f: Fid): State
    requires w < |s.ws|
  {
    if f >= |s.fib| then s else
    var t := s.fib[f].top;
    var p := if t.calls.Push? && !t.calls.call.Unlock? then Calling(w) else s.fib[f].place;
    var s1 := s.(fib := s.fib[f := Fiber(Top(Fib(f), Nil), true, p)]);
    var s2 := if t.ctx.Fib? then s1.Resume(t.ctx.f, w) else s1;
    s2.(ws := s.ws[w := s.ws[w].(cur := t.ctx, pending := t.calls, pc := Free)])
  }

  /** enqueue_fiber_list with fibers left but no thread: append, or steal the idle list. */
  function BatchSteal(s: State, w: Wid, fs: seq<Fid>): State {
    if s.idle == [] then
      s.(queue := s.queue + fs).PutAll(fs, Queued).Goto(w, Free)
    else
      s.(idle := []).SeatAll(s.idle, Stolen(w)).Goto(w, Batch(fs, s.idle))
  }

  /** enqueue_fiber_list with threads left but no fiber: give them back, or take the queue. */
  function BatchReturn(s: State, w: Wid, ths: seq<Wid>): State {
    if s.queue == [] then
      s.(idle := ths + s.idle).SeatAll(ths, Idle).Goto(w, Free)
    else
      s.(queue := []).PutAll(s.queue, Batched(w)).Goto(w, Batch(s.queue, ths))
  }

  /** One iteration of enqueue_fiber_list (src/scheduler.c:174-227). */
  function BatchStep(s: State, w: Wid, fs: seq<Fid>, ths: seq<Wid>): State {
    if fs == [] && ths == [] then s.Goto(w, Free)
    else if fs == [] then BatchReturn(s, w, ths)
    else if ths == [] then BatchSteal(s, w, fs)
    else WriteSlot(s, w, fs[0], ths[0], BatchSignal(ths[0], fs[1..], ths[1..]))
  }

  /** Ordinary code: the pending callback, the fiber's next operation, or the loop. */
  function FreeStep(s: State, w: Wid, a: Act): State
    requires w < |s.ws|
  {
    var me := s.ws[w];
    var k := if a.At? then a.k else 0;
    if me.pending.Push? then
      match me.pending.call
      case Unlock(o) => UnlockCall(s, w, o)
      case Enqueue(f) => EnqueueCall(s, w, f)
      case TimerAdd(f) => TimerAddCall(s, w, f, k)
      case Recycle(f) => RecycleCall(s, w, f)
    else if me.cur.Loop? then
      if w == TIMER then Expire(s, w, k) else LoopTurn(s, w)
    else
      match a
      case Block(o) => BlockOn(s, w, me.cur.f, o)
      case WakeOne(o) => PopWaiter(s, w, o, me.cur.f, false)
      case Handoff(o) => PopWaiter(s, w, o, me.cur.f, true)
      case WakeAll(o) => TakeWaiters(s, w, o)
      case Yield => if s.queue == [] then s else Leave(s, w, Enqueue(me.cur.f))
      case Sleep => Leave(s, w, TimerAdd(me.cur.f))
      case Exit => Leave(s, w, Recycle(me.cur.f))
      case Spawn => TakeBlock(s, w)
      case At(_) => s
  }

  /** Agent `w` takes its next step; what cannot proceed leaves the state as it is. */
  function Step(s: State, w: Wid, a: Act): State
    requires w < |s.ws|
  {
    var me := s.ws[w];
    match me.pc
    case Free => FreeStep(s, w, a)
    case Parked => SemaphoreWait(s, w)
    case Awake => SwitchFromLoop(s, w)
    case LoopPopped(f) => LoopRead(s, w, f)
    case Publishing(o) => AimAt(s, w, me.slot, Unlock(o))
    case Popped(g, call) => AimAt(s, w, s.TopOf(g), call)
    case ToLoop(call) => AimAt(s, w, me.slot, call)
    case Aimed => if me.cur.Fib? then SwitchFromFiber(s, w, me.cur.f) else s
    case Building => Build(s, w)
    case Waking(f) => EnqueueRegion(s, w, f)
    case Giving(f, th) => WriteSlot(s, w, f, th, Signalling(th))
    case Signalling(th) => SignalThread(s, w, th, Free)
    case Batch(fs, ths) => BatchStep(s, w, fs, ths)
    case BatchSignal(th, fs, ths) => SignalThread(s, w, th, Batch(fs, ths))
  }

  // ---------------------------------------------------------------- invariant

  ghost predicate ListAt(s: State, q: seq<Fid>, p: Place) {
    && (forall i :: 0 <= i < |q| ==> q[i] < |s.fib| && s.fib[q[i]].place == p)
    && (forall i, j :: 0 <= i < j < |q| ==> q[i] != q[j])
  }

  ghost predicate SeatAt(s: State, q: seq<Wid>, x: Seat) {
    && (forall i :: 0 <= i < |q| ==> q[i] < |s.ws| && s.ws[q[i]].seat == x)
    && (forall i, j :: 0 <= i < j < |q| ==> q[i] != q[j])
  }

  predicate IsAt(s: State, f: Fid, p: Place) {
    f < |s.fib| && s.fib[f].place == p
  }

  /** The callback by which `f` publishes itself. */
  predicate Publishes(c: Call, f: Fid) {
    match c
    case Unlock(_) => false
    case Enqueue(g) => g == f
    case TimerAdd(g) => g == f
    case Recycle(g) => g == f
  }

  predicate PendingOk(s: State, w: Wid) {
    w < |s.ws| &&
    var me := s.ws[w];
    me.pending.Push? ==>
      && me.pc.Free? && me.pending.rest.Nil?
      && match me.pending.call {
           case Unlock(o) => o < |s.objs| && s.objs[o].holder == Some(w)
           case Enqueue(f) => IsAt(s, f, Calling(w))
           case TimerAdd(f) => IsAt(s, f, Calling(w))
           case Recycle(f) => IsAt(s, f, Calling(w))
         }
  }

  predicate SlotFilled(s: State, w: Wid) {
    w < |s.ws| && s.ws[w].slot.ctx.Fib? && s.ws[w].slot.calls.Nil? && IsAt(s, s.ws[w].slot.ctx.f, Slotted(w))
  }

  predicate AimedOk(s: State, w: Wid, f: Fid) {
    f < |s.fib| &&
    var t := s.fib[f].top;
    && t.calls.Push? && t.calls.rest.Nil?
    && (if t.calls.call.Unlock? then
          s.fib[f].place == Waiting(t.calls.call.o) && t.ctx.Loop?
        else
          s.fib[f].place == Running(w) && Publishes(t.calls.call, f))
    && (if t.ctx.Loop? then t.ctx.w == w else IsAt(s, t.ctx.f, Held(w)))
  }

  predicate CurOk(s: State, w: Wid) {
    w < |s.ws| &&
    var me := s.ws[w];
    match me.cur
    case Loop(v) => v == w
    case Fib(f) =>
      && f < |s.fib| && !s.fib[f].saved && me.slot == Top(Loop(w), Nil)
      && match s.fib[f].place {
           case Running(v) => v == w
           case Waiting(o) => o < |s.objs| && s.objs[o].holder == Some(w) && (me.pc.Publishing? || me.pc.Aimed?)
           case _ => false
         }
  }

  ghost predicate PcOk(s: State, w: Wid) {
    w < |s.ws| &&
    var me := s.ws[w];
    match me.pc
    case Free => true
    case Parked => me.cur.Loop?
    case Awake => me.cur.Loop? && SlotFilled(s, w)
    case LoopPopped(f) => me.cur.Loop? && IsAt(s, f, Held(w))
    case Publishing(o) => me.cur.Fib? && IsAt(s, me.cur.f, Waiting(o))
    case Popped(g, call) => me.cur.Fib? && IsAt(s, g, Held(w)) && Publishes(call, me.cur.f) && IsAt(s, me.cur.f, Running(w))
    case ToLoop(call) => me.cur.Fib? && Publishes(call, me.cur.f) && IsAt(s, me.cur.f, Running(w))
    case Aimed => me.cur.Fib? && AimedOk(s, w, me.cur.f)
    case Building => me.cur.Fib?
    case Waking(f) => IsAt(s, f, Held(w))
    case Giving(f, th) => IsAt(s, f, Held(w)) && th < |s.ws| && s.ws[th].seat == Stolen(w)
    case Signalling(th) => th < |s.ws| && s.ws[th].seat == Filled(w)
    case Batch(fs, ths) => ListAt(s, fs, Batched(w)) && SeatAt(s, ths, Stolen(w))
    case BatchSignal(th, fs, ths) =>
      th < |s.ws| && s.ws[th].seat == Filled(w) && ListAt(s, fs, Batched(w)) && SeatAt(s, ths, Stolen(w))
  }

  predicate SeatOk(s: State, w: Wid) {
    w < |s.ws| &&
    var me := s.ws[w];
    && (me.seat.Busy? <==> !me.pc.Parked?)
    && me.sem == (if me.seat.Signalled? then 1 else 0)
    && match me.seat {
         case Busy => true
         case Idle => w in s.idle
         case Stolen(v) => v < |s.ws| && Took(s.ws[v].pc, w)
         case Filled(v) => v < |s.ws| && Wrote(s.ws[v].pc, w) && SlotFilled(s, w)
         case Signalled => SlotFilled(s, w)
       }
  }

  predicate Took(p: Pc, w: Wid) {
    match p
    case Giving(_, th) => th == w
    case Batch(_, ths) => w in ths
    case BatchSignal(_, _, ths) => w in ths
    case _ => false
  }

  predicate Wrote(p: Pc, w: Wid) {
    match p
    case Signalling(th) => th == w
    case BatchSignal(th, _, _) => th == w
    case _ => false
  }

  /** The one fiber an agent has taken off a list and not yet handed on. */
  predicate Holds(s: State, w: Wid, f: Fid) {
    w < |s.ws| &&
    match s.ws[w].pc
    case LoopPopped(g) => g == f
    case Popped(g, _) => g == f
    case Waking(g) => g == f
    case Giving(g, _) => g == f
    case Aimed => s.ws[w].cur.Fib? && s.TopOf(s.ws[w].cur.f).ctx == Fib(f)
    case _ => false
  }

  predicate HasInBatch(p: Pc, f: Fid) {
    match p
    case Batch(fs, _) => f in fs
    case BatchSignal(_, fs, _) => f in fs
    case _ => false
  }

  predicate Saved(s: State, f: Fid) {
    f < |s.fib| && s.fib[f].saved && s.fib[f].top == Top(Fib(f), Nil)
  }

  /** Every fiber is where its history says. */
  predicate FiberOk(s: State, f: Fid) {
    f < |s.fib| &&
    match s.fib[f].place
    case Running(w) => w < |s.ws| && s.ws[w].cur == Fib(f)
    case Queued => f in s.queue && Saved(s, f)
    case Waiting(o) =>
      && o < |s.objs| && f in s.objs[o].waiters
      && (Saved(s, f) || (s.objs[o].holder.Some? && s.objs[o].holder.value < |s.ws| && s.ws[s.objs[o].holder.value].cur == Fib(f)))
    case Held(w) => Holds(s, w, f) && Saved(s, f)
    case Batched(w) => w < |s.ws| && HasInBatch(s.ws[w].pc, f) && Saved(s, f)
    case Slotted(w) =>
      && SlotFilled(s, w) && s.ws[w].slot.ctx.f == f && Saved(s, f)
      && (s.ws[w].seat.Filled? || s.ws[w].seat.Signalled? || s.ws[w].pc.Awake?)
    case Calling(w) => w < |s.ws| && s.ws[w].pending.Push? && Publishes(s.ws[w].pending.call, f) && Saved(s, f)
    case Disposed => f in s.disposed && Saved(s, f)
    case Reclaimed => true
  }

  /** The fiber is in the custody of agent `v`. */
  predicate Mine(p: Place, v: Wid) {
    p == Running(v) || p == Held(v) || p == Batched(v) || p == Slotted(v) || p == Calling(v)
  }

  /** A step of another agent left everything agent `v` relies on as it was. */
  ghost predicate Untouched(s: State, s': State, v: Wid) {
    && v < |s.ws| == |s'.ws|
    && s'.ws[v].cur == s.ws[v].cur && s'.ws[v].pending == s.ws[v].pending && s'.ws[v].pc == s.ws[v].pc
    && (s'.ws[v].slot == s.ws[v].slot || s.ws[v].pc.Parked?)
    && (forall f :: 0 <= f < |s.fib| ==> Mine(s.fib[f].place, v) || s.ws[v].cur == Fib(f) ==>
          f < |s'.fib| && s'.fib[f] == s.fib[f])
    && (forall t :: 0 <= t < |s.ws| ==> s.ws[t].seat == Stolen(v) || s.ws[t].seat == Filled(v) ==>
          s'.ws[t].seat == s.ws[t].seat)
    && (forall o :: 0 <= o < |s.objs| ==> s.objs[o].holder == Some(v) ==>
          o < |s'.objs| && s'.objs[o].holder == Some(v))
  }

  lemma UntouchedIsOk(s: State, s': State, v: Wid)
    requires Untouched(s, s', v) && AgentOk(s, v)
    ensures CurOk(s', v) && PendingOk(s', v) && PcOk(s', v)
  {}

  ghost predicate AgentOk(s: State, w: Wid) {
    CurOk(s, w) && PendingOk(s, w) && PcOk(s, w) && SeatOk(s, w)
  }

  ghost predicate ListsOk(s: State) {
    && s.objs != [] && s.objs[0].holder.None?
    && ListAt(s, s.queue, Queued)
    && ListAt(s, s.disposed, Disposed)
    && SeatAt(s, s.idle, Idle)
    && (s.queue == [] || s.idle == [])
    && (forall o :: 0 <= o < |s.objs| ==> ListAt(s, s.objs[o].waiters, Waiting(o)))
  }

  ghost predicate Inv(s: State) {
    && ListsOk(s)
    && (forall f :: 0 <= f < |s.fib| ==> FiberOk(s, f))
    && (forall w :: 0 <= w < |s.ws| ==> AgentOk(s, w))
  }

  /** What a step by agent `w` has to establish: for itself, for the other agents, for the
      fibers, and for the lists. */
  ghost predicate SelfAfter(s': State, w: Wid) {
    CurOk(s', w) && PendingOk(s', w) && PcOk(s', w)
  }

  ghost predicate SeatsAfter(s: State, s': State) {
    |s'.ws| == |s.ws| && forall v :: 0 <= v < |s.ws| ==> AgentOk(s, v) ==> SeatOk(s', v)
  }

  ghost predicate RestAfter(s: State, s': State, w: Wid) {
    |s'.ws| == |s.ws| && forall v :: 0 <= v < |s.ws| ==> AgentOk(s, v) ==> v != w ==> Untouched(s, s', v)
  }

  ghost predicate OthersAfter(s: State, s': State, w: Wid) {
    SeatsAfter(s, s') && RestAfter(s, s', w)
  }

  ghost predicate AgentsAfter(s: State, s': State, w: Wid) {
    SelfAfter(s', w) && OthersAfter(s, s', w)
  }

  ghost predicate FibersAfter(s: State, s': State) {
    forall f :: 0 <= f < |s'.fib| ==> (f < |s.fib| ==> FiberOk(s, f)) ==> FiberOk(s', f)
  }

  ghost predicate PlacesAfter(s: State, s': State) {
    ListsOk(s') && FibersAfter(s, s')
  }

  lemma FromParts(s: State, s': State, w: Wid)
    requires Inv(s) && AgentsAfter(s, s', w) && PlacesAfter(s, s')
    ensures Inv(s')
  {
    forall v | 0 <= v < |s'.ws|
      ensures AgentOk(s', v)
    {
      assert AgentOk(s, v);
      if v != w {
        UntouchedIsOk(s, s', v);
      }
    }
    forall f | 0 <= f < |s'.fib|
      ensures FiberOk(s', f)
    {
      assert f < |s.fib| ==> FiberOk(s, f);
    }
  }

  /** The invariant holds and agent `w` is about to act.  The comparisons keep the two
      predicates folded wherever this one is assumed. */
  ghost predicate Acts(s: State, w: Wid) {
    Inv(s) == true && AgentOk(s, w) == true
  }

  predicate InCode(s: State, w: Wid) {
    w < |s.ws| && s.ws[w].pc.Free? && s.ws[w].pending.Nil? && s.ws[w].cur.Fib?
  }

  predicate InLoop(s: State, w: Wid) {
    w < |s.ws| && s.ws[w].pc.Free? && s.ws[w].pending.Nil? && s.ws[w].cur.Loop?
  }

  predicate InCall(s: State, w: Wid, call: Call) {
    w < |s.ws| && s.ws[w].pc.Free? && s.ws[w].pending.Push? && s.ws[w].pending.call == call
  }

  lemma Inserted(s: State, q: seq<Fid>, at: nat, f: Fid, p: Place)
    requires ListAt(s, q, p) && at <= |q| && f < |s.fib| && s.fib[f].place != p
    ensures ListAt(s.Put(f, p), q[..at] + [f] + q[at..], p)
  {
    var r := q[..at] + [f] + q[at..];
    forall i | 0 <= i < |r|
      ensures r[i] == if i < at then q[i] else if i == at then f else q[i - 1]
    {}
  }

  lemma Cleaved(s: State, q: seq<Fid>, n: nat, p: Place)
    requires ListAt(s, q, p) && n <= |q|
    ensures ListAt(s, q[..n], p) && ListAt(s, q[n..], p)
    ensures forall f :: f in q ==> (f in q[..n] <==> f !in q[n..])
  {
    forall f | f in q
      ensures f in q[..n] <==> f !in q[n..]
    {
      assert q == q[..n] + q[n..];
    }
  }

  /** Moving the fibers of one list leaves every list of another place as it was. */
  lemma Relabelled(s: State, fs: seq<Fid>, x: Place, to: Place, q: seq<Fid>, p: Place)
    requires ListAt(s, fs, x) && ListAt(s, q, p) && x != p
    ensures ListAt(s.PutAll(fs, to), q, p)
  {
    assert forall i :: 0 <= i < |q| ==> q[i] !in fs;
  }

  // ---------------------------------------------------------------- one step at a time

  lemma UnlockAgents(s: State, w: Wid, o: Oid)
    requires Acts(s, w) && InCall(s, w, Unlock(o))
    ensures AgentsAfter(s, UnlockCall(s, w, o), w)
  {
    hide FiberOk;
  }

  lemma UnlockPlaces(s: State, w: Wid, o: Oid)
    requires Acts(s, w) && InCall(s, w, Unlock(o))
    ensures PlacesAfter(s, UnlockCall(s, w, o))
  {
    hide SeatOk;
  }

  lemma CallAgents(s: State, w: Wid, f: Fid)
    requires Acts(s, w) && InCall(s, w, Enqueue(f))
    ensures AgentsAfter(s, EnqueueCall(s, w, f), w)
  {
    hide FiberOk;
  }

  lemma CallPlaces(s: State, w: Wid, f: Fid)
    requires Acts(s, w) && InCall(s, w, Enqueue(f))
    ensures PlacesAfter(s, EnqueueCall(s, w, f))
  {
    hide SeatOk;
  }

  lemma TimerAddAgents(s: State, w: Wid, f: Fid, k: nat)
    requires Acts(s, w) && InCall(s, w, TimerAdd(f))
    ensures AgentsAfter(s, TimerAddCall(s, w, f, k), w)
  {
    hide FiberOk;
  }

  lemma TimerAddLists(s: State, w: Wid, f: Fid, k: nat)
    requires Acts(s, w) && InCall(s, w, TimerAdd(f))
    ensures ListsOk(TimerAddCall(s, w, f, k))
  {
    assert FiberOk(s, f);
    Inserted(s, s.objs[0].waiters, if k <= |s.objs[0].waiters| then k else |s.objs[0].waiters|, f, Waiting(0));
    hide SeatOk;
  }

  lemma TimerAddFibers(s: State, w: Wid, f: Fid, k: nat)
    requires Acts(s, w) && InCall(s, w, TimerAdd(f))
    ensures FibersAfter(s, TimerAddCall(s, w, f, k))
  {
    assert FiberOk(s, f);
    Inserted(s, s.objs[0].waiters, if k <= |s.objs[0].waiters| then k else |s.objs[0].waiters|, f, Waiting(0));
    hide SeatOk;
  }

  lemma RecycleAgents(s: State, w: Wid, f: Fid)
    requires Acts(s, w) && InCall(s, w, Recycle(f))
    ensures AgentsAfter(s, RecycleCall(s, w, f), w)
  {
    hide FiberOk;
  }

  lemma RecyclePlaces(s: State, w: Wid, f: Fid)
    requires Acts(s, w) && InCall(s, w, Recycle(f))
    ensures PlacesAfter(s, RecycleCall(s, w, f))
  {
    hide SeatOk;
  }

  lemma ExpireAgents(s: State, w: Wid, k: nat)
    requires Acts(s, w) && InLoop(s, w)
    ensures AgentsAfter(s, Expire(s, w, k), w)
  {
    hide FiberOk;
  }

  lemma ExpireLists(s: State, w: Wid, k: nat)
    requires Acts(s, w) && InLoop(s, w)
    ensures ListsOk(Expire(s, w, k))
  {
    var l := s.objs[0].waiters;
    var n := if k <= |l| then k else |l|;
    Cleaved(s, l, n, Waiting(0));
    var s' := Expire(s, w, k);
    ExpireOthers(s, w, k);
    assert ListAt(s', l[n..], Waiting(0));
    forall o | 0 <= o < |s.objs|
      ensures ListAt(s', s'.objs[o].waiters, Waiting(o))
    {}
    hide SeatOk, FiberOk, ListAt;
  }

  /** The lists other than the timer's. */
  lemma ExpireOthers(s: State, w: Wid, k: nat)
    requires Acts(s, w) && InLoop(s, w)
    ensures
      var s' := Expire(s, w, k);
      && ListAt(s', s'.queue, Queued) && ListAt(s', s'.disposed, Disposed) && SeatAt(s', s'.idle, Idle)
      && forall o :: 0 < o < |s.objs| ==> ListAt(s', s'.objs[o].waiters, Waiting(o))
  {
    var l := s.objs[0].waiters;
    var n := if k <= |l| then k else |l|;
    var s1 := s.PutAll(l[..n], Batched(w));
    Cleaved(s, l, n, Waiting(0));
    Relabelled(s, l[..n], Waiting(0), Batched(w), s.queue, Queued);
    Relabelled(s, l[..n], Waiting(0), Batched(w), s.disposed, Disposed);
    forall o | 0 < o < |s.objs|
      ensures ListAt(s1, s.objs[o].waiters, Waiting(o))
    {
      Relabelled(s, l[..n], Waiting(0), Batched(w), s.objs[o].waiters, Waiting(o));
    }
    assert Expire(s, w, k).fib == s1.fib;
    hide SeatOk, FiberOk;
  }

  /** Who waits for the timer is either taken by the expiry or stays; nobody else moves. */
  lemma ExpireFiber(s: State, w: Wid, k: nat, f: Fid)
    requires w < |s.ws| && s.ws[w].pc.Free? && s.objs != [] && s.objs[0].holder.None?
    requires ListAt(s, s.objs[0].waiters, Waiting(0)) && FiberOk(s, f)
    ensures FiberOk(Expire(s, w, k), f)
  {
    var l := s.objs[0].waiters;
    var n := if k <= |l| then k else |l|;
    Cleaved(s, l, n, Waiting(0));
    assert s.fib[f].place == Waiting(0) <==> f in l;
    hide ListAt;
    if f in l[..n] {
      ExpireTakes(s, w, k, f);
    } else {
      ExpireLeaves(s, w, k, f);
    }
  }

  lemma ExpireTakes(s: State, w: Wid, k: nat, f: Fid)
    requires w < |s.ws| && s.ws[w].pc.Free? && s.objs != [] && FiberOk(s, f) && s.fib[f].place == Waiting(0)
    requires s.objs[0].holder.None? && f in s.objs[0].waiters[..if k <= |s.objs[0].waiters| then k else |s.objs[0].waiters|]
    ensures FiberOk(Expire(s, w, k), f)
  {}

  lemma ExpireLeaves(s: State, w: Wid, k: nat, f: Fid)
    requires w < |s.ws| && s.ws[w].pc.Free? && s.objs != [] && FiberOk(s, f)
    requires f !in s.objs[0].waiters[..if k <= |s.objs[0].waiters| then k else |s.objs[0].waiters|]
    requires
      s.fib[f].place == Waiting(0) ==>
        s.objs[0].holder.None? && f in s.objs[0].waiters[if k <= |s.objs[0].waiters| then k else |s.objs[0].waiters|..]
    ensures FiberOk(Expire(s, w, k), f)
  {}

  lemma ExpireFibers(s: State, w: Wid, k: nat)
    requires Acts(s, w) && InLoop(s, w)
    ensures FibersAfter(s, Expire(s, w, k))
  {
    hide AgentOk, FiberOk;
    forall f | 0 <= f < |s.fib| && FiberOk(s, f)
      ensures FiberOk(Expire(s, w, k), f)
    {
      ExpireFiber(s, w, k, f);
    }
  }

  lemma LoopParkAgents(s: State, w: Wid)
    requires Acts(s, w) && InLoop(s, w) && s.queue == []
    ensures AgentsAfter(s, LoopTurn(s, w), w)
  {
    hide FiberOk;
  }

  lemma LoopParkPlaces(s: State, w: Wid)
    requires Acts(s, w) && InLoop(s, w) && s.queue == []
    ensures PlacesAfter(s, LoopTurn(s, w))
  {
    LoopParkLists(s, w);
    LoopParkFibers(s, w);
    hide Acts, ListsOk, FibersAfter;
  }

  lemma LoopParkLists(s: State, w: Wid)
    requires Acts(s, w) && InLoop(s, w) && s.queue == []
    ensures ListsOk(LoopTurn(s, w))
  {}

  lemma LoopParkFibers(s: State, w: Wid)
    requires Acts(s, w) && InLoop(s, w) && s.queue == []
    ensures FibersAfter(s, LoopTurn(s, w))
  {}

  lemma LoopPopAgents(s: State, w: Wid)
    requires Acts(s, w) && InLoop(s, w) && s.queue != []
    ensures AgentsAfter(s, LoopTurn(s, w), w)
  {
    assert FiberOk(s, s.queue[0]);
    hide FiberOk;
  }

  lemma LoopPopPlaces(s: State, w: Wid)
    requires Acts(s, w) && InLoop(s, w) && s.queue != []
    ensures PlacesAfter(s, LoopTurn(s, w))
  {
    assert FiberOk(s, s.queue[0]);
    hide SeatOk;
  }

  lemma BlockAgents(s: State, w: Wid, o: Oid)
    requires Acts(s, w) && InCode(s, w)
    ensures AgentsAfter(s, BlockOn(s, w, s.ws[w].cur.f, o), w)
  {
    hide FiberOk;
  }

  lemma BlockPlaces(s: State, w: Wid, o: Oid)
    requires Acts(s, w) && InCode(s, w)
    ensures PlacesAfter(s, BlockOn(s, w, s.ws[w].cur.f, o))
  {
    hide SeatOk;
  }

  lemma PopWaiterAgents(s: State, w: Wid, o: Oid, switchTo: bool)
    requires Acts(s, w) && InCode(s, w)
    ensures AgentsAfter(s, PopWaiter(s, w, o, s.ws[w].cur.f, switchTo), w)
  {
    hide FiberOk;
  }

  lemma PopWaiterLists(s: State, w: Wid, o: Oid, switchTo: bool)
    requires Acts(s, w) && InCode(s, w)
    ensures ListsOk(PopWaiter(s, w, o, s.ws[w].cur.f, switchTo))
  {
    hide SeatOk;
  }

  lemma PopWaiterFibers(s: State, w: Wid, o: Oid, switchTo: bool)
    requires Acts(s, w) && InCode(s, w)
    ensures FibersAfter(s, PopWaiter(s, w, o, s.ws[w].cur.f, switchTo))
  {
    hide SeatOk;
  }

  lemma TakeWaitersAgents(s: State, w: Wid, o: Oid)
    requires Acts(s, w) && InCode(s, w)
    ensures AgentsAfter(s, TakeWaiters(s, w, o), w)
  {
    hide FiberOk;
  }

  lemma TakeWaitersPlaces(s: State, w: Wid, o: Oid)
    requires Acts(s, w) && InCode(s, w)
    ensures PlacesAfter(s, TakeWaiters(s, w, o))
  {
    hide SeatOk;
  }

  lemma LeaveAgents(s: State, w: Wid, call: Call)
    requires Acts(s, w) && InCode(s, w) && Publishes(call, s.ws[w].cur.f)
    ensures AgentsAfter(s, Leave(s, w, call), w)
  {
    assert s.queue != [] ==> FiberOk(s, s.queue[0]);
    hide FiberOk;
  }

  lemma LeavePlaces(s: State, w: Wid, call: Call)
    requires Acts(s, w) && InCode(s, w) && Publishes(call, s.ws[w].cur.f)
    ensures PlacesAfter(s, Leave(s, w, call))
  {
    LeaveLists(s, w, call);
    LeaveFibers(s, w, call);
    hide Acts, ListsOk, FibersAfter;
  }

  lemma LeaveLists(s: State, w: Wid, call: Call)
    requires Acts(s, w) && InCode(s, w) && Publishes(call, s.ws[w].cur.f)
    ensures ListsOk(Leave(s, w, call))
  {
    assert s.queue != [] ==> FiberOk(s, s.queue[0]);
    hide SeatOk;
  }

  lemma LeaveFibers(s: State, w: Wid, call: Call)
    requires Acts(s, w) && InCode(s, w) && Publishes(call, s.ws[w].cur.f)
    ensures FibersAfter(s, Leave(s, w, call))
  {
    assert s.queue != [] ==> FiberOk(s, s.queue[0]);
    hide SeatOk;
  }

  lemma TakeNothingAgents(s: State, w: Wid)
    requires Acts(s, w) && InCode(s, w) && s.disposed == []
    ensures AgentsAfter(s, TakeBlock(s, w), w)
  {
    hide FiberOk;
  }

  lemma TakeNothingPlaces(s: State, w: Wid)
    requires Acts(s, w) && InCode(s, w) && s.disposed == []
    ensures PlacesAfter(s, TakeBlock(s, w))
  {
    hide SeatOk;
  }

  lemma TakeBlockAgents(s: State, w: Wid)
    requires Acts(s, w) && InCode(s, w) && s.disposed != []
    ensures AgentsAfter(s, TakeBlock(s, w), w)
  {
    assert FiberOk(s, s.disposed[0]);
    hide FiberOk;
  }

  lemma TakeBlockPlaces(s: State, w: Wid)
    requires Acts(s, w) && InCode(s, w) && s.disposed != []
    ensures PlacesAfter(s, TakeBlock(s, w))
  {
    assert FiberOk(s, s.disposed[0]);
    hide SeatOk;
  }

  lemma BuildAgents(s: State, w: Wid)
    requires Acts(s, w) && w < |s.ws| && s.ws[w].pc.Building?
    ensures AgentsAfter(s, Build(s, w), w)
  {
    hide FiberOk;
  }

  lemma BuildPlaces(s: State, w: Wid)
    requires Acts(s, w) && w < |s.ws| && s.ws[w].pc.Building?
    ensures PlacesAfter(s, Build(s, w))
  {
    hide SeatOk;
  }

  lemma WakeupAgents(s: State, w: Wid)
    requires Acts(s, w) && w < |s.ws| && s.ws[w].pc.Parked?
    ensures AgentsAfter(s, SemaphoreWait(s, w), w)
  {
    hide FiberOk;
  }

  lemma WakeupPlaces(s: State, w: Wid)
    requires Acts(s, w) && w < |s.ws| && s.ws[w].pc.Parked?
    ensures PlacesAfter(s, SemaphoreWait(s, w))
  {}

  lemma LoopSwitchAgents(s: State, w: Wid)
    requires Acts(s, w) && w < |s.ws| && s.ws[w].pc.Awake?
    ensures AgentsAfter(s, SwitchFromLoop(s, w), w)
  {
    hide FiberOk;
  }

  lemma LoopSwitchPlaces(s: State, w: Wid)
    requires Acts(s, w) && w < |s.ws| && s.ws[w].pc.Awake?
    ensures PlacesAfter(s, SwitchFromLoop(s, w))
  {
    hide SeatOk;
  }

  lemma LoopReadAgents(s: State, w: Wid, f: Fid)
    requires Acts(s, w) && w < |s.ws| && s.ws[w].pc == LoopPopped(f)
    ensures AgentsAfter(s, LoopRead(s, w, f), w)
  {
    assert FiberOk(s, f);
    hide FiberOk;
  }

  lemma LoopReadPlaces(s: State, w: Wid, f: Fid)
    requires Acts(s, w) && w < |s.ws| && s.ws[w].pc == LoopPopped(f)
    ensures PlacesAfter(s, LoopRead(s, w, f))
  {
    assert FiberOk(s, f);
    hide SeatOk;
  }

  lemma AimLoopAgents(s: State, w: Wid, call: Call)
    requires Acts(s, w) && w < |s.ws| && (s.ws[w].pc == ToLoop(call) || (call.Unlock? && s.ws[w].pc == Publishing(call.o)))
    ensures AgentsAfter(s, AimAt(s, w, s.ws[w].slot, call), w)
  {
    hide FiberOk;
  }

  lemma AimLoopPlaces(s: State, w: Wid, call: Call)
    requires Acts(s, w) && w < |s.ws| && (s.ws[w].pc == ToLoop(call) || (call.Unlock? && s.ws[w].pc == Publishing(call.o)))
    ensures PlacesAfter(s, AimAt(s, w, s.ws[w].slot, call))
  {
    forall f | 0 <= f < |s.fib|
      ensures FiberOk(AimAt(s, w, s.ws[w].slot, call), f)
    {
      assert FiberOk(s, f);
      assert s.fib[f].place.Held? ==> AgentOk(s, s.fib[f].place.owner);
    }
    hide SeatOk;
  }

  lemma AimFiberAgents(s: State, w: Wid, g: Fid, call: Call)
    requires Acts(s, w) && w < |s.ws| && s.ws[w].pc == Popped(g, call)
    ensures AgentsAfter(s, AimAt(s, w, s.TopOf(g), call), w)
  {
    assert FiberOk(s, g);
    hide FiberOk;
  }

  lemma AimFiberPlaces(s: State, w: Wid, g: Fid, call: Call)
    requires Acts(s, w) && w < |s.ws| && s.ws[w].pc == Popped(g, call)
    ensures PlacesAfter(s, AimAt(s, w, s.TopOf(g), call))
  {
    assert FiberOk(s, g);
    forall f | 0 <= f < |s.fib|
      ensures FiberOk(AimAt(s, w, s.TopOf(g), call), f)
    {
      assert FiberOk(s, f);
      assert s.fib[f].place.Held? ==> AgentOk(s, s.fib[f].place.owner);
    }
    hide SeatOk;
  }

  lemma FiberSwitchAgents(s: State, w: Wid)
    requires Acts(s, w) && w < |s.ws| && s.ws[w].pc.Aimed? && s.ws[w].cur.Fib?
    ensures AgentsAfter(s, SwitchFromFiber(s, w, s.ws[w].cur.f), w)
  {
    hide FiberOk;
  }

  lemma FiberSwitchPlaces(s: State, w: Wid)
    requires Acts(s, w) && w < |s.ws| && s.ws[w].pc.Aimed? && s.ws[w].cur.Fib?
    ensures PlacesAfter(s, SwitchFromFiber(s, w, s.ws[w].cur.f))
  {
    FiberSwitchLists(s, w);
    FiberSwitchFibers(s, w);
    hide Acts, ListsOk, FibersAfter;
  }

  lemma FiberSwitchLists(s: State, w: Wid)
    requires Acts(s, w) && w < |s.ws| && s.ws[w].pc.Aimed? && s.ws[w].cur.Fib?
    ensures ListsOk(SwitchFromFiber(s, w, s.ws[w].cur.f))
  {
    hide SeatOk;
  }

  lemma FiberSwitchFibers(s: State, w: Wid)
    requires Acts(s, w) && w < |s.ws| && s.ws[w].pc.Aimed? && s.ws[w].cur.Fib?
    ensures FibersAfter(s, SwitchFromFiber(s, w, s.ws[w].cur.f))
  {
    hide SeatOk;
  }

  lemma EnqIdleAgents(s: State, w: Wid, f: Fid)
    requires Acts(s, w) && w < |s.ws| && s.ws[w].pc == Waking(f) && s.idle != []
    ensures AgentsAfter(s, EnqueueRegion(s, w, f), w)
  {
    EnqIdleSeats(s, w, f);
    EnqIdleRest(s, w, f);
    hide Acts, SelfAfter, SeatsAfter, RestAfter, EnqueueRegion;
  }

  lemma EnqIdleSeats(s: State, w: Wid, f: Fid)
    requires Acts(s, w) && w < |s.ws| && s.ws[w].pc == Waking(f) && s.idle != []
    ensures SelfAfter(EnqueueRegion(s, w, f), w) && SeatsAfter(s, EnqueueRegion(s, w, f))
  {
    assert AgentOk(s, s.idle[0]);
    hide FiberOk;
  }

  lemma EnqIdleRest(s: State, w: Wid, f: Fid)
    requires Acts(s, w) && w < |s.ws| && s.ws[w].pc == Waking(f) && s.idle != []
    ensures RestAfter(s, EnqueueRegion(s, w, f), w)
  {
    assert FiberOk(s, f);
    assert AgentOk(s, s.idle[0]);
    hide FiberOk, SeatOk;
  }

  lemma EnqIdlePlaces(s: State, w: Wid, f: Fid)
    requires Acts(s, w) && w < |s.ws| && s.ws[w].pc == Waking(f) && s.idle != []
    ensures PlacesAfter(s, EnqueueRegion(s, w, f))
  {
    assert FiberOk(s, f);
    assert AgentOk(s, s.idle[0]);
    hide SeatOk;
  }

  lemma EnqQueueAgents(s: State, w: Wid, f: Fid)
    requires Acts(s, w) && w < |s.ws| && s.ws[w].pc == Waking(f) && s.idle == []
    ensures AgentsAfter(s, EnqueueRegion(s, w, f), w)
  {
    assert FiberOk(s, f);
    hide FiberOk;
  }

  lemma EnqQueuePlaces(s: State, w: Wid, f: Fid)
    requires Acts(s, w) && w < |s.ws| && s.ws[w].pc == Waking(f) && s.idle == []
    ensures PlacesAfter(s, EnqueueRegion(s, w, f))
  {
    assert FiberOk(s, f);
    hide SeatOk;
  }

  lemma GiveAgents(s: State, w: Wid, f: Fid, th: Wid)
    requires Acts(s, w) && w < |s.ws| && s.ws[w].pc == Giving(f, th)
    ensures AgentsAfter(s, WriteSlot(s, w, f, th, Signalling(th)), w)
  {
    assert FiberOk(s, f);
    assert AgentOk(s, th);
    hide FiberOk;
  }

  lemma GivePlaces(s: State, w: Wid, f: Fid, th: Wid)
    requires Acts(s, w) && w < |s.ws| && s.ws[w].pc == Giving(f, th)
    ensures PlacesAfter(s, WriteSlot(s, w, f, th, Signalling(th)))
  {
    assert FiberOk(s, f);
    assert AgentOk(s, th);
    hide SeatOk;
  }

  lemma SignalAgents(s: State, w: Wid, th: Wid)
    requires Acts(s, w) && w < |s.ws| && s.ws[w].pc == Signalling(th)
    ensures AgentsAfter(s, SignalThread(s, w, th, Free), w)
  {
    assert AgentOk(s, th);
    hide FiberOk;
  }

  lemma SignalPlaces(s: State, w: Wid, th: Wid)
    requires Acts(s, w) && w < |s.ws| && s.ws[w].pc == Signalling(th)
    ensures PlacesAfter(s, SignalThread(s, w, th, Free))
  {
    assert AgentOk(s, th);
    hide SeatOk;
  }

  lemma BatchSignalAgents(s: State, w: Wid, th: Wid, fs: seq<Fid>, ths: seq<Wid>)
    requires Acts(s, w) && w < |s.ws| && s.ws[w].pc == BatchSignal(th, fs, ths)
    ensures AgentsAfter(s, SignalThread(s, w, th, Batch(fs, ths)), w)
  {
    assert AgentOk(s, th);
    hide FiberOk;
  }

  lemma BatchSignalPlaces(s: State, w: Wid, th: Wid, fs: seq<Fid>, ths: seq<Wid>)
    requires Acts(s, w) && w < |s.ws| && s.ws[w].pc == BatchSignal(th, fs, ths)
    ensures PlacesAfter(s, SignalThread(s, w, th, Batch(fs, ths)))
  {
    assert AgentOk(s, th);
    hide SeatOk;
  }

  lemma BatchMatchAgents(s: State, w: Wid, fs: seq<Fid>, ths: seq<Wid>)
    requires Acts(s, w) && w < |s.ws| && s.ws[w].pc == Batch(fs, ths) && fs != [] && ths != []
    ensures AgentsAfter(s, WriteSlot(s, w, fs[0], ths[0], BatchSignal(ths[0], fs[1..], ths[1..])), w)
  {
    assert FiberOk(s, fs[0]);
    assert AgentOk(s, ths[0]);
    hide FiberOk;
  }

  lemma BatchMatchPlaces(s: State, w: Wid, fs: seq<Fid>, ths: seq<Wid>)
    requires Acts(s, w) && w < |s.ws| && s.ws[w].pc == Batch(fs, ths) && fs != [] && ths != []
    ensures PlacesAfter(s, WriteSlot(s, w, fs[0], ths[0], BatchSignal(ths[0], fs[1..], ths[1..])))
  {
    assert FiberOk(s, fs[0]);
    assert AgentOk(s, ths[0]);
    hide SeatOk;
  }

  lemma BatchDoneAgents(s: State, w: Wid)
    requires Acts(s, w) && w < |s.ws| && s.ws[w].pc == Batch([], [])
    ensures AgentsAfter(s, s.Goto(w, Free), w)
  {
    hide FiberOk;
  }

  lemma BatchDonePlaces(s: State, w: Wid)
    requires Acts(s, w) && w < |s.ws| && s.ws[w].pc == Batch([], [])
    ensures PlacesAfter(s, s.Goto(w, Free))
  {
    hide SeatOk;
  }

  lemma BatchReturnAgents(s: State, w: Wid, ths: seq<Wid>)
    requires Acts(s, w) && w < |s.ws| && s.ws[w].pc == Batch([], ths) && s.queue == []
    ensures AgentsAfter(s, BatchReturn(s, w, ths), w)
  {
    hide FiberOk;
  }

  lemma BatchReturnPlaces(s: State, w: Wid, ths: seq<Wid>)
    requires Acts(s, w) && w < |s.ws| && s.ws[w].pc == Batch([], ths) && s.queue == []
    ensures PlacesAfter(s, BatchReturn(s, w, ths))
  {
    hide SeatOk;
  }

  lemma BatchRefillAgents(s: State, w: Wid, ths: seq<Wid>)
    requires Acts(s, w) && w < |s.ws| && s.ws[w].pc == Batch([], ths) && ths != [] && s.queue != []
    ensures AgentsAfter(s, BatchReturn(s, w, ths), w)
  {
    hide FiberOk;
  }

  lemma BatchRefillPlaces(s: State, w: Wid, ths: seq<Wid>)
    requires Acts(s, w) && w < |s.ws| && s.ws[w].pc == Batch([], ths) && ths != [] && s.queue != []
    ensures PlacesAfter(s, BatchReturn(s, w, ths))
  {
    hide SeatOk;
  }

  lemma BatchAppendAgents(s: State, w: Wid, fs: seq<Fid>)
    requires Acts(s, w) && w < |s.ws| && s.ws[w].pc == Batch(fs, []) && s.idle == []
    ensures AgentsAfter(s, BatchSteal(s, w, fs), w)
  {
    hide FiberOk;
  }

  lemma BatchAppendPlaces(s: State, w: Wid, fs: seq<Fid>)
    requires Acts(s, w) && w < |s.ws| && s.ws[w].pc == Batch(fs, []) && s.idle == []
    ensures PlacesAfter(s, BatchSteal(s, w, fs))
  {
    hide SeatOk;
  }

  lemma BatchStealAgents(s: State, w: Wid, fs: seq<Fid>)
    requires Acts(s, w) && w < |s.ws| && s.ws[w].pc == Batch(fs, []) && fs != [] && s.idle != []
    ensures AgentsAfter(s, BatchSteal(s, w, fs), w)
  {
    hide FiberOk;
  }

  lemma BatchStealPlaces(s: State, w: Wid, fs: seq<Fid>)
    requires Acts(s, w) && w < |s.ws| && s.ws[w].pc == Batch(fs, []) && fs != [] && s.idle != []
    ensures PlacesAfter(s, BatchSteal(s, w, fs))
  {
    hide SeatOk;
  }

  // ---------------------------------------------------------------- all steps

  lemma CallInv(s: State, w: Wid, a: Act)
    requires Acts(s, w) && w < |s.ws| && s.ws[w].pc.Free? && s.ws[w].pending.Push?
    ensures Inv(FreeStep(s, w, a))
  {
    match s.ws[w].pending.call {
      case Unlock(o) => UnlockAgents(s, w, o); UnlockPlaces(s, w, o);
      case Enqueue(f) => CallAgents(s, w, f); CallPlaces(s, w, f);
      case TimerAdd(f) =>
        var k := if a.At? then a.k else 0;
        TimerAddAgents(s, w, f, k); TimerAddLists(s, w, f, k); TimerAddFibers(s, w, f, k);
      case Recycle(f) => RecycleAgents(s, w, f); RecyclePlaces(s, w, f);
    }
    FromParts(s, FreeStep(s, w, a), w);
  }

  lemma LoopInv(s: State, w: Wid, a: Act)
    requires Acts(s, w) && InLoop(s, w)
    ensures Inv(FreeStep(s, w, a))
  {
    if w == TIMER {
      var k := if a.At? then a.k else 0;
      ExpireAgents(s, w, k); ExpireLists(s, w, k); ExpireFibers(s, w, k);
    } else if s.queue == [] {
      LoopParkAgents(s, w); LoopParkPlaces(s, w);
    } else {
      LoopPopAgents(s, w); LoopPopPlaces(s, w);
    }
    FromParts(s, FreeStep(s, w, a), w);
  }

  lemma LeaveInv(s: State, w: Wid, call: Call)
    requires Acts(s, w) && InCode(s, w) && Publishes(call, s.ws[w].cur.f)
    ensures Inv(Leave(s, w, call))
  {
    LeaveAgents(s, w, call); LeavePlaces(s, w, call);
    FromParts(s, Leave(s, w, call), w);
  }

  lemma PopWaiterInv(s: State, w: Wid, o: Oid, switchTo: bool)
    requires Acts(s, w) && InCode(s, w)
    ensures Inv(PopWaiter(s, w, o, s.ws[w].cur.f, switchTo))
  {
    PopWaiterAgents(s, w, o, switchTo); PopWaiterLists(s, w, o, switchTo); PopWaiterFibers(s, w, o, switchTo);
    FromParts(s, PopWaiter(s, w, o, s.ws[w].cur.f, switchTo), w);
  }

  lemma WaitListInv(s: State, w: Wid, o: Oid)
    requires Acts(s, w) && InCode(s, w)
    ensures Inv(BlockOn(s, w, s.ws[w].cur.f, o)) && Inv(TakeWaiters(s, w, o))
  {
    BlockAgents(s, w, o); BlockPlaces(s, w, o);
    FromParts(s, BlockOn(s, w, s.ws[w].cur.f, o), w);
    TakeWaitersAgents(s, w, o); TakeWaitersPlaces(s, w, o);
    FromParts(s, TakeWaiters(s, w, o), w);
  }

  lemma SpawnInv(s: State, w: Wid)
    requires Acts(s, w) && InCode(s, w)
    ensures Inv(TakeBlock(s, w))
  {
    if s.disposed == [] {
      TakeNothingAgents(s, w); TakeNothingPlaces(s, w);
    } else {
      TakeBlockAgents(s, w); TakeBlockPlaces(s, w);
    }
    FromParts(s, TakeBlock(s, w), w);
  }

  lemma FreeInv(s: State, w: Wid, a: Act)
    requires Acts(s, w) && w < |s.ws| && s.ws[w].pc.Free?
    ensures Inv(FreeStep(s, w, a))
  {
    if s.ws[w].pending.Push? {
      CallInv(s, w, a);
    } else if s.ws[w].cur.Loop? {
      LoopInv(s, w, a);
    } else {
      var f := s.ws[w].cur.f;
      match a {
        case Block(o) => WaitListInv(s, w, o);
        case WakeOne(o) => PopWaiterInv(s, w, o, false);
        case Handoff(o) => PopWaiterInv(s, w, o, true);
        case WakeAll(o) => WaitListInv(s, w, o);
        case Yield => LeaveInv(s, w, Enqueue(f));
        case Sleep => LeaveInv(s, w, TimerAdd(f));
        case Exit => LeaveInv(s, w, Recycle(f));
        case Spawn => SpawnInv(s, w);
        case At(_) =>
      }
    }
  }

  lemma EnqueueInv(s: State, w: Wid, f: Fid)
    requires Acts(s, w) && w < |s.ws| && s.ws[w].pc == Waking(f)
    ensures Inv(EnqueueRegion(s, w, f))
  {
    if s.idle == [] {
      EnqQueueAgents(s, w, f); EnqQueuePlaces(s, w, f);
    } else {
      EnqIdleAgents(s, w, f); EnqIdlePlaces(s, w, f);
    }
    FromParts(s, EnqueueRegion(s, w, f), w);
  }

  lemma BatchInv(s: State, w: Wid, fs: seq<Fid>, ths: seq<Wid>)
    requires Acts(s, w) && w < |s.ws| && s.ws[w].pc == Batch(fs, ths)
    ensures Inv(BatchStep(s, w, fs, ths))
  {
    if fs == [] && ths == [] {
      BatchDoneAgents(s, w); BatchDonePlaces(s, w);
    } else if fs == [] && s.queue == [] {
      BatchReturnAgents(s, w, ths); BatchReturnPlaces(s, w, ths);
    } else if fs == [] {
      BatchRefillAgents(s, w, ths); BatchRefillPlaces(s, w, ths);
    } else if ths != [] {
      BatchMatchAgents(s, w, fs, ths); BatchMatchPlaces(s, w, fs, ths);
    } else if s.idle == [] {
      BatchAppendAgents(s, w, fs); BatchAppendPlaces(s, w, fs);
    } else {
      BatchStealAgents(s, w, fs); BatchStealPlaces(s, w, fs);
    }
    FromParts(s, BatchStep(s, w, fs, ths), w);
  }

  lemma SwitchInv(s: State, w: Wid, a: Act)
    requires Acts(s, w) && w < |s.ws|
    requires s.ws[w].pc.Publishing? || s.ws[w].pc.ToLoop? || s.ws[w].pc.Popped? || s.ws[w].pc.Aimed?
    ensures Inv(Step(s, w, a))
  {
    hide Inv, AgentsAfter, PlacesAfter, AimAt, SwitchFromFiber;
    match s.ws[w].pc {
      case Publishing(o) => AimLoopAgents(s, w, Unlock(o)); AimLoopPlaces(s, w, Unlock(o));
      case ToLoop(c) => AimLoopAgents(s, w, c); AimLoopPlaces(s, w, c);
      case Popped(g, c) => AimFiberAgents(s, w, g, c); AimFiberPlaces(s, w, g, c);
      case Aimed => FiberSwitchAgents(s, w); FiberSwitchPlaces(s, w);
    }
    FromParts(s, Step(s, w, a), w);
  }

  lemma HandInv(s: State, w: Wid, a: Act)
    requires Acts(s, w) && w < |s.ws|
    requires s.ws[w].pc.Giving? || s.ws[w].pc.Signalling? || s.ws[w].pc.BatchSignal? || s.ws[w].pc.Building?
    ensures Inv(Step(s, w, a))
  {
    hide Inv, AgentsAfter, PlacesAfter, WriteSlot, SignalThread, Build;
    match s.ws[w].pc {
      case Giving(f, th) => GiveAgents(s, w, f, th); GivePlaces(s, w, f, th);
      case Signalling(th) => SignalAgents(s, w, th); SignalPlaces(s, w, th);
      case BatchSignal(th, fs, ths) => BatchSignalAgents(s, w, th, fs, ths); BatchSignalPlaces(s, w, th, fs, ths);
      case Building => BuildAgents(s, w); BuildPlaces(s, w);
    }
    FromParts(s, Step(s, w, a), w);
  }

  lemma WorkerInv(s: State, w: Wid, a: Act)
    requires Acts(s, w) && w < |s.ws|
    requires s.ws[w].pc.Parked? || s.ws[w].pc.Awake? || s.ws[w].pc.LoopPopped?
    ensures Inv(Step(s, w, a))
  {
    match s.ws[w].pc {
      case Parked => WakeupAgents(s, w); WakeupPlaces(s, w);
      case Awake => LoopSwitchAgents(s, w); LoopSwitchPlaces(s, w);
      case LoopPopped(f) => LoopReadAgents(s, w, f); LoopReadPlaces(s, w, f);
    }
    FromParts(s, Step(s, w, a), w);
  }

  lemma StepInv(s: State, w: Wid, a: Act)
    requires Inv(s) && w < |s.ws|
    ensures Inv(Step(s, w, a))
  {
    assert AgentOk(s, w);
    match s.ws[w].pc {
      case Free => FreeInv(s, w, a);
      case Waking(f) => EnqueueInv(s, w, f);
      case Batch(fs, ths) => BatchInv(s, w, fs, ths);
      case Parked => WorkerInv(s, w, a);
      case Awake => WorkerInv(s, w, a);
      case LoopPopped(_) => WorkerInv(s, w, a);
      case Giving(_, _) => HandInv(s, w, a);
      case Signalling(_) => HandInv(s, w, a);
      case BatchSignal(_, _, _) => HandInv(s, w, a);
      case Building => HandInv(s, w, a);
      case _ => SwitchInv(s, w, a);
    }
  }

  // ---------------------------------------------------------------- runs

  /** After fiber_scheduler_init: the timer thread, the main thread running the main fiber
      with its loop suspended, `extra` further workers, and `objects` wait objects. */
  function Init(extra: nat, objects: nat): State {
    var loop := (w: Wid) => Agent(Loop(w), Nil, Free, Top(Loop(w), Nil), 0, Busy);
    State([], [], seq(objects + 1, _ => Obj(None, [])), [],
          [Fiber(Top(Fib(0), Nil), false, Running(1))],
          seq(extra + 2, w requires 0 <= w => if w == 1 then loop(1).(cur := Fib(0)) else loop(w)))
  }

  lemma InitInv(extra: nat, objects: nat)
    ensures Inv(Init(extra, objects))
  {
    var s := Init(extra, objects);
    forall w | 0 <= w < |s.ws|
      ensures AgentOk(s, w)
    {}
    assert s.ws[1].cur == Fib(0);
  }

  /** One step of a run: who moves, and what its code asks for. */
  datatype Move = Move(w: Wid, a: Act)

  ghost predicate Reachable(extra: nat, objects: nat, run: seq<Move>, s: State)
    decreases |run|
  {
    if run == [] then s == Init(extra, objects) else
    var m := run[|run| - 1];
    exists r: State ::
      Reachable(extra, objects, run[..|run| - 1], r) && m.w < |r.ws| && s == Step(r, m.w, m.a)
  }

  lemma {:induction false} ReachableInv(extra: nat, objects: nat, run: seq<Move>, s: State)
    requires Reachable(extra, objects, run, s)
    ensures Inv(s)
    decreases |run|
  {
    if run == [] {
      InitInv(extra, objects);
    } else {
      var m := run[|run| - 1];
      var r: State :| Reachable(extra, objects, run[..|run| - 1], r) && m.w < |r.ws| && s == Step(r, m.w, m.a);
      ReachableInv(extra, objects, run[..|run| - 1], r);
      StepInv(r, m.w, m.a);
    }
  }

  // ---------------------------------------------------------------- theorems

  /** The fiber is found in the container that the place names.  A fiber that has put
      itself on a wait list under the lock counts as waiting, not as running. */
  predicate FoundAt(s: State, f: Fid, p: Place) {
    match p
    case Running(w) =>
      && w < |s.ws| && s.ws[w].cur == Fib(f) && !s.ws[w].pc.Publishing?
      && !(s.ws[w].pc.Aimed? && s.TopOf(f).calls.Push? && s.TopOf(f).calls.call.Unlock?)
    case Queued => f in s.queue
    case Waiting(o) => o < |s.objs| && f in s.objs[o].waiters
    case Held(w) => Holds(s, w, f)
    case Batched(w) => w < |s.ws| && HasInBatch(s.ws[w].pc, f)
    case Slotted(w) =>
      && w < |s.ws| && s.ws[w].slot.ctx == Fib(f)
      && (s.ws[w].seat.Filled? || s.ws[w].seat.Signalled? || s.ws[w].pc.Awake?)
    case Calling(w) => w < |s.ws| && s.ws[w].pending.Push? && Publishes(s.ws[w].pending.call, f)
    case Disposed => f in s.disposed
    case Reclaimed => false
  }

  /** No fiber is lost, duplicated or run by two workers: in every reachable state a fiber
      is found in exactly one place, unless its block has been reclaimed after its exit;
      and no list holds a fiber twice. */
  lemma ExactlyOnePlace(extra: nat, objects: nat, run: seq<Move>, s: State, f: Fid, p: Place)
    requires Reachable(extra, objects, run, s) && f < |s.fib|
    ensures FoundAt(s, f, p) <==> p == s.fib[f].place && p != Reclaimed
    ensures forall i, j :: 0 <= i < j < |s.queue| ==> s.queue[i] != s.queue[j]
    ensures forall i, j :: 0 <= i < j < |s.disposed| ==> s.disposed[i] != s.disposed[j]
    ensures p.Waiting? && p.o < |s.objs| ==>
              forall i, j :: 0 <= i < j < |s.objs[p.o].waiters| ==> s.objs[p.o].waiters[i] != s.objs[p.o].waiters[j]
  {
    ReachableInv(extra, objects, run, s);
    assert FiberOk(s, f);
    assert p.Waiting? && p.o < |s.objs| ==> ListAt(s, s.objs[p.o].waiters, Waiting(p.o));
    if FoundAt(s, f, p) {
      FoundIsPlace(s, f, p);
    }
    if s.fib[f].place.Running? {
      assert AgentOk(s, s.fib[f].place.w);
    }
  }

  lemma FoundIsPlace(s: State, f: Fid, p: Place)
    requires Inv(s) && f < |s.fib| && FoundAt(s, f, p)
    ensures s.fib[f].place == p
  {
    match p
    case Running(w) => assert AgentOk(s, w);
    case Held(w) => assert AgentOk(s, w);
    case Batched(w) => assert AgentOk(s, w);
    case Slotted(w) => assert AgentOk(s, w);
    case Calling(w) => assert AgentOk(s, w);
    case _ =>
  }

  /** Save before publish: a record that another agent can get at (in the queue, on the
      wait list of an unlocked object, in a batch, in an agent's hands, in a slot, in a
      pending callback, or disposed) already holds its own fully saved context; and the
      only unsaved record on a wait list is the one whose fiber still holds the lock. */
  lemma SaveBeforePublish(extra: nat, objects: nat, run: seq<Move>, s: State, f: Fid, p: Place)
    requires Reachable(extra, objects, run, s) && f < |s.fib| && FoundAt(s, f, p)
    ensures !p.Running? && !(p.Waiting? && s.objs[p.o].holder.Some?) ==> Saved(s, f)
    ensures p.Waiting? && !Saved(s, f) ==>
              s.objs[p.o].holder.Some? && s.objs[p.o].holder.value < |s.ws|
              && s.ws[s.objs[p.o].holder.value].cur == Fib(f)
  {
    ReachableInv(extra, objects, run, s);
    assert FiberOk(s, f);
    FoundIsPlace(s, f, p);
  }

  /** The stack that the worker is about to load. */
  function Target(s: State, w: Wid): Top
    requires w < |s.ws|
  {
    if s.ws[w].pc.Aimed? && s.ws[w].cur.Fib? then s.TopOf(s.ws[w].cur.f) else s.ws[w].slot
  }

  /** Every switch loads a saved context: a suspended fiber, or the worker's own loop. */
  lemma SwitchLoadsSavedContext(extra: nat, objects: nat, run: seq<Move>, s: State, w: Wid)
    requires Reachable(extra, objects, run, s) && w < |s.ws|
    requires s.ws[w].pc.Awake? || s.ws[w].pc.Aimed?
    ensures
      var t := Target(s, w);
      if t.ctx.Fib? then Saved(s, t.ctx.f) && s.ws[w].cur != t.ctx
      else t.ctx == Loop(w) && s.ws[w].cur.Fib? && s.ws[w].slot == Top(Loop(w), Nil)
  {
    ReachableInv(extra, objects, run, s);
    assert AgentOk(s, w);
    var t := Target(s, w);
    if t.ctx.Fib? {
      assert FiberOk(s, t.ctx.f);
    }
  }

  /** Work conservation: ready fibers and idle workers never coexist. */
  lemma WorkConservation(extra: nat, objects: nat, run: seq<Move>, s: State)
    requires Reachable(extra, objects, run, s)
    ensures s.queue == [] || s.idle == []
  {
    ReachableInv(extra, objects, run, s);
  }

  /** Where a worker is found once it has parked, or that it has not parked. */
  predicate SeatedAt(s: State, w: Wid, x: Seat) {
    w < |s.ws| &&
    match x
    case Busy => !s.ws[w].pc.Parked?
    case Idle => w in s.idle
    case Stolen(v) => v < |s.ws| && Took(s.ws[v].pc, w)
    case Filled(v) => v < |s.ws| && Wrote(s.ws[v].pc, w)
    case Signalled => s.ws[w].sem > 0
  }

  /** Every parked worker is idle, in exactly one agent's hands, or signalled; its
      semaphore never counts past one, and once its slot is written it holds a fiber. */
  lemma EveryWorkerSeatedOnce(extra: nat, objects: nat, run: seq<Move>, s: State, w: Wid, x: Seat)
    requires Reachable(extra, objects, run, s) && w < |s.ws|
    ensures SeatedAt(s, w, x) <==> x == s.ws[w].seat
    ensures s.ws[w].sem <= 1
    ensures x == s.ws[w].seat && (x.Filled? || x.Signalled?) ==>
              s.ws[w].slot.ctx.Fib? && FoundAt(s, s.ws[w].slot.ctx.f, Slotted(w))
    ensures forall i, j :: 0 <= i < j < |s.idle| ==> s.idle[i] != s.idle[j]
  {
    ReachableInv(extra, objects, run, s);
    assert AgentOk(s, w);
    match x
    case Stolen(v) => assert v < |s.ws| ==> AgentOk(s, v);
    case Filled(v) => assert v < |s.ws| ==> AgentOk(s, v);
    case _ =>
  }

  function Scribble(s: State, f: Fid, junk: Top): State {
    s.Aim(f, junk)
  }

  /** The record of a fiber has been read for the last time before it is resumed: its
      `stack_top` is in a worker's slot, or in the record of a fiber about to switch to it,
      or the fiber runs; or its block has been reclaimed, and its record read, after its exit. */
  predicate RecordDone(s: State, f: Fid) {
    f < |s.fib| &&
    match s.fib[f].place
    case Running(_) => true
    case Slotted(_) => true
    case Held(v) => v < |s.ws| && s.ws[v].pc.Aimed?
    case Reclaimed => true
    case _ => false
  }

  lemma RecordIsDone(s: State, w: Wid, f: Fid)
    requires Inv(s) && w < |s.ws| && RecordDone(s, f)
    ensures !ReadsOther(s.ws[w].pc, f) && s.ws[w].pc != Waking(f)
    ensures s.ws[w].pending.Push? ==> !Publishes(s.ws[w].pending.call, f)
  {
    assert AgentOk(s, w);
  }

  /** No use after resume: from then on the record may be overwritten, by a call deferred on
      the fiber's stack or by the fiber itself: whatever it holds, the step of every agent
      that is not running that fiber is the same. */
  lemma NoUseAfterResume(extra: nat, objects: nat, run: seq<Move>, s: State, w: Wid, a: Act, f: Fid, junk: Top)
    requires Reachable(extra, objects, run, s) && w < |s.ws| && f < |s.fib|
    requires RecordDone(s, f) && s.ws[w].cur != Fib(f)
    ensures Step(Scribble(s, f, junk), w, a) == Scribble(Step(s, w, a), f, junk)
  {
    ReachableInv(extra, objects, run, s);
    assert AgentOk(s, w);
    ScribbleCommutes(s, w, a, f, junk);
  }

  /** The next access of an agent at `p` reads the record of fiber `f`. */
  predicate ReadsOther(p: Pc, f: Fid) {
    match p
    case LoopPopped(g) => g == f
    case Popped(g, _) => g == f
    case Giving(g, _) => g == f
    case Batch(fs, ths) => fs != [] && ths != [] && fs[0] == f
    case _ => false
  }

  lemma PutAim(s: State, f: Fid, junk: Top, g: Fid, p: Place)
    ensures s.Aim(f, junk).Put(g, p) == s.Put(g, p).Aim(f, junk)
  {
    assert s.Aim(f, junk).Put(g, p).fib == s.Put(g, p).Aim(f, junk).fib;
  }

  lemma PutAllAim(s: State, f: Fid, junk: Top, gs: seq<Fid>, p: Place)
    ensures s.Aim(f, junk).PutAll(gs, p) == s.PutAll(gs, p).Aim(f, junk)
  {
    assert s.Aim(f, junk).PutAll(gs, p).fib == s.PutAll(gs, p).Aim(f, junk).fib;
  }

  lemma CallsCommute(s: State, w: Wid, g: Fid, o: Oid, f: Fid, junk: Top)
    requires w < |s.ws| && f < |s.fib|
    ensures UnlockCall(Scribble(s, f, junk), w, o) == Scribble(UnlockCall(s, w, o), f, junk)
    ensures EnqueueCall(Scribble(s, f, junk), w, g) == Scribble(EnqueueCall(s, w, g), f, junk)
  {
    PutAim(s, f, junk, g, Held(w));
  }

  lemma ListCallsCommute(s: State, w: Wid, g: Fid, k: nat, f: Fid, junk: Top)
    requires w < |s.ws| && f < |s.fib|
    ensures TimerAddCall(Scribble(s, f, junk), w, g, k) == Scribble(TimerAddCall(s, w, g, k), f, junk)
    ensures RecycleCall(Scribble(s, f, junk), w, g) == Scribble(RecycleCall(s, w, g), f, junk)
  {
    PutAim(s, f, junk, g, Waiting(0));
    PutAim(s, f, junk, g, Disposed);
  }

  lemma LoopsCommute(s: State, w: Wid, k: nat, f: Fid, junk: Top)
    requires w < |s.ws| && f < |s.fib| && s.objs != []
    ensures Expire(Scribble(s, f, junk), w, k) == Scribble(Expire(s, w, k), f, junk)
    ensures LoopTurn(Scribble(s, f, junk), w) == Scribble(LoopTurn(s, w), f, junk)
    ensures SwitchFromLoop(Scribble(s, f, junk), w) == Scribble(SwitchFromLoop(s, w), f, junk)
  {
    var l := s.objs[0].waiters;
    PutAllAim(s, f, junk, l[..if k <= |l| then k else |l|], Batched(w));
    if s.queue != [] { PutAim(s, f, junk, s.queue[0], Held(w)); }
    assert SwitchFromLoop(Scribble(s, f, junk), w).fib == Scribble(SwitchFromLoop(s, w), f, junk).fib;
  }

  lemma PopCommutes(s: State, w: Wid, g: Fid, o: Oid, to: bool, f: Fid, junk: Top)
    requires w < |s.ws| && f < |s.fib|
    ensures PopWaiter(Scribble(s, f, junk), w, o, g, to) == Scribble(PopWaiter(s, w, o, g, to), f, junk)
  {
    if Unlocked(s, o) && s.objs[o].waiters != [] {
      PutAim(s, f, junk, s.objs[o].waiters[0], Held(w));
    }
  }

  lemma WaitListCommutes(s: State, w: Wid, g: Fid, o: Oid, f: Fid, junk: Top)
    requires w < |s.ws| && f < |s.fib|
    ensures BlockOn(Scribble(s, f, junk), w, g, o) == Scribble(BlockOn(s, w, g, o), f, junk)
    ensures TakeWaiters(Scribble(s, f, junk), w, o) == Scribble(TakeWaiters(s, w, o), f, junk)
  {
    if Unlocked(s, o) {
      PutAim(s, f, junk, g, Waiting(o));
      PutAllAim(s, f, junk, s.objs[o].waiters, Batched(w));
    }
  }

  lemma LeaveCommutes(s: State, w: Wid, call: Call, f: Fid, junk: Top)
    requires w < |s.ws| && f < |s.fib|
    ensures Leave(Scribble(s, f, junk), w, call) == Scribble(Leave(s, w, call), f, junk)
    ensures TakeBlock(Scribble(s, f, junk), w) == Scribble(TakeBlock(s, w), f, junk)
  {
    if s.queue != [] { PutAim(s, f, junk, s.queue[0], Held(w)); }
    if s.disposed != [] { PutAim(s, f, junk, s.disposed[0], Reclaimed); }
  }

  lemma FreeCommutes(s: State, w: Wid, a: Act, f: Fid, junk: Top)
    requires w < |s.ws| && f < |s.fib| && s.objs != []
    ensures FreeStep(Scribble(s, f, junk), w, a) == Scribble(FreeStep(s, w, a), f, junk)
  {
    hide UnlockCall, EnqueueCall, TimerAddCall, RecycleCall, Expire, LoopTurn, PopWaiter, BlockOn, TakeWaiters, Leave, TakeBlock;
    var me := s.ws[w];
    var k := if a.At? then a.k else 0;
    if me.pending.Push? {
      match me.pending.call
      case Unlock(o) => CallsCommute(s, w, 0, o, f, junk);
      case Enqueue(g) => CallsCommute(s, w, g, 0, f, junk);
      case TimerAdd(g) => ListCallsCommute(s, w, g, k, f, junk);
      case Recycle(g) => ListCallsCommute(s, w, g, k, f, junk);
    } else if me.cur.Loop? {
      LoopsCommute(s, w, k, f, junk);
    } else {
      var o := if a.Block? || a.WakeOne? || a.Handoff? || a.WakeAll? then a.o else 0;
      var call := if a.Sleep? then TimerAdd(me.cur.f) else if a.Exit? then Recycle(me.cur.f) else Enqueue(me.cur.f);
      PopCommutes(s, w, me.cur.f, o, a.Handoff?, f, junk);
      WaitListCommutes(s, w, me.cur.f, o, f, junk);
      LeaveCommutes(s, w, call, f, junk);
    }
  }

  lemma SlotsCommute(s: State, w: Wid, g: Fid, th: Wid, next: Pc, f: Fid, junk: Top)
    requires w < |s.ws| && f < |s.fib| && g != f
    ensures LoopRead(Scribble(s, f, junk), w, g) == Scribble(LoopRead(s, w, g), f, junk)
    ensures WriteSlot(Scribble(s, f, junk), w, g, th, next) == Scribble(WriteSlot(s, w, g, th, next), f, junk)
  {
    PutAim(s, f, junk, g, Slotted(w));
    PutAim(s, f, junk, g, Slotted(th));
  }

  lemma BatchCommutes(s: State, w: Wid, fs: seq<Fid>, ths: seq<Wid>, f: Fid, junk: Top)
    requires w < |s.ws| && f < |s.fib| && !ReadsOther(Batch(fs, ths), f)
    ensures BatchStep(Scribble(s, f, junk), w, fs, ths) == Scribble(BatchStep(s, w, fs, ths), f, junk)
  {
    PutAllAim(s, f, junk, s.queue, Batched(w));
    PutAllAim(s, f, junk, fs, Queued);
    if fs != [] && ths != [] {
      SlotsCommute(s, w, fs[0], ths[0], BatchSignal(ths[0], fs[1..], ths[1..]), f, junk);
    }
  }

  lemma EnqueueCommutes(s: State, w: Wid, g: Fid, f: Fid, junk: Top)
    requires w < |s.ws| && f < |s.fib|
    ensures EnqueueRegion(Scribble(s, f, junk), w, g) == Scribble(EnqueueRegion(s, w, g), f, junk)
    ensures Build(Scribble(s, f, junk), w) == Scribble(Build(s, w), f, junk)
  {
    PutAim(s, f, junk, g, Held(w));
    PutAim(s, f, junk, g, Queued);
    assert Build(Scribble(s, f, junk), w).fib == Scribble(Build(s, w), f, junk).fib;
  }

  lemma SwitchCommutes(s: State, w: Wid, t: Top, call: Call, f: Fid, junk: Top)
    requires w < |s.ws| && f < |s.fib| && s.ws[w].cur != Fib(f)
    ensures AimAt(Scribble(s, f, junk), w, t, call) == Scribble(AimAt(s, w, t, call), f, junk)
    ensures s.ws[w].cur.Fib? ==>
      SwitchFromFiber(Scribble(s, f, junk), w, s.ws[w].cur.f) == Scribble(SwitchFromFiber(s, w, s.ws[w].cur.f), f, junk)
  {
    assert AimAt(Scribble(s, f, junk), w, t, call).fib == Scribble(AimAt(s, w, t, call), f, junk).fib;
    if s.ws[w].cur.Fib? {
      var c := s.ws[w].cur.f;
      assert SwitchFromFiber(Scribble(s, f, junk), w, c).fib == Scribble(SwitchFromFiber(s, w, c), f, junk).fib;
    }
  }

  lemma HandsCommute(s: State, w: Wid, a: Act, f: Fid, junk: Top)
    requires w < |s.ws| && f < |s.fib| && !ReadsOther(s.ws[w].pc, f)
    requires s.ws[w].pc.LoopPopped? || s.ws[w].pc.Building? || s.ws[w].pc.Waking? || s.ws[w].pc.Giving?
    ensures Step(Scribble(s, f, junk), w, a) == Scribble(Step(s, w, a), f, junk)
  {
    hide LoopRead, WriteSlot, EnqueueRegion, Build;
    match s.ws[w].pc
    case LoopPopped(g) => SlotsCommute(s, w, g, 0, Free, f, junk);
    case Building => EnqueueCommutes(s, w, 0, f, junk);
    case Waking(g) => EnqueueCommutes(s, w, g, f, junk);
    case Giving(g, th) => SlotsCommute(s, w, g, th, Signalling(th), f, junk);
  }

  lemma AimsCommute(s: State, w: Wid, a: Act, f: Fid, junk: Top)
    requires w < |s.ws| && f < |s.fib| && !ReadsOther(s.ws[w].pc, f) && s.ws[w].cur != Fib(f)
    requires s.ws[w].pc.Publishing? || s.ws[w].pc.Popped? || s.ws[w].pc.ToLoop? || s.ws[w].pc.Aimed?
    ensures Step(Scribble(s, f, junk), w, a) == Scribble(Step(s, w, a), f, junk)
  {
    match s.ws[w].pc
    case Publishing(o) => SwitchCommutes(s, w, s.ws[w].slot, Unlock(o), f, junk);
    case Popped(g, call) => SwitchCommutes(s, w, s.TopOf(g), call, f, junk);
    case ToLoop(call) => SwitchCommutes(s, w, s.ws[w].slot, call, f, junk);
    case Aimed => SwitchCommutes(s, w, s.ws[w].slot, Unlock(0), f, junk);
  }

  lemma ScribbleCommutes(s: State, w: Wid, a: Act, f: Fid, junk: Top)
    requires w < |s.ws| && f < |s.fib| && s.objs != []
    requires !ReadsOther(s.ws[w].pc, f) && s.ws[w].cur != Fib(f)
    ensures Step(Scribble(s, f, junk), w, a) == Scribble(Step(s, w, a), f, junk)
  {
    match s.ws[w].pc
    case Free => FreeCommutes(s, w, a, f, junk);
    case Parked =>
    case Awake => LoopsCommute(s, w, 0, f, junk);
    case Signalling(_) =>
    case BatchSignal(_, _, _) =>
    case Batch(fs, ths) => BatchCommutes(s, w, fs, ths, f, junk);
    case LoopPopped(_) => HandsCommute(s, w, a, f, junk);
    case Building => HandsCommute(s, w, a, f, junk);
    case Waking(_) => HandsCommute(s, w, a, f, junk);
    case Giving(_, _) => HandsCommute(s, w, a, f, junk);
    case _ => AimsCommute(s, w, a, f, junk);
  }
}
