/**
 Where the fibers of the machine in `Scheduler` go: that each goes where the operation that it
 asked for last sends it and nowhere else, that whoever is on the way arrives after a few
 steps of the one agent that has it, and that the lists are served first in, first out.
 */
module Journeys {
  import opened Scheduler

  /** What each fiber asked for last, as a history. */
  function AskedBy(asked: map<Fid, Act>, f: Fid): Act {
    if f in asked then asked[f] else At(0)
  }

  // ------------------------------------------------------------ where an operation sends a fiber

  /** The call with which a fiber leaves its worker. */
  function CallFor(a: Act, f: Fid): Option<Call> {
    match a
    case Yield => Some(Enqueue(f))
    case Handoff(_) => Some(Enqueue(f))
    case Sleep => Some(TimerAdd(f))
    case Exit => Some(Recycle(f))
    case _ => None
  }

  /** The call that fiber `f`, running on `w`, is about to push on the stack it switches to. */
  function Pushing(s: State, w: Wid, f: Fid): Option<Call> {
    if w >= |s.ws| || s.ws[w].cur != Fib(f) then None else
    match s.ws[w].pc
    case Popped(_, call) => Some(call)
    case ToLoop(call) => Some(call)
    case Aimed => if s.TopOf(f).calls.Push? && !s.TopOf(f).calls.call.Unlock? then Some(s.TopOf(f).calls.call) else None
    case _ => None
  }

  predicate AskOk(s: State, asked: map<Fid, Act>, f: Fid) {
    f < |s.fib| ==>
      var a := AskedBy(asked, f);
      match s.fib[f].place
      case Running(w) =>
        && (Pushing(s, w, f).Some? ==> Pushing(s, w, f) == CallFor(a, f))
        && (a.Exit? ==> Pushing(s, w, f).Some?)
      case Waiting(o) => if o == 0 then a.Sleep? else a == Block(o)
      case Calling(w) => w < |s.ws| && s.ws[w].pending.Push? && Some(s.ws[w].pending.call) == CallFor(a, f)
      case Disposed => a.Exit?
      case Reclaimed => a.Exit?
      case _ => !a.Exit?
  }

  /** `asked` after a step. */
  function After(s: State, asked: map<Fid, Act>, w: Wid, a: Act): map<Fid, Act> {
    if InCode(s, w) then asked[s.ws[w].cur.f := a] else asked
  }

  lemma UnlockAsk(s: State, asked: map<Fid, Act>, w: Wid, o: Oid, f: Fid)
    requires AskOk(s, asked, f) && w < |s.ws| && AgentOk(s, w) && InCall(s, w, Unlock(o))
    ensures AskOk(UnlockCall(s, w, o), asked, f)
  {}

  lemma EnqueueAsk(s: State, asked: map<Fid, Act>, w: Wid, g: Fid, f: Fid)
    requires AskOk(s, asked, f) && w < |s.ws| && AgentOk(s, w) && InCall(s, w, Enqueue(g))
    ensures AskOk(EnqueueCall(s, w, g), asked, f)
  {}

  lemma TimerAddAsk(s: State, asked: map<Fid, Act>, w: Wid, g: Fid, k: nat, f: Fid)
    requires AskOk(s, asked, f) && w < |s.ws| && AgentOk(s, w) && InCall(s, w, TimerAdd(g))
    requires s.objs != []
    ensures AskOk(TimerAddCall(s, w, g, k), asked, f)
  {}

  lemma RecycleAsk(s: State, asked: map<Fid, Act>, w: Wid, g: Fid, f: Fid)
    requires AskOk(s, asked, f) && w < |s.ws| && AgentOk(s, w) && InCall(s, w, Recycle(g))
    ensures AskOk(RecycleCall(s, w, g), asked, f)
  {}

  lemma ExpireAsk(s: State, asked: map<Fid, Act>, w: Wid, k: nat, f: Fid)
    requires AskOk(s, asked, f) && w < |s.ws| && AgentOk(s, w) && InLoop(s, w)
    requires ListsOk(s)
    ensures AskOk(Expire(s, w, k), asked, f)
  {
    assert ListAt(s, s.objs[0].waiters, Waiting(0));
    hide AgentOk;
  }

  lemma LoopTurnAsk(s: State, asked: map<Fid, Act>, w: Wid, f: Fid)
    requires AskOk(s, asked, f) && w < |s.ws| && AgentOk(s, w) && InLoop(s, w)
    requires s.queue != [] ==> IsAt(s, s.queue[0], Queued)
    ensures AskOk(LoopTurn(s, w), asked, f)
  {}

  lemma BlockAsk(s: State, asked: map<Fid, Act>, w: Wid, o: Oid, f: Fid)
    requires AskOk(s, asked, f) && w < |s.ws| && AgentOk(s, w) && InCode(s, w)
    ensures AskOk(BlockOn(s, w, s.ws[w].cur.f, o), asked[s.ws[w].cur.f := Block(o)], f)
  {}

  lemma WakeAllAsk(s: State, asked: map<Fid, Act>, w: Wid, o: Oid, f: Fid)
    requires AskOk(s, asked, f) && w < |s.ws| && AgentOk(s, w) && InCode(s, w)
    requires o < |s.objs| ==> ListAt(s, s.objs[o].waiters, Waiting(o))
    ensures AskOk(TakeWaiters(s, w, o), asked[s.ws[w].cur.f := WakeAll(o)], f)
  {}

  lemma WakeOneAsk(s: State, asked: map<Fid, Act>, w: Wid, o: Oid, f: Fid)
    requires AskOk(s, asked, f) && w < |s.ws| && AgentOk(s, w) && InCode(s, w)
    requires o < |s.objs| && s.objs[o].waiters != [] ==> IsAt(s, s.objs[o].waiters[0], Waiting(o))
    ensures AskOk(PopWaiter(s, w, o, s.ws[w].cur.f, false), asked[s.ws[w].cur.f := WakeOne(o)], f)
  {}

  lemma HandoffAsk(s: State, asked: map<Fid, Act>, w: Wid, o: Oid, f: Fid)
    requires AskOk(s, asked, f) && w < |s.ws| && AgentOk(s, w) && InCode(s, w)
    requires o < |s.objs| && s.objs[o].waiters != [] ==> IsAt(s, s.objs[o].waiters[0], Waiting(o))
    ensures AskOk(PopWaiter(s, w, o, s.ws[w].cur.f, true), asked[s.ws[w].cur.f := Handoff(o)], f)
  {}

  lemma LeaveAsk(s: State, asked: map<Fid, Act>, w: Wid, a: Act, f: Fid)
    requires AskOk(s, asked, f) && w < |s.ws| && AgentOk(s, w) && InCode(s, w) && (a.Yield? || a.Sleep? || a.Exit?)
    requires s.queue != [] ==> IsAt(s, s.queue[0], Queued)
    ensures AskOk(Leave(s, w, CallFor(a, s.ws[w].cur.f).value), asked[s.ws[w].cur.f := a], f)
  {}

  lemma TakeBlockAsk(s: State, asked: map<Fid, Act>, w: Wid, f: Fid)
    requires AskOk(s, asked, f) && w < |s.ws| && AgentOk(s, w) && InCode(s, w)
    requires s.disposed != [] ==> IsAt(s, s.disposed[0], Disposed)
    ensures AskOk(TakeBlock(s, w), asked[s.ws[w].cur.f := Spawn], f)
  {}

  lemma StayAsk(s: State, asked: map<Fid, Act>, w: Wid, a: Act, f: Fid)
    requires AskOk(s, asked, f) && w < |s.ws| && AgentOk(s, w) && InCode(s, w) && !a.Exit?
    ensures AskOk(s, asked[s.ws[w].cur.f := a], f)
  {}

  lemma SemaphoreAsk(s: State, asked: map<Fid, Act>, w: Wid, f: Fid)
    requires AskOk(s, asked, f) && w < |s.ws| && AgentOk(s, w) && s.ws[w].pc.Parked?
    ensures AskOk(SemaphoreWait(s, w), asked, f)
  {}

  lemma SwitchLoopAsk(s: State, asked: map<Fid, Act>, w: Wid, f: Fid)
    requires AskOk(s, asked, f) && w < |s.ws| && AgentOk(s, w) && s.ws[w].pc.Awake?
    ensures AskOk(SwitchFromLoop(s, w), asked, f)
  {}

  lemma LoadAsk(s: State, asked: map<Fid, Act>, w: Wid, g: Fid, f: Fid)
    requires AskOk(s, asked, f) && w < |s.ws| && AgentOk(s, w) && s.ws[w].pc == LoopPopped(g)
    ensures AskOk(LoopRead(s, w, g), asked, f)
  {}

  lemma AimOwnAsk(s: State, asked: map<Fid, Act>, w: Wid, call: Call, f: Fid)
    requires AskOk(s, asked, f) && w < |s.ws| && AgentOk(s, w) && ((s.ws[w].pc.Publishing? && call == Unlock(s.ws[w].pc.o)) || s.ws[w].pc == ToLoop(call))
    ensures AskOk(AimAt(s, w, s.ws[w].slot, call), asked, f)
  {}

  lemma AimFiberAsk(s: State, asked: map<Fid, Act>, w: Wid, g: Fid, call: Call, f: Fid)
    requires AskOk(s, asked, f) && w < |s.ws| && AgentOk(s, w) && s.ws[w].pc == Popped(g, call)
    requires FiberOk(s, g)
    ensures AskOk(AimAt(s, w, s.TopOf(g), call), asked, f)
  {}

  lemma SwitchFiberAsk(s: State, asked: map<Fid, Act>, w: Wid, f: Fid)
    requires AskOk(s, asked, f) && w < |s.ws| && AgentOk(s, w) && s.ws[w].pc.Aimed? && s.ws[w].cur.Fib?
    ensures AskOk(SwitchFromFiber(s, w, s.ws[w].cur.f), asked, f)
  {}

  lemma BuildAsk(s: State, asked: map<Fid, Act>, w: Wid, f: Fid)
    requires AskOk(s, asked, f) && w < |s.ws| && AgentOk(s, w) && s.ws[w].pc.Building?
    requires |s.fib| !in asked
    ensures AskOk(Build(s, w), asked, f)
  {}

  lemma RegionAsk(s: State, asked: map<Fid, Act>, w: Wid, g: Fid, f: Fid)
    requires AskOk(s, asked, f) && w < |s.ws| && AgentOk(s, w) && s.ws[w].pc == Waking(g)
    ensures AskOk(EnqueueRegion(s, w, g), asked, f)
  {}

  lemma GiveAsk(s: State, asked: map<Fid, Act>, w: Wid, g: Fid, th: Wid, f: Fid)
    requires AskOk(s, asked, f) && w < |s.ws| && AgentOk(s, w) && s.ws[w].pc == Giving(g, th)
    ensures AskOk(WriteSlot(s, w, g, th, Signalling(th)), asked, f)
  {}

  lemma SignalAsk(s: State, asked: map<Fid, Act>, w: Wid, th: Wid, next: Pc, f: Fid)
    requires AskOk(s, asked, f) && w < |s.ws| && AgentOk(s, w) && (s.ws[w].pc.Signalling? || s.ws[w].pc.BatchSignal?) && (next.Free? || next.Batch?)
    ensures AskOk(SignalThread(s, w, th, next), asked, f)
  {}

  lemma ReturnAsk(s: State, asked: map<Fid, Act>, w: Wid, ths: seq<Wid>, f: Fid)
    requires AskOk(s, asked, f) && w < |s.ws| && AgentOk(s, w) && s.ws[w].pc == Batch([], ths)
    requires ListsOk(s)
    ensures AskOk(BatchReturn(s, w, ths), asked, f)
  {}

  lemma StealAsk(s: State, asked: map<Fid, Act>, w: Wid, fs: seq<Fid>, f: Fid)
    requires AskOk(s, asked, f) && w < |s.ws| && AgentOk(s, w) && s.ws[w].pc == Batch(fs, [])
    ensures AskOk(BatchSteal(s, w, fs), asked, f)
  {}

  lemma MatchAsk(s: State, asked: map<Fid, Act>, w: Wid, fs: seq<Fid>, ths: seq<Wid>, next: Pc, f: Fid)
    requires AskOk(s, asked, f) && w < |s.ws| && AgentOk(s, w) && s.ws[w].pc == Batch(fs, ths) && fs != [] && ths != [] && next.BatchSignal?
    ensures AskOk(WriteSlot(s, w, fs[0], ths[0], next), asked, f)
  {}

  lemma GotoAsk(s: State, asked: map<Fid, Act>, w: Wid, f: Fid)
    requires AskOk(s, asked, f) && w < |s.ws| && AgentOk(s, w) && !s.ws[w].pc.Popped? && !s.ws[w].pc.ToLoop? && !s.ws[w].pc.Aimed?
    ensures AskOk(s.Goto(w, Free), asked, f)
  {}

  // ------------------------------------------------------------ on the way

  /** Neither running its own code nor on a list: leaving its worker, or in an agent's hands,
      batch, slot or pending callback. */
  predicate InTransit(s: State, f: Fid) {
    f < |s.fib| &&
    match s.fib[f].place
    case Running(w) => Pushing(s, w, f).Some?
    case Held(_) => true
    case Batched(_) => true
    case Slotted(_) => true
    case Calling(_) => true
    case _ => false
  }

  /** The agent whose step brings the fiber on. */
  function Carrier(s: State, f: Fid): Wid {
    if f >= |s.fib| then 0 else
    match s.fib[f].place
    case Running(w) => w
    case Held(w) => w
    case Batched(w) => w
    case Calling(w) => w
    case Slotted(th) => if th < |s.ws| && s.ws[th].seat.Filled? then s.ws[th].seat.owner else th
    case _ => 0
  }

  /** At most so many steps of its carrier are left. */
  function Left(s: State, f: Fid): nat {
    if f >= |s.fib| || Carrier(s, f) >= |s.ws| then 0 else
    var me := s.ws[Carrier(s, f)];
    match s.fib[f].place
    case Running(_) => if me.pc.Aimed? then 7 else 8
    case Calling(_) => if me.pending.Push? && me.pending.call.Enqueue? then 6 else 1
    case Held(_) => if me.pc.Waking? then 5 else if me.pc.Giving? then 4 else if me.pc.Aimed? then 1 else 2
    case Batched(_) =>
      if me.pc.Batch? then 3 * |me.pc.fs| + (if me.pc.ths == [] then 2 else 1)
      else if me.pc.BatchSignal? then 3 * |me.pc.fs| + 3 else 0
    case Slotted(th) => if me.pc.Awake? && Carrier(s, f) == th then 1 else if me.pc.Parked? && Carrier(s, f) == th then 2 else 3
    case _ => 0
  }

  /** The carrier's step brings the fiber nearer or makes it settle; the steps of others leave
      it where it is. */
  predicate Moved(s: State, s': State, w: Wid, f: Fid) {
    InTransit(s, f) ==>
      if Carrier(s, f) == w then !InTransit(s', f) || Left(s', f) < Left(s, f)
      else InTransit(s', f) && Carrier(s', f) == Carrier(s, f) && Left(s', f) == Left(s, f)
  }

  /** How many steps agent `w` is from releasing the lock of `o`, which it took to wait on it. */
  function LockLeft(s: State, w: Wid, o: Oid): nat {
    if w >= |s.ws| then 0 else
    var me := s.ws[w];
    if me.pc == Publishing(o) then 3
    else if me.pc.Aimed? && me.cur.Fib? && s.TopOf(me.cur.f).calls == Push(Unlock(o), Nil) then 2
    else if me.pc.Free? && me.pending == Push(Unlock(o), Nil) then 1
    else 0
  }

  function Holder(s: State, o: Oid): Option<Wid> {
    if o < |s.objs| then s.objs[o].holder else None
  }

  predicate LockOk(s: State, o: Oid) {
    Holder(s, o).Some? ==> LockLeft(s, Holder(s, o).value, o) > 0
  }

  predicate LockMoved(s: State, s': State, w: Wid, o: Oid) {
    LockOk(s, o) ==>
      && LockOk(s', o)
      && (Holder(s, o) == Some(w) ==> Holder(s', o).None? || (Holder(s', o) == Some(w) && LockLeft(s', w, o) < LockLeft(s, w, o)))
      && (Holder(s, o).Some? && Holder(s, o) != Some(w) ==>
            Holder(s', o) == Holder(s, o) && LockLeft(s', Holder(s, o).value, o) == LockLeft(s, Holder(s, o).value, o))
  }

  /** What a step relies on. */
  ghost predicate Facts(s: State, w: Wid, f: Fid, o: Oid) {
    && w < |s.ws| && AgentOk(s, w)
    && (f < |s.fib| ==> FiberOk(s, f))
    && (InTransit(s, f) ==> Carrier(s, f) < |s.ws| && AgentOk(s, Carrier(s, f)))
    && (f < |s.fib| && s.fib[f].place.Slotted? ==> AgentOk(s, s.fib[f].place.w))
    && (Holder(s, o).Some? ==> Holder(s, o).value < |s.ws| && AgentOk(s, Holder(s, o).value))
  }

  lemma UnlockMoves(s: State, w: Wid, p: Oid, f: Fid, o: Oid)
    requires Facts(s, w, f, o) && InCall(s, w, Unlock(p))
    ensures Moved(s, UnlockCall(s, w, p), w, f) && LockMoved(s, UnlockCall(s, w, p), w, o)
  {}

  lemma EnqueueMoves(s: State, w: Wid, g: Fid, f: Fid, o: Oid)
    requires Facts(s, w, f, o) && InCall(s, w, Enqueue(g))
    ensures Moved(s, EnqueueCall(s, w, g), w, f) && LockMoved(s, EnqueueCall(s, w, g), w, o)
  {}

  lemma TimerAddMoves(s: State, w: Wid, g: Fid, k: nat, f: Fid, o: Oid)
    requires Facts(s, w, f, o) && InCall(s, w, TimerAdd(g))
    requires s.objs != []
    ensures Moved(s, TimerAddCall(s, w, g, k), w, f) && LockMoved(s, TimerAddCall(s, w, g, k), w, o)
  {}

  lemma RecycleMoves(s: State, w: Wid, g: Fid, f: Fid, o: Oid)
    requires Facts(s, w, f, o) && InCall(s, w, Recycle(g))
    ensures Moved(s, RecycleCall(s, w, g), w, f) && LockMoved(s, RecycleCall(s, w, g), w, o)
  {}

  lemma ExpireMoves(s: State, w: Wid, k: nat, f: Fid, o: Oid)
    requires Facts(s, w, f, o) && InLoop(s, w)
    requires s.objs != [] && ListAt(s, s.objs[0].waiters, Waiting(0))
    ensures Moved(s, Expire(s, w, k), w, f) && LockMoved(s, Expire(s, w, k), w, o)
  {}

  lemma LoopParkMoves(s: State, w: Wid, f: Fid, o: Oid)
    requires Facts(s, w, f, o) && InLoop(s, w) && s.queue == []
    ensures Moved(s, LoopTurn(s, w), w, f) && LockMoved(s, LoopTurn(s, w), w, o)
  {
    hide CurOk, SlotFilled;
  }

  lemma LoopPopMoves(s: State, w: Wid, f: Fid, o: Oid)
    requires Facts(s, w, f, o) && InLoop(s, w) && s.queue != []
    requires IsAt(s, s.queue[0], Queued)
    ensures Moved(s, LoopTurn(s, w), w, f) && LockMoved(s, LoopTurn(s, w), w, o)
  {}

  lemma BlockMoves(s: State, w: Wid, p: Oid, f: Fid, o: Oid)
    requires Facts(s, w, f, o) && InCode(s, w)
    ensures Moved(s, BlockOn(s, w, s.ws[w].cur.f, p), w, f) && LockMoved(s, BlockOn(s, w, s.ws[w].cur.f, p), w, o)
  {
    hide SlotFilled;
  }

  lemma TakeWaitersMoves(s: State, w: Wid, p: Oid, f: Fid, o: Oid)
    requires Facts(s, w, f, o) && InCode(s, w)
    requires p < |s.objs| ==> ListAt(s, s.objs[p].waiters, Waiting(p))
    ensures Moved(s, TakeWaiters(s, w, p), w, f) && LockMoved(s, TakeWaiters(s, w, p), w, o)
  {}

  lemma PopWaiterMoves(s: State, w: Wid, p: Oid, to: bool, f: Fid, o: Oid)
    requires Facts(s, w, f, o) && InCode(s, w)
    requires p < |s.objs| && s.objs[p].waiters != [] ==> IsAt(s, s.objs[p].waiters[0], Waiting(p))
    ensures Moved(s, PopWaiter(s, w, p, s.ws[w].cur.f, to), w, f) && LockMoved(s, PopWaiter(s, w, p, s.ws[w].cur.f, to), w, o)
  {}

  lemma LeaveMoves(s: State, w: Wid, call: Call, f: Fid, o: Oid)
    requires Facts(s, w, f, o) && InCode(s, w)
    requires s.queue != [] ==> IsAt(s, s.queue[0], Queued)
    ensures Moved(s, Leave(s, w, call), w, f)
  {
    hide SlotFilled;
  }

  lemma LeaveLocks(s: State, w: Wid, call: Call, f: Fid, o: Oid)
    requires Facts(s, w, f, o) && InCode(s, w)
    requires s.queue != [] ==> IsAt(s, s.queue[0], Queued)
    ensures LockMoved(s, Leave(s, w, call), w, o)
  {
    hide SlotFilled, FiberOk;
  }

  lemma TakeBlockMoves(s: State, w: Wid, f: Fid, o: Oid)
    requires Facts(s, w, f, o) && InCode(s, w)
    requires s.disposed != [] ==> IsAt(s, s.disposed[0], Disposed)
    ensures Moved(s, TakeBlock(s, w), w, f)
  {
    hide SlotFilled, PendingOk;
  }

  lemma TakeBlockLocks(s: State, w: Wid, f: Fid, o: Oid)
    requires Facts(s, w, f, o) && InCode(s, w)
    requires s.disposed != [] ==> IsAt(s, s.disposed[0], Disposed)
    ensures LockMoved(s, TakeBlock(s, w), w, o)
  {
    hide SlotFilled, FiberOk;
  }

  lemma SemaphoreMoves(s: State, w: Wid, f: Fid, o: Oid)
    requires Facts(s, w, f, o) && s.ws[w].pc.Parked?
    ensures Moved(s, SemaphoreWait(s, w), w, f) && LockMoved(s, SemaphoreWait(s, w), w, o)
  {}

  lemma SwitchLoopMoves(s: State, w: Wid, f: Fid, o: Oid)
    requires Facts(s, w, f, o) && s.ws[w].pc.Awake?
    ensures Moved(s, SwitchFromLoop(s, w), w, f) && LockMoved(s, SwitchFromLoop(s, w), w, o)
  {}

  lemma LoadMoves(s: State, w: Wid, g: Fid, f: Fid, o: Oid)
    requires Facts(s, w, f, o) && s.ws[w].pc == LoopPopped(g)
    ensures Moved(s, LoopRead(s, w, g), w, f) && LockMoved(s, LoopRead(s, w, g), w, o)
  {}

  lemma AimOwnMoves(s: State, w: Wid, call: Call, f: Fid, o: Oid)
    requires Facts(s, w, f, o) && ((s.ws[w].pc.Publishing? && call == Unlock(s.ws[w].pc.o)) || s.ws[w].pc == ToLoop(call))
    ensures Moved(s, AimAt(s, w, s.ws[w].slot, call), w, f) && LockMoved(s, AimAt(s, w, s.ws[w].slot, call), w, o)
  {
    hide SlotFilled;
  }

  lemma AimFiberMoves(s: State, w: Wid, g: Fid, call: Call, f: Fid, o: Oid)
    requires Facts(s, w, f, o) && s.ws[w].pc == Popped(g, call) && FiberOk(s, g)
    ensures Moved(s, AimAt(s, w, s.TopOf(g), call), w, f) && LockMoved(s, AimAt(s, w, s.TopOf(g), call), w, o)
  {}

  lemma SwitchFiberMoves(s: State, w: Wid, f: Fid, o: Oid)
    requires Facts(s, w, f, o) && s.ws[w].pc.Aimed? && s.ws[w].cur.Fib?
    ensures Moved(s, SwitchFromFiber(s, w, s.ws[w].cur.f), w, f)
  {
    hide SlotFilled;
  }

  lemma SwitchFiberLocks(s: State, w: Wid, f: Fid, o: Oid)
    requires Facts(s, w, f, o) && s.ws[w].pc.Aimed? && s.ws[w].cur.Fib?
    ensures LockMoved(s, SwitchFromFiber(s, w, s.ws[w].cur.f), w, o)
  {
    hide SlotFilled, FiberOk;
  }

  lemma BuildMoves(s: State, w: Wid, f: Fid, o: Oid)
    requires Facts(s, w, f, o) && s.ws[w].pc.Building?
    ensures Moved(s, Build(s, w), w, f) && LockMoved(s, Build(s, w), w, o)
  {}

  lemma RegionIdleMoves(s: State, w: Wid, g: Fid, f: Fid, o: Oid)
    requires Facts(s, w, f, o) && s.ws[w].pc == Waking(g) && s.idle != []
    requires s.idle[0] < |s.ws| && s.ws[s.idle[0]].seat == Idle
    ensures Moved(s, EnqueueRegion(s, w, g), w, f)
  {
    hide CurOk;
  }

  lemma RegionIdleLocks(s: State, w: Wid, g: Fid, f: Fid, o: Oid)
    requires Facts(s, w, f, o) && s.ws[w].pc == Waking(g) && s.idle != []
    ensures LockMoved(s, EnqueueRegion(s, w, g), w, o)
  {
    hide CurOk, FiberOk;
  }

  lemma RegionQueueMoves(s: State, w: Wid, g: Fid, f: Fid, o: Oid)
    requires Facts(s, w, f, o) && s.ws[w].pc == Waking(g) && s.idle == []
    ensures Moved(s, EnqueueRegion(s, w, g), w, f) && LockMoved(s, EnqueueRegion(s, w, g), w, o)
  {
    hide CurOk;
  }

  lemma GiveMoves(s: State, w: Wid, g: Fid, th: Wid, f: Fid, o: Oid)
    requires Facts(s, w, f, o) && s.ws[w].pc == Giving(g, th)
    ensures Moved(s, WriteSlot(s, w, g, th, Signalling(th)), w, f) && LockMoved(s, WriteSlot(s, w, g, th, Signalling(th)), w, o)
  {}

  lemma SignalMoves(s: State, w: Wid, th: Wid, f: Fid, o: Oid)
    requires Facts(s, w, f, o) && s.ws[w].pc == Signalling(th)
    ensures Moved(s, SignalThread(s, w, th, Free), w, f) && LockMoved(s, SignalThread(s, w, th, Free), w, o)
  {
    hide CurOk, SlotFilled;
  }

  lemma BatchSignalMoves(s: State, w: Wid, th: Wid, fs: seq<Fid>, ths: seq<Wid>, f: Fid, o: Oid)
    requires Facts(s, w, f, o) && s.ws[w].pc == BatchSignal(th, fs, ths)
    ensures Moved(s, SignalThread(s, w, th, Batch(fs, ths)), w, f) && LockMoved(s, SignalThread(s, w, th, Batch(fs, ths)), w, o)
  {
    hide CurOk, SlotFilled;
  }

  lemma ReturnMoves(s: State, w: Wid, ths: seq<Wid>, f: Fid, o: Oid)
    requires Facts(s, w, f, o) && s.ws[w].pc == Batch([], ths) && s.queue == []
    ensures Moved(s, BatchReturn(s, w, ths), w, f) && LockMoved(s, BatchReturn(s, w, ths), w, o)
  {
    hide CurOk;
  }

  lemma RefillMoves(s: State, w: Wid, ths: seq<Wid>, f: Fid, o: Oid)
    requires Facts(s, w, f, o) && s.ws[w].pc == Batch([], ths) && s.queue != []
    requires ListAt(s, s.queue, Queued)
    ensures Moved(s, BatchReturn(s, w, ths), w, f) && LockMoved(s, BatchReturn(s, w, ths), w, o)
  {
    hide CurOk;
  }

  lemma AppendMoves(s: State, w: Wid, fs: seq<Fid>, f: Fid, o: Oid)
    requires Facts(s, w, f, o) && s.ws[w].pc == Batch(fs, []) && s.idle == []
    ensures Moved(s, BatchSteal(s, w, fs), w, f) && LockMoved(s, BatchSteal(s, w, fs), w, o)
  {
    hide CurOk;
  }

  lemma StealMoves(s: State, w: Wid, fs: seq<Fid>, f: Fid, o: Oid)
    requires Facts(s, w, f, o) && s.ws[w].pc == Batch(fs, []) && fs != [] && s.idle != []
    requires SeatAt(s, s.idle, Idle)
    ensures Moved(s, BatchSteal(s, w, fs), w, f) && LockMoved(s, BatchSteal(s, w, fs), w, o)
  {
    hide CurOk;
  }

  lemma MatchMoves(s: State, w: Wid, fs: seq<Fid>, ths: seq<Wid>, f: Fid, o: Oid)
    requires Facts(s, w, f, o) && s.ws[w].pc == Batch(fs, ths) && fs != [] && ths != []
    ensures
      var s' := WriteSlot(s, w, fs[0], ths[0], BatchSignal(ths[0], fs[1..], ths[1..]));
      Moved(s, s', w, f) && LockMoved(s, s', w, o)
  {}

  lemma DoneMoves(s: State, w: Wid, f: Fid, o: Oid)
    requires Facts(s, w, f, o) && s.ws[w].pc == Batch([], [])
    ensures Moved(s, s.Goto(w, Free), w, f) && LockMoved(s, s.Goto(w, Free), w, o)
  {}

  // ------------------------------------------------------------ every step

  /** All that a step does for fiber `f` and for the lock of `o`. */
  predicate Goes(s: State, asked: map<Fid, Act>, s': State, asked': map<Fid, Act>, w: Wid, f: Fid, o: Oid) {
    AskOk(s', asked', f) && Moved(s, s', w, f) && LockMoved(s, s', w, o)
  }

  lemma BatchGoes(s: State, asked: map<Fid, Act>, w: Wid, fs: seq<Fid>, ths: seq<Wid>, f: Fid, o: Oid)
    requires Facts(s, w, f, o) && AskOk(s, asked, f) && s.ws[w].pc == Batch(fs, ths) && ListsOk(s)
    ensures Goes(s, asked, BatchStep(s, w, fs, ths), asked, w, f, o)
  {
    assert AgentOk(s, w) && ListAt(s, s.queue, Queued) && SeatAt(s, s.idle, Idle);
    hide AskOk, Moved, LockMoved, AgentOk, ListsOk, ListAt, SeatAt, BatchReturn, BatchSteal, WriteSlot;
    if fs == [] && ths == [] {
      GotoAsk(s, asked, w, f);
      DoneMoves(s, w, f, o);
    } else if fs == [] {
      ReturnAsk(s, asked, w, ths, f);
      if s.queue == [] { ReturnMoves(s, w, ths, f, o); } else { RefillMoves(s, w, ths, f, o); }
    } else if ths == [] {
      StealAsk(s, asked, w, fs, f);
      if s.idle == [] { AppendMoves(s, w, fs, f, o); } else { StealMoves(s, w, fs, f, o); }
    } else {
      MatchAsk(s, asked, w, fs, ths, BatchSignal(ths[0], fs[1..], ths[1..]), f);
      MatchMoves(s, w, fs, ths, f, o);
    }
  }

  lemma WaitGoes(s: State, asked: map<Fid, Act>, w: Wid, p: Oid, f: Fid, o: Oid)
    requires Facts(s, w, f, o) && AskOk(s, asked, f) && InCode(s, w) && ListsOk(s)
    ensures
      var g := s.ws[w].cur.f;
      && Goes(s, asked, BlockOn(s, w, g, p), asked[g := Block(p)], w, f, o)
      && Goes(s, asked, TakeWaiters(s, w, p), asked[g := WakeAll(p)], w, f, o)
      && Goes(s, asked, PopWaiter(s, w, p, g, false), asked[g := WakeOne(p)], w, f, o)
      && Goes(s, asked, PopWaiter(s, w, p, g, true), asked[g := Handoff(p)], w, f, o)
  {
    assert AgentOk(s, w) && (p < |s.objs| ==> ListAt(s, s.objs[p].waiters, Waiting(p)));
    assert p < |s.objs| && s.objs[p].waiters != [] ==> IsAt(s, s.objs[p].waiters[0], Waiting(p));
    hide AskOk, Moved, LockMoved, AgentOk, ListsOk, ListAt, BlockOn, PopWaiter, TakeWaiters;
    BlockAsk(s, asked, w, p, f); BlockMoves(s, w, p, f, o);
    WakeAllAsk(s, asked, w, p, f); TakeWaitersMoves(s, w, p, f, o);
    WakeOneAsk(s, asked, w, p, f); PopWaiterMoves(s, w, p, false, f, o);
    HandoffAsk(s, asked, w, p, f); PopWaiterMoves(s, w, p, true, f, o);
  }

  lemma LeaveGoes(s: State, asked: map<Fid, Act>, w: Wid, a: Act, f: Fid, o: Oid)
    requires Facts(s, w, f, o) && AskOk(s, asked, f) && InCode(s, w) && ListsOk(s) && (a.Yield? || a.Sleep? || a.Exit?)
    ensures Goes(s, asked, Leave(s, w, CallFor(a, s.ws[w].cur.f).value), asked[s.ws[w].cur.f := a], w, f, o)
  {
    assert AgentOk(s, w) && ListAt(s, s.queue, Queued) && (s.queue != [] ==> IsAt(s, s.queue[0], Queued));
    hide AskOk, Moved, LockMoved, AgentOk, ListsOk, ListAt, Leave;
    LeaveAsk(s, asked, w, a, f);
    LeaveMoves(s, w, CallFor(a, s.ws[w].cur.f).value, f, o);
    LeaveLocks(s, w, CallFor(a, s.ws[w].cur.f).value, f, o);
  }

  lemma StayGoes(s: State, asked: map<Fid, Act>, w: Wid, a: Act, f: Fid, o: Oid)
    requires Facts(s, w, f, o) && AskOk(s, asked, f) && InCode(s, w) && !a.Exit?
    ensures Goes(s, asked, s, asked[s.ws[w].cur.f := a], w, f, o)
  {
    assert AgentOk(s, w);
    StayAsk(s, asked, w, a, f);
    hide AskOk;
  }

  lemma CodeGoes(s: State, asked: map<Fid, Act>, w: Wid, a: Act, f: Fid, o: Oid)
    requires Facts(s, w, f, o) && AskOk(s, asked, f) && InCode(s, w) && ListsOk(s)
    ensures Goes(s, asked, FreeStep(s, w, a), asked[s.ws[w].cur.f := a], w, f, o)
  {
    assert AgentOk(s, w) && ListAt(s, s.disposed, Disposed);
    hide Facts, Goes, AskOk, AgentOk, ListsOk, ListAt, BlockOn, PopWaiter, TakeWaiters, Leave, TakeBlock;
    match a
    case Block(p) => WaitGoes(s, asked, w, p, f, o);
    case WakeOne(p) => WaitGoes(s, asked, w, p, f, o);
    case Handoff(p) => WaitGoes(s, asked, w, p, f, o);
    case WakeAll(p) => WaitGoes(s, asked, w, p, f, o);
    case Yield => LeaveGoes(s, asked, w, a, f, o); StayGoes(s, asked, w, a, f, o);
    case Sleep => LeaveGoes(s, asked, w, a, f, o);
    case Exit => LeaveGoes(s, asked, w, a, f, o);
    case Spawn => SpawnGoes(s, asked, w, f, o);
    case At(_) => StayGoes(s, asked, w, a, f, o);
  }

  lemma SpawnGoes(s: State, asked: map<Fid, Act>, w: Wid, f: Fid, o: Oid)
    requires Facts(s, w, f, o) && AskOk(s, asked, f) && InCode(s, w) && ListsOk(s)
    ensures Goes(s, asked, TakeBlock(s, w), asked[s.ws[w].cur.f := Spawn], w, f, o)
  {
    assert AgentOk(s, w) && ListAt(s, s.disposed, Disposed) && (s.disposed != [] ==> IsAt(s, s.disposed[0], Disposed));
    hide AskOk, Moved, LockMoved, AgentOk, ListsOk, ListAt, TakeBlock;
    TakeBlockAsk(s, asked, w, f);
    TakeBlockMoves(s, w, f, o);
    TakeBlockLocks(s, w, f, o);
  }

  lemma CallGoes(s: State, asked: map<Fid, Act>, w: Wid, a: Act, f: Fid, o: Oid)
    requires Facts(s, w, f, o) && AskOk(s, asked, f) && s.ws[w].pc.Free? && s.ws[w].pending.Push? && s.objs != []
    ensures Goes(s, asked, FreeStep(s, w, a), asked, w, f, o)
  {
    var k := if a.At? then a.k else 0;
    assert AgentOk(s, w);
    hide AskOk, Moved, LockMoved, AgentOk, UnlockCall, EnqueueCall, TimerAddCall, RecycleCall;
    match s.ws[w].pending.call
    case Unlock(p) => UnlockAsk(s, asked, w, p, f); UnlockMoves(s, w, p, f, o);
    case Enqueue(g) => EnqueueAsk(s, asked, w, g, f); EnqueueMoves(s, w, g, f, o);
    case TimerAdd(g) => TimerAddAsk(s, asked, w, g, k, f); TimerAddMoves(s, w, g, k, f, o);
    case Recycle(g) => RecycleAsk(s, asked, w, g, f); RecycleMoves(s, w, g, f, o);
  }

  lemma LoopGoes(s: State, asked: map<Fid, Act>, w: Wid, a: Act, f: Fid, o: Oid)
    requires Facts(s, w, f, o) && AskOk(s, asked, f) && InLoop(s, w) && ListsOk(s)
    ensures Goes(s, asked, FreeStep(s, w, a), asked, w, f, o)
  {
    var k := if a.At? then a.k else 0;
    assert AgentOk(s, w) && ListAt(s, s.queue, Queued) && s.objs != [] && ListAt(s, s.objs[0].waiters, Waiting(0));
    assert s.queue != [] ==> IsAt(s, s.queue[0], Queued);
    hide AskOk, Moved, LockMoved, AgentOk, ListsOk, ListAt, Expire, LoopTurn;
    if w == TIMER {
      ExpireAsk(s, asked, w, k, f);
      ExpireMoves(s, w, k, f, o);
    } else {
      LoopTurnAsk(s, asked, w, f);
      if s.queue == [] { LoopParkMoves(s, w, f, o); } else { LoopPopMoves(s, w, f, o); }
    }
  }

  lemma SwitchGoes(s: State, asked: map<Fid, Act>, w: Wid, a: Act, f: Fid, o: Oid)
    requires Facts(s, w, f, o) && AskOk(s, asked, f) && ListsOk(s)
    requires s.ws[w].pc.Publishing? || s.ws[w].pc.ToLoop? || s.ws[w].pc.Popped? || s.ws[w].pc.Aimed?
    requires s.ws[w].pc.Popped? ==> FiberOk(s, s.ws[w].pc.g)
    ensures Goes(s, asked, Step(s, w, a), asked, w, f, o)
  {
    assert AgentOk(s, w) && s.ws[w].cur.Fib?;
    hide AskOk, Moved, LockMoved, AgentOk, ListsOk, AimAt, SwitchFromFiber, FiberOk;
    match s.ws[w].pc
    case Publishing(p) => AimOwnAsk(s, asked, w, Unlock(p), f); AimOwnMoves(s, w, Unlock(p), f, o);
    case ToLoop(call) => AimOwnAsk(s, asked, w, call, f); AimOwnMoves(s, w, call, f, o);
    case Popped(g, call) => AimFiberAsk(s, asked, w, g, call, f); AimFiberMoves(s, w, g, call, f, o);
    case Aimed => SwitchFiberAsk(s, asked, w, f); SwitchFiberMoves(s, w, f, o); SwitchFiberLocks(s, w, f, o);
  }

  lemma WakingGoes(s: State, asked: map<Fid, Act>, w: Wid, g: Fid, f: Fid, o: Oid)
    requires Facts(s, w, f, o) && AskOk(s, asked, f) && ListsOk(s) && s.ws[w].pc == Waking(g)
    ensures Goes(s, asked, EnqueueRegion(s, w, g), asked, w, f, o)
  {
    assert AgentOk(s, w) && SeatAt(s, s.idle, Idle) && (s.idle != [] ==> s.idle[0] < |s.ws| && s.ws[s.idle[0]].seat == Idle);
    hide AskOk, Moved, LockMoved, AgentOk, ListsOk, SeatAt, EnqueueRegion;
    RegionAsk(s, asked, w, g, f);
    if s.idle == [] { RegionQueueMoves(s, w, g, f, o); } else { RegionIdleMoves(s, w, g, f, o); RegionIdleLocks(s, w, g, f, o); }
  }

  lemma HandGoes(s: State, asked: map<Fid, Act>, w: Wid, a: Act, f: Fid, o: Oid)
    requires Facts(s, w, f, o) && AskOk(s, asked, f) && |s.fib| !in asked
    requires s.ws[w].pc.Giving? || s.ws[w].pc.Signalling? || s.ws[w].pc.BatchSignal? || s.ws[w].pc.Building?
    ensures Goes(s, asked, Step(s, w, a), asked, w, f, o)
  {
    assert AgentOk(s, w);
    hide AskOk, Moved, LockMoved, AgentOk, WriteSlot, SignalThread, Build;
    match s.ws[w].pc
    case Giving(g, th) => GiveAsk(s, asked, w, g, th, f); GiveMoves(s, w, g, th, f, o);
    case Signalling(th) => SignalAsk(s, asked, w, th, Free, f); SignalMoves(s, w, th, f, o);
    case BatchSignal(th, fs, ths) => SignalAsk(s, asked, w, th, Batch(fs, ths), f); BatchSignalMoves(s, w, th, fs, ths, f, o);
    case Building => BuildAsk(s, asked, w, f); BuildMoves(s, w, f, o);
  }

  lemma WorkerGoes(s: State, asked: map<Fid, Act>, w: Wid, a: Act, f: Fid, o: Oid)
    requires Facts(s, w, f, o) && AskOk(s, asked, f) && (s.ws[w].pc.Parked? || s.ws[w].pc.Awake? || s.ws[w].pc.LoopPopped?)
    ensures Goes(s, asked, Step(s, w, a), asked, w, f, o)
  {
    assert AgentOk(s, w);
    hide AskOk, Moved, LockMoved, AgentOk, SemaphoreWait, SwitchFromLoop, LoopRead;
    match s.ws[w].pc
    case Parked => SemaphoreAsk(s, asked, w, f); SemaphoreMoves(s, w, f, o);
    case Awake => SwitchLoopAsk(s, asked, w, f); SwitchLoopMoves(s, w, f, o);
    case LoopPopped(g) => LoadAsk(s, asked, w, g, f); LoadMoves(s, w, g, f, o);
  }

  lemma FactsHold(s: State, w: Wid, f: Fid, o: Oid)
    requires Inv(s) && w < |s.ws| && LockOk(s, o)
    ensures Facts(s, w, f, o)
  {
    if f < |s.fib| {
      assert FiberOk(s, f);
      if s.fib[f].place.Slotted? {
        assert AgentOk(s, s.fib[f].place.w);
      }
      if InTransit(s, f) {
        assert Carrier(s, f) < |s.ws| && AgentOk(s, Carrier(s, f));
      }
    }
  }

  /** Every step: what a fiber asked for still fits where it is, a fiber on the way comes nearer
      by each step of its carrier and by nobody else's, and so does the release of a lock. */
  lemma StepGoes(s: State, asked: map<Fid, Act>, w: Wid, a: Act, f: Fid, o: Oid)
    requires AskOk(s, asked, f) && LockOk(s, o) && w < |s.ws| && Inv(s) && |s.fib| !in asked
    ensures Goes(s, asked, Step(s, w, a), After(s, asked, w, a), w, f, o)
  {
    FactsHold(s, w, f, o);
    assert AgentOk(s, w) && (s.ws[w].pc.Popped? ==> FiberOk(s, s.ws[w].pc.g));
    hide Inv, Facts, Goes, AskOk, LockOk, AgentOk, FiberOk, FreeStep, BatchStep, SemaphoreWait, SwitchFromLoop, LoopRead, AimAt,
      SwitchFromFiber, EnqueueRegion, WriteSlot, SignalThread, Build;
    var me := s.ws[w];
    if me.pc.Free? {
      FreeGoes(s, asked, w, a, f, o);
    } else if me.pc.Batch? {
      BatchGoes(s, asked, w, me.pc.fs, me.pc.ths, f, o);
    } else if me.pc.Waking? {
      WakingGoes(s, asked, w, me.pc.f, f, o);
    } else if me.pc.Parked? || me.pc.Awake? || me.pc.LoopPopped? {
      WorkerGoes(s, asked, w, a, f, o);
    } else if me.pc.Publishing? || me.pc.ToLoop? || me.pc.Popped? || me.pc.Aimed? {
      SwitchGoes(s, asked, w, a, f, o);
    } else {
      HandGoes(s, asked, w, a, f, o);
    }
  }

  lemma FreeGoes(s: State, asked: map<Fid, Act>, w: Wid, a: Act, f: Fid, o: Oid)
    requires Facts(s, w, f, o) && AskOk(s, asked, f) && s.ws[w].pc.Free? && ListsOk(s)
    ensures Goes(s, asked, FreeStep(s, w, a), After(s, asked, w, a), w, f, o)
  {
    assert s.objs != [];
    hide Facts, Goes, AskOk, ListsOk, FreeStep;
    if s.ws[w].pending.Push? {
      CallGoes(s, asked, w, a, f, o);
    } else if s.ws[w].cur.Loop? {
      LoopGoes(s, asked, w, a, f, o);
    } else {
      CodeGoes(s, asked, w, a, f, o);
    }
  }

  // ------------------------------------------------------------ over every run

  datatype Past = Past(s: State, asked: map<Fid, Act>)

  function Next(p: Past, m: Move): Past {
    if m.w < |p.s.ws| then Past(Step(p.s, m.w, m.a), After(p.s, p.asked, m.w, m.a)) else p
  }

  /** The run with its history. */
  function History(extra: nat, objects: nat, run: seq<Move>): Past {
    if run == [] then Past(Init(extra, objects), map[])
    else Next(History(extra, objects, run[..|run| - 1]), run[|run| - 1])
  }

  ghost predicate PastOk(p: Past) {
    && Inv(p.s) && (forall f :: AskOk(p.s, p.asked, f)) && (forall o :: LockOk(p.s, o))
    && forall f :: f in p.asked ==> f < |p.s.fib|
  }

  lemma FibersStay(s: State, w: Wid, a: Act)
    requires w < |s.ws|
    ensures |Step(s, w, a).fib| >= |s.fib|
  {
    match s.ws[w].pc
    case Free => FreeFibersStay(s, w, a);
    case Batch(fs, ths) => hide FreeStep;
    case _ => hide FreeStep, BatchStep;
  }

  lemma FreeFibersStay(s: State, w: Wid, a: Act)
    requires w < |s.ws|
    ensures |FreeStep(s, w, a).fib| == |s.fib|
  {}

  lemma NextOk(p: Past, m: Move)
    requires PastOk(p)
    ensures PastOk(Next(p, m))
  {
    if m.w < |p.s.ws| {
      var q := Next(p, m);
      StepInv(p.s, m.w, m.a);
      FibersStay(p.s, m.w, m.a);
      assert AgentOk(p.s, m.w);
      assert InCode(p.s, m.w) ==> p.s.ws[m.w].cur.f < |p.s.fib|;
      hide Inv, AskOk, LockOk, AgentOk, Step, Moved, LockMoved;
      forall f: Fid
        ensures AskOk(q.s, q.asked, f)
      {
        StepGoes(p.s, p.asked, m.w, m.a, f, 0);
      }
      forall o: Oid
        ensures LockOk(q.s, o)
      {
        StepGoes(p.s, p.asked, m.w, m.a, 0, o);
        LockGoesOn(p.s, q.s, m.w, o);
      }
    }
  }

  lemma LockGoesOn(s: State, s': State, w: Wid, o: Oid)
    requires LockMoved(s, s', w, o) && LockOk(s, o)
    ensures LockOk(s', o)
  {}

  lemma InitOk(extra: nat, objects: nat)
    ensures PastOk(Past(Init(extra, objects), map[]))
  {
    InitInv(extra, objects);
    hide Inv;
  }

  lemma {:induction false} HistoryOk(extra: nat, objects: nat, run: seq<Move>)
    ensures PastOk(History(extra, objects, run))
  {
    hide PastOk, Next, Init;
    InitOk(extra, objects);
    if run != [] {
      HistoryOk(extra, objects, run[..|run| - 1]);
      NextOk(History(extra, objects, run[..|run| - 1]), run[|run| - 1]);
    }
  }

  /** The runs with histories are the runs. */
  lemma {:induction false} HistoryIsTheRun(extra: nat, objects: nat, run: seq<Move>, s: State)
    requires Reachable(extra, objects, run, s)
    ensures History(extra, objects, run).s == s
    decreases |run|
  {
    if run != [] {
      var m := run[|run| - 1];
      var r: State :| Reachable(extra, objects, run[..|run| - 1], r) && m.w < |r.ws| && s == Step(r, m.w, m.a);
      HistoryIsTheRun(extra, objects, run[..|run| - 1], r);
    }
  }

  /** The callback that is pending on agent `w`. */
  function Callback(s: State, w: Wid): Option<Call> {
    if w < |s.ws| && s.ws[w].pending.Push? then Some(s.ws[w].pending.call) else None
  }

  /** A fiber goes where it asked to go and nowhere else.  In every run it has asked to exit
      exactly when it is leaving for good, about to be disposed of, disposed of, or its block
      reclaimed; who is in the timer asked to sleep, and who waits for something asked for that;
      and who asked to yield and is not on the way any more is queued or runs. */
  lemma GoesWhereItAsked(extra: nat, objects: nat, run: seq<Move>, s: State, f: Fid)
    requires Reachable(extra, objects, run, s) && f < |s.fib|
    ensures
      var a, p := AskedBy(History(extra, objects, run).asked, f), s.fib[f].place;
      && (a.Exit? <==> p.Disposed? || p.Reclaimed? || (p.Calling? && Callback(s, p.w) == Some(Recycle(f)))
                       || (p.Running? && Pushing(s, p.w, f) == Some(Recycle(f))))
      && (p == Waiting(0) ==> a.Sleep?)
      && (p.Waiting? && p.o != 0 ==> a == Block(p.o))
      && (a.Yield? || a.Handoff? ==> InTransit(s, f) || p.Queued? || p.Running?)
  {
    HistoryIsTheRun(extra, objects, run, s);
    HistoryOk(extra, objects, run);
    assert AskOk(s, History(extra, objects, run).asked, f) && FiberOk(s, f);
    hide History, Reachable;
  }

  /** Whoever is on the way gets nearer by every step of its carrier, and is left where it is by
      the steps of all others; a lock taken to wait is nearer to its release by every step of its
      holder, and no other agent can release it. */
  lemma OnlyTheCarrierMoves(extra: nat, objects: nat, run: seq<Move>, s: State, w: Wid, a: Act, f: Fid, o: Oid)
    requires Reachable(extra, objects, run, s) && w < |s.ws|
    ensures Moved(s, Step(s, w, a), w, f) && LockOk(s, o) && LockMoved(s, Step(s, w, a), w, o)
  {
    HistoryIsTheRun(extra, objects, run, s);
    HistoryOk(extra, objects, run);
    hide History, Reachable, Step, AskOk, LockOk, Inv, Moved, LockMoved;
    var p := History(extra, objects, run);
    assert AskOk(p.s, p.asked, f) && LockOk(p.s, o);
    assert |s.fib| !in p.asked;
    StepGoes(s, p.asked, w, a, f, o);
  }

  function Ahead(s: State, m: Move): State {
    if m.w < |s.ws| then Step(s, m.w, m.a) else s
  }

  /** `f` is on the way before each of these moves and after the last. */
  predicate StaysOnTheWay(s: State, more: seq<Move>, f: Fid)
    decreases |more|
  {
    InTransit(s, f) && (more != [] ==> StaysOnTheWay(Ahead(s, more[0]), more[1..], f))
  }

  /** How many of the moves are steps of the agent that then carries `f`. */
  function CarrierMoves(s: State, more: seq<Move>, f: Fid): nat
    decreases |more|
  {
    if more == [] then 0
    else (if more[0].w < |s.ws| && more[0].w == Carrier(s, f) then 1 else 0) + CarrierMoves(Ahead(s, more[0]), more[1..], f)
  }

  /** Nobody is on the way for long: after as many steps of its carriers as it has left (at most
      8, or three for each fiber of its batch and three more), whatever all others do between,
      it has settled. */
  lemma {:induction false} EverybodyArrives(extra: nat, objects: nat, run: seq<Move>, s: State, more: seq<Move>, f: Fid)
    requires Reachable(extra, objects, run, s) && StaysOnTheWay(s, more, f)
    ensures CarrierMoves(s, more, f) < Left(s, f)
    decreases |more|
  {
    hide Reachable, Step, Left;
    if more != [] && more[0].w < |s.ws| {
      OnlyTheCarrierMoves(extra, objects, run, s, more[0].w, more[0].a, f, 0);
      ReachesOn(extra, objects, run, s, more[0]);
      EverybodyArrives(extra, objects, run + [more[0]], Ahead(s, more[0]), more[1..], f);
    } else if more != [] {
      EverybodyArrives(extra, objects, run, s, more[1..], f);
    } else {
      LeftIsPositive(extra, objects, run, s, f);
    }
  }

  lemma ReachesOn(extra: nat, objects: nat, run: seq<Move>, s: State, m: Move)
    requires Reachable(extra, objects, run, s) && m.w < |s.ws|
    ensures Reachable(extra, objects, run + [m], Step(s, m.w, m.a))
  {
    assert (run + [m])[..|run|] == run;
    hide Step, Init;
  }

  lemma LeftIsPositive(extra: nat, objects: nat, run: seq<Move>, s: State, f: Fid)
    requires Reachable(extra, objects, run, s) && InTransit(s, f)
    ensures 0 < Left(s, f)
    ensures s.fib[f].place.Batched? || Left(s, f) <= 8
  {
    ReachableInv(extra, objects, run, s);
    hide Reachable;
    assert FiberOk(s, f);
    if s.fib[f].place.Slotted? {
      assert AgentOk(s, s.fib[f].place.w);
    }
    assert Carrier(s, f) < |s.ws| && AgentOk(s, Carrier(s, f));
    hide Inv;
  }

  // ------------------------------------------------------------ what each operation achieves

  function PcOf(s: State, w: Wid): Pc {
    if w < |s.ws| then s.ws[w].pc else Free
  }

  predicate HasWaiters(s: State, o: Oid) {
    Unlocked(s, o) && s.objs[o].waiters != []
  }

  /** Fiber `f` is leaving agent `w`, to be published by the callback of the operation. */
  predicate Leaves(s': State, w: Wid, a: Act, f: Fid) {
    Pushing(s', w, f) == CallFor(a, f) && Pushing(s', w, f).Some?
  }

  predicate GoesOn(s': State, w: Wid, f: Fid) {
    IsAt(s', f, Running(w)) && !InTransit(s', f)
  }

  /** The block of the fiber that was disposed of first is reused, if there is one. */
  predicate TakesBlock(s: State, s': State) {
    if s.disposed == [] then s'.disposed == []
    else s'.disposed == s.disposed[1..] && IsAt(s', s.disposed[0], Reclaimed)
  }

  /** What the operation that fiber `f` asks for on `w` does: sleep and exit leave, yield leaves
      to a ready fiber if there is one; a waker takes the oldest waiter into its hands and goes
      on, or hands over to it; close and destroy take all waiters; who waits is on the list with
      its lock held; and a spawn takes a block. */
  ghost predicate Obeyed(s: State, s': State, w: Wid, a: Act, f: Fid) {
    match a
    case Sleep => Leaves(s', w, a, f)
    case Exit => Leaves(s', w, a, f)
    case Yield => if s.queue == [] then s' == s else Leaves(s', w, a, f) && IsAt(s', s.queue[0], Held(w))
    case Handoff(o) =>
      if HasWaiters(s, o) then Leaves(s', w, a, f) && IsAt(s', s.objs[o].waiters[0], Held(w)) else s' == s
    case WakeOne(o) =>
      if HasWaiters(s, o) then GoesOn(s', w, f) && IsAt(s', s.objs[o].waiters[0], Held(w)) else s' == s
    case WakeAll(o) =>
      if Unlocked(s, o) then GoesOn(s', w, f) && PcOf(s', w) == Batch(s.objs[o].waiters, []) else s' == s
    case Block(o) => if Unlocked(s, o) then IsAt(s', f, Waiting(o)) && Holder(s', o) == Some(w) else s' == s
    case Spawn => GoesOn(s', w, f) && PcOf(s', w).Building? && TakesBlock(s, s')
    case At(_) => s' == s
  }

  lemma OrdersAreObeyed(extra: nat, objects: nat, run: seq<Move>, s: State, w: Wid, a: Act)
    requires Reachable(extra, objects, run, s) && InCode(s, w)
    ensures Obeyed(s, Step(s, w, a), w, a, s.ws[w].cur.f)
  {
    ReachableInv(extra, objects, run, s);
    Obeys(s, w, a);
    hide *;
  }

  lemma Obeys(s: State, w: Wid, a: Act)
    requires Inv(s) && InCode(s, w)
    ensures Obeyed(s, Step(s, w, a), w, a, s.ws[w].cur.f)
  {
    hide Inv, Obeyed, FreeStep;
    if a.Block? || a.WakeAll? || a.Handoff? || a.WakeOne? {
      WaitObeys(s, w, a);
    } else {
      CodeObeys(s, w, a);
    }
  }

  lemma CodeObeys(s: State, w: Wid, a: Act)
    requires Inv(s) && InCode(s, w) && !a.Block? && !a.WakeAll? && !a.Handoff? && !a.WakeOne?
    ensures Obeyed(s, FreeStep(s, w, a), w, a, s.ws[w].cur.f)
  {
    assert AgentOk(s, w) && ListAt(s, s.queue, Queued) && ListAt(s, s.disposed, Disposed);
    hide Inv, FiberOk, SeatOk;
  }

  lemma WaitObeys(s: State, w: Wid, a: Act)
    requires Inv(s) && InCode(s, w) && (a.Block? || a.WakeAll? || a.Handoff? || a.WakeOne?)
    ensures Obeyed(s, FreeStep(s, w, a), w, a, s.ws[w].cur.f)
  {
    assert AgentOk(s, w) && (a.o < |s.objs| ==> ListAt(s, s.objs[a.o].waiters, Waiting(a.o)));
    hide Inv, FiberOk, SeatOk;
  }

  /** The callback has been made: it released the lock, or published its fiber, saved by now: on
      the way to the queue, in the timer, or at the end of the disposed list. */
  predicate Published(s: State, s': State, w: Wid, call: Call) {
    Callback(s', w).None? &&
    match call
    case Unlock(o) => Holder(s', o).None? && Waiters(s', o) == Waiters(s, o)
    case Enqueue(f) => Saved(s', f) && IsAt(s', f, Held(w)) && PcOf(s', w) == Waking(f)
    case TimerAdd(f) => Saved(s', f) && f in Waiters(s', 0) && |Waiters(s', 0)| == |Waiters(s, 0)| + 1
    case Recycle(f) => Saved(s', f) && s'.disposed == s.disposed + [f] && IsAt(s', f, Disposed)
  }

  /** What the callbacks achieve, in every run. */
  lemma CallbacksPublish(extra: nat, objects: nat, run: seq<Move>, s: State, w: Wid, a: Act)
    requires Reachable(extra, objects, run, s) && w < |s.ws| && s.ws[w].pc.Free? && s.ws[w].pending.Push?
    ensures Published(s, Step(s, w, a), w, s.ws[w].pending.call)
  {
    ReachableInv(extra, objects, run, s);
    hide Reachable, Published;
    CallPublishes(s, w, a);
    hide Inv, FreeStep;
  }

  lemma CallPublishes(s: State, w: Wid, a: Act)
    requires Inv(s) && w < |s.ws| && s.ws[w].pc.Free? && s.ws[w].pending.Push?
    ensures Published(s, FreeStep(s, w, a), w, s.ws[w].pending.call)
  {
    assert AgentOk(s, w) && s.objs != [];
    match s.ws[w].pending.call
    case Unlock(_) =>
    case Enqueue(f) => assert FiberOk(s, f);
    case TimerAdd(f) => assert FiberOk(s, f);
    case Recycle(f) => assert FiberOk(s, f);
    hide Inv, SeatOk;
  }

  /** What a worker's loop and the timer thread achieve: the loop takes the oldest ready fiber
      into its hands, or parks at the end of the idle list; the timer takes the first nodes. */
  lemma LoopsServe(extra: nat, objects: nat, run: seq<Move>, s: State, w: Wid, a: Act)
    requires Reachable(extra, objects, run, s) && InLoop(s, w)
    ensures
      var s' := Step(s, w, a);
      if w == TIMER then
        var l, k := Waiters(s, 0), if a.At? then a.k else 0;
        var n := if k <= |l| then k else |l|;
        PcOf(s', w) == Batch(l[..n], []) && Waiters(s', 0) == l[n..]
      else if s.queue != [] then IsAt(s', s.queue[0], Held(w)) && InTransit(s', s.queue[0])
      else s'.idle == s.idle + [w] && PcOf(s', w).Parked?
  {
    ReachableInv(extra, objects, run, s);
    assert AgentOk(s, w) && ListAt(s, s.queue, Queued) && s.objs != [];
    hide Reachable, Inv, FiberOk, AgentOk;
  }

  function Waiters(s: State, o: Oid): seq<Fid> {
    if o < |s.objs| then s.objs[o].waiters else []
  }

  /** fiber_spawn: one fiber more, with a context to load, in the hands of the one that spawns
      it; the others are as they were. */
  lemma SpawnMakesOne(extra: nat, objects: nat, run: seq<Move>, s: State, w: Wid, a: Act)
    requires Reachable(extra, objects, run, s) && PcOf(s, w).Building?
    ensures
      var s' := Step(s, w, a);
      && s'.fib[..|s.fib|] == s.fib && |s'.fib| == |s.fib| + 1
      && Saved(s', |s.fib|) && IsAt(s', |s.fib|, Held(w)) && InTransit(s', |s.fib|) && Carrier(s', |s.fib|) == w
  {
    hide Reachable;
  }

  // ------------------------------------------------------------ the lists are served in order

  /** One list over one step: nothing, the first taken into hands, one put at the end, or all. */
  predicate InOrder(l: seq<nat>, l': seq<nat>, first: bool, last: seq<nat>, all: bool) {
    || l' == l
    || (first && l != [] && l' == l[1..])
    || l' == l + last
    || (all && l' == [])
  }

  predicate Has(p: Pc, f: Fid) {
    p == LoopPopped(f) || p == Waking(f) || (p.Popped? && p.g == f)
  }

  predicate QueueInOrder(s: State, s': State, w: Wid) {
    w < |s.ws| && w < |s'.ws| &&
    var p, p' := s.ws[w].pc, s'.ws[w].pc;
    InOrder(s.queue, s'.queue, s.queue != [] && Has(p', s.queue[0]),
            match p case Waking(f) => [f] case Batch(fs, _) => fs case _ => [],
            p'.Batch? && p'.fs == s.queue)
  }

  predicate WaitersInOrder(s: State, s': State, w: Wid, o: Oid) {
    w < |s.ws| && w < |s'.ws| && |s'.objs| == |s.objs| &&
    (0 < o < |s.objs| ==>
       var l, p' := s.objs[o].waiters, s'.ws[w].pc;
       InOrder(l, s'.objs[o].waiters, l != [] && Has(p', l[0]),
               if p' == Publishing(o) && s'.ws[w].cur.Fib? then [s'.ws[w].cur.f] else [],
               p' == Batch(l, [])))
  }

  predicate SparesInOrder(s: State, s': State, w: Wid) {
    w < |s.ws| && w < |s'.ws| &&
    var p, p' := s.ws[w].pc, s'.ws[w].pc;
    && (InOrder(s.idle, s'.idle, p'.Giving? && s.idle != [] && p'.th == s.idle[0], if p' == Parked then [w] else [],
                p'.Batch? && p'.ths == s.idle)
        || (p.Batch? && s'.idle == p.ths + s.idle))
    && InOrder(s.disposed, s'.disposed, p'.Building?,
               if s.ws[w].pending.Push? && s.ws[w].pending.call.Recycle? then [s.ws[w].pending.call.f] else [], false)
  }

  predicate ListsInOrder(s: State, s': State, w: Wid, o: Oid) {
    QueueInOrder(s, s', w) && WaitersInOrder(s, s', w, o) && SparesInOrder(s, s', w)
  }

  lemma CallLists(s: State, w: Wid, a: Act, o: Oid)
    requires w < |s.ws| && s.ws[w].pc.Free? && s.ws[w].pending.Push?
    ensures ListsInOrder(s, FreeStep(s, w, a), w, o)
  {}

  lemma LoopLists(s: State, w: Wid, a: Act, o: Oid)
    requires InLoop(s, w)
    ensures ListsInOrder(s, FreeStep(s, w, a), w, o)
  {}

  lemma WaitLists(s: State, w: Wid, a: Act, o: Oid)
    requires InCode(s, w) && (a.Block? || a.WakeAll?)
    ensures ListsInOrder(s, FreeStep(s, w, a), w, o)
  {}

  lemma WakeLists(s: State, w: Wid, a: Act, o: Oid)
    requires InCode(s, w) && (a.Handoff? || a.WakeOne?)
    ensures ListsInOrder(s, FreeStep(s, w, a), w, o)
  {}

  lemma CodeLists(s: State, w: Wid, a: Act, o: Oid)
    requires InCode(s, w) && !a.Block? && !a.WakeAll? && !a.Handoff? && !a.WakeOne?
    ensures ListsInOrder(s, FreeStep(s, w, a), w, o)
  {}

  lemma RegionLists(s: State, w: Wid, f: Fid, o: Oid)
    requires w < |s.ws| && s.ws[w].pc == Waking(f)
    ensures ListsInOrder(s, EnqueueRegion(s, w, f), w, o)
  {}

  lemma BatchLists(s: State, w: Wid, fs: seq<Fid>, ths: seq<Wid>, o: Oid)
    requires w < |s.ws| && s.ws[w].pc == Batch(fs, ths)
    ensures ListsInOrder(s, BatchStep(s, w, fs, ths), w, o)
  {}

  predicate SameLists(s: State, s': State) {
    |s'.ws| == |s.ws| && s'.queue == s.queue && s'.idle == s.idle && s'.objs == s.objs && s'.disposed == s.disposed
  }

  lemma SwitchesKeep(s: State, w: Wid, t: Top, call: Call, f: Fid)
    requires w < |s.ws|
    ensures SameLists(s, AimAt(s, w, t, call)) && SameLists(s, SwitchFromFiber(s, w, f)) && SameLists(s, SwitchFromLoop(s, w))
  {}

  lemma HandsKeep(s: State, w: Wid, f: Fid, th: Wid, next: Pc)
    requires w < |s.ws|
    ensures SameLists(s, WriteSlot(s, w, f, th, next)) && SameLists(s, SignalThread(s, w, th, next))
    ensures SameLists(s, Build(s, w)) && SameLists(s, LoopRead(s, w, f)) && SameLists(s, SemaphoreWait(s, w))
  {}

  lemma KeptInOrder(s: State, s': State, w: Wid, o: Oid)
    requires SameLists(s, s') && w < |s.ws|
    ensures ListsInOrder(s, s', w, o)
  {
    hide Has;
  }

  lemma SwitchLists(s: State, w: Wid, a: Act, o: Oid)
    requires w < |s.ws|
    requires s.ws[w].pc.Awake? || s.ws[w].pc.Publishing? || s.ws[w].pc.Popped? || s.ws[w].pc.ToLoop? || s.ws[w].pc.Aimed?
    ensures ListsInOrder(s, Step(s, w, a), w, o)
  {
    var me := s.ws[w];
    var t := if me.pc.Popped? then s.TopOf(me.pc.g) else me.slot;
    var call := if me.pc.Popped? || me.pc.ToLoop? then me.pc.call else if me.pc.Publishing? then Unlock(me.pc.o) else Unlock(0);
    SwitchesKeep(s, w, t, call, if me.cur.Fib? then me.cur.f else 0);
    KeptInOrder(s, Step(s, w, a), w, o);
    hide *;
  }

  lemma HandLists(s: State, w: Wid, a: Act, o: Oid)
    requires w < |s.ws|
    requires s.ws[w].pc.Parked? || s.ws[w].pc.LoopPopped? || s.ws[w].pc.Building? || s.ws[w].pc.Giving?
             || s.ws[w].pc.Signalling? || s.ws[w].pc.BatchSignal?
    ensures ListsInOrder(s, Step(s, w, a), w, o)
  {
    hide ListsInOrder, SameLists, WriteSlot, SignalThread, Build, LoopRead, SemaphoreWait;
    var pc := s.ws[w].pc;
    var f := if pc.LoopPopped? || pc.Giving? then pc.f else 0;
    var th := if pc.Giving? || pc.Signalling? then pc.th else if pc.BatchSignal? then pc.next else 0;
    HandsKeep(s, w, f, th, if pc.Giving? then Signalling(th) else if pc.BatchSignal? then Batch(pc.fs, pc.ths) else Free);
    KeptInOrder(s, Step(s, w, a), w, o);
    hide *;
  }

  /** Every list is served first in, first out, step by step: one goes to the end of the queue
      or a batch does, the head of a list is taken into the hands of the agent that acts, or a
      batch takes all of it in order; only a batch that has threads left gives them back in
      front of the idle ones. */
  lemma StepInOrder(s: State, w: Wid, a: Act, o: Oid)
    requires w < |s.ws|
    ensures ListsInOrder(s, Step(s, w, a), w, o)
  {
    hide ListsInOrder, FreeStep, EnqueueRegion, BatchStep;
    var pc := s.ws[w].pc;
    if pc.Awake? || pc.Publishing? || pc.Popped? || pc.ToLoop? || pc.Aimed? {
      SwitchLists(s, w, a, o);
    } else if pc.Parked? || pc.LoopPopped? || pc.Building? || pc.Giving? || pc.Signalling? || pc.BatchSignal? {
      HandLists(s, w, a, o);
    } else if pc.Waking? {
      RegionLists(s, w, pc.f, o);
    } else if pc.Batch? {
      BatchLists(s, w, pc.fs, pc.ths, o);
    } else if s.ws[w].pending.Push? {
      CallLists(s, w, a, o);
    } else if s.ws[w].cur.Loop? {
      LoopLists(s, w, a, o);
    } else if a.Block? || a.WakeAll? {
      WaitLists(s, w, a, o);
    } else if a.Handoff? || a.WakeOne? {
      WakeLists(s, w, a, o);
    } else {
      CodeLists(s, w, a, o);
    }
  }

  // ------------------------------------------------------------ idle threads are served too

  /** How many steps of the agent that took it a thread is from being given a fiber or back. */
  function ThreadLeft(p: Pc): nat {
    match p
    case Batch(fs, ths) => 3 * |ths| + if fs == [] then 1 else 0
    case BatchSignal(_, _, ths) => 3 * |ths| + 2
    case _ => 0
  }

  /** A parked thread is moved on by one agent only: an idle one by whoever takes it, one that is
      taken or has a fiber in its slot by the agent that took it, one that is signalled by
      itself; and the step of that agent brings it nearer. */
  predicate ThreadMoved(s: State, s': State, w: Wid, th: Wid) {
    |s'.ws| == |s.ws| && (th < |s.ws| ==>
      var x, x' := s.ws[th].seat, s'.ws[th].seat;
      match x
      case Busy => th == w || x' == x
      case Idle => x' == x || x' == Stolen(w)
      case Stolen(v) =>
        if v == w then x' == Filled(w) || x' == Idle || (x' == x && ThreadLeft(PcOf(s', w)) < ThreadLeft(PcOf(s, w)))
        else x' == x && PcOf(s', v) == PcOf(s, v)
      case Filled(v) => x' == if v == w then Signalled else x
      case Signalled => x' == if th == w then Busy else x)
  }

  ghost predicate ThreadFacts(s: State, w: Wid, th: Wid) {
    w < |s.ws| && AgentOk(s, w) && (th < |s.ws| ==> AgentOk(s, th)) && SeatAt(s, s.idle, Idle)
  }

  lemma CallThreads(s: State, w: Wid, a: Act, th: Wid)
    requires ThreadFacts(s, w, th) && s.ws[w].pc.Free? && s.ws[w].pending.Push?
    ensures ThreadMoved(s, FreeStep(s, w, a), w, th)
  {}

  lemma LoopThreads(s: State, w: Wid, a: Act, th: Wid)
    requires ThreadFacts(s, w, th) && InLoop(s, w)
    ensures ThreadMoved(s, FreeStep(s, w, a), w, th)
  {}

  lemma CodeThreads(s: State, w: Wid, a: Act, th: Wid)
    requires ThreadFacts(s, w, th) && InCode(s, w)
    ensures ThreadMoved(s, FreeStep(s, w, a), w, th)
  {}

  lemma RegionThreads(s: State, w: Wid, f: Fid, th: Wid)
    requires ThreadFacts(s, w, th) && s.ws[w].pc == Waking(f)
    ensures ThreadMoved(s, EnqueueRegion(s, w, f), w, th)
  {}

  lemma ReturnThreads(s: State, w: Wid, ths: seq<Wid>, th: Wid)
    requires ThreadFacts(s, w, th) && s.ws[w].pc == Batch([], ths) && ths != []
    ensures ThreadMoved(s, BatchReturn(s, w, ths), w, th)
  {
    hide CurOk, PendingOk, SlotFilled;
  }

  lemma StealThreads(s: State, w: Wid, fs: seq<Fid>, th: Wid)
    requires ThreadFacts(s, w, th) && s.ws[w].pc == Batch(fs, []) && fs != []
    ensures ThreadMoved(s, BatchSteal(s, w, fs), w, th)
  {
    hide CurOk, PendingOk, SlotFilled;
  }

  lemma MatchThreads(s: State, w: Wid, fs: seq<Fid>, ths: seq<Wid>, th: Wid)
    requires ThreadFacts(s, w, th) && s.ws[w].pc == Batch(fs, ths) && fs != [] && ths != []
    ensures ThreadMoved(s, WriteSlot(s, w, fs[0], ths[0], BatchSignal(ths[0], fs[1..], ths[1..])), w, th)
  {
    hide CurOk, PendingOk, SlotFilled;
  }

  lemma BatchThreads(s: State, w: Wid, fs: seq<Fid>, ths: seq<Wid>, th: Wid)
    requires ThreadFacts(s, w, th) && s.ws[w].pc == Batch(fs, ths)
    ensures ThreadMoved(s, BatchStep(s, w, fs, ths), w, th)
  {
    if fs == [] && ths == [] {
      hide CurOk, PendingOk, SlotFilled;
    } else {
      hide ThreadFacts, ThreadMoved, BatchReturn, BatchSteal, WriteSlot;
      if fs == [] {
        ReturnThreads(s, w, ths, th);
      } else if ths == [] {
        StealThreads(s, w, fs, th);
      } else {
        MatchThreads(s, w, fs, ths, th);
      }
    }
  }

  lemma SwitchThreads(s: State, w: Wid, a: Act, th: Wid)
    requires ThreadFacts(s, w, th) && (s.ws[w].pc.Awake? || s.ws[w].pc.Publishing? || s.ws[w].pc.Popped? || s.ws[w].pc.ToLoop? || s.ws[w].pc.Aimed?)
    ensures ThreadMoved(s, Step(s, w, a), w, th)
  {}

  lemma HandThreads(s: State, w: Wid, a: Act, th: Wid)
    requires ThreadFacts(s, w, th) && (s.ws[w].pc.Parked? || s.ws[w].pc.LoopPopped? || s.ws[w].pc.Building?)
    ensures ThreadMoved(s, Step(s, w, a), w, th)
  {}

  lemma SignalThreads(s: State, w: Wid, a: Act, th: Wid)
    requires ThreadFacts(s, w, th) && (s.ws[w].pc.Giving? || s.ws[w].pc.Signalling? || s.ws[w].pc.BatchSignal?)
    ensures ThreadMoved(s, Step(s, w, a), w, th)
  {}

  /** No thread is forgotten: in every run, whoever takes an idle thread brings it nearer by each
      of its steps to a fiber and a signal, or back to the idle list, and nobody else touches it. */
  lemma ThreadsAreServed(extra: nat, objects: nat, run: seq<Move>, s: State, w: Wid, a: Act, th: Wid)
    requires Reachable(extra, objects, run, s) && w < |s.ws|
    ensures ThreadMoved(s, Step(s, w, a), w, th)
    ensures th < |s.ws| && s.ws[th].seat.Stolen? ==>
              PcOf(s, s.ws[th].seat.owner).Giving? || ThreadLeft(PcOf(s, s.ws[th].seat.owner)) > 0
  {
    ReachableInv(extra, objects, run, s);
    assert AgentOk(s, w) && (th < |s.ws| ==> AgentOk(s, th)) && SeatAt(s, s.idle, Idle);
    hide Reachable, Inv, ThreadMoved, FreeStep, EnqueueRegion, BatchStep, AimAt, SwitchFromFiber, SwitchFromLoop, LoopRead, Build,
      SemaphoreWait, WriteSlot, SignalThread, CurOk, PcOk, PendingOk, SeatAt, SlotFilled;
    var pc := s.ws[w].pc;
    if pc.Awake? || pc.Publishing? || pc.Popped? || pc.ToLoop? || pc.Aimed? {
      SwitchThreads(s, w, a, th);
    } else if pc.Parked? || pc.LoopPopped? || pc.Building? {
      HandThreads(s, w, a, th);
    } else if pc.Giving? || pc.Signalling? || pc.BatchSignal? {
      SignalThreads(s, w, a, th);
    } else if pc.Waking? {
      RegionThreads(s, w, pc.f, th);
    } else if pc.Batch? {
      BatchThreads(s, w, pc.fs, pc.ths, th);
    } else if s.ws[w].pending.Push? {
      CallThreads(s, w, a, th);
    } else if s.ws[w].cur.Loop? {
      LoopThreads(s, w, a, th);
    } else {
      CodeThreads(s, w, a, th);
    }
  }

  // ------------------------------------------------------------ what an agent is doing ends

  /** How many steps of its own an agent is from ordinary code, if it finds nothing more. */
  function PcLeft(p: Pc): nat {
    match p
    case Free => 0
    case Parked => 0
    case Awake => 1
    case LoopPopped(_) => 2
    case Publishing(_) => 2
    case Popped(_, _) => 2
    case ToLoop(_) => 2
    case Aimed => 1
    case Building => 4
    case Waking(_) => 3
    case Giving(_, _) => 2
    case Signalling(_) => 1
    case Batch(fs, ths) => 2 * (if |fs| < |ths| then |fs| else |ths|) + 1
    case BatchSignal(_, fs, ths) => 2 * (if |fs| < |ths| then |fs| else |ths|) + 2
  }

  /** A batch that has run out of fibers takes all that are ready; one that has run out of threads
      takes all that are idle. */
  predicate FindsMore(s: State, p: Pc, p': Pc) {
    p.Batch? &&
    ((p.fs == [] && p.ths != [] && s.queue != [] && p' == Batch(s.queue, p.ths))
     || (p.ths == [] && p.fs != [] && s.idle != [] && p' == Batch(p.fs, s.idle)))
  }

  predicate GoesNearer(s: State, s': State, w: Wid) {
    var p, p' := PcOf(s, w), PcOf(s', w);
    if p.Parked? then (if w < |s.ws| && s.ws[w].sem > 0 then p'.Awake? else s' == s)
    else p.Free? || PcLeft(p') < PcLeft(p) || FindsMore(s, p, p')
  }

  predicate Switches(p: Pc) {
    p.Publishing? || p.Popped? || p.ToLoop? || p.Aimed? || p.Awake?
  }

  lemma SwitchNearer(s: State, w: Wid, a: Act)
    requires w < |s.ws| && Switches(s.ws[w].pc) && PcOk(s, w)
    ensures GoesNearer(s, Step(s, w, a), w)
  {
    hide FreeStep, BatchStep;
  }

  lemma HandNearer(s: State, w: Wid, a: Act)
    requires w < |s.ws| && !Switches(s.ws[w].pc) && !s.ws[w].pc.Batch? && !s.ws[w].pc.Free?
    ensures GoesNearer(s, Step(s, w, a), w)
  {
    hide FreeStep, BatchStep;
  }

  lemma BatchNearer(s: State, w: Wid, fs: seq<Fid>, ths: seq<Wid>)
    requires w < |s.ws| && s.ws[w].pc == Batch(fs, ths)
    ensures GoesNearer(s, BatchStep(s, w, fs, ths), w)
  {}

  /** Whatever an agent has begun ends: in every run each of its steps outside ordinary code brings
      it nearer to that, unless a batch finds more to do; a parked agent goes on as soon as it is
      signalled. */
  lemma WhatIsBegunEnds(extra: nat, objects: nat, run: seq<Move>, s: State, w: Wid, a: Act)
    requires Reachable(extra, objects, run, s) && w < |s.ws|
    ensures GoesNearer(s, Step(s, w, a), w)
  {
    ReachableInv(extra, objects, run, s);
    StepNearer(s, w, a);
    hide *;
  }

  lemma StepNearer(s: State, w: Wid, a: Act)
    requires Inv(s) && w < |s.ws|
    ensures GoesNearer(s, Step(s, w, a), w)
  {
    assert AgentOk(s, w);
    hide Inv;
    assert PcOk(s, w);
    hide AgentOk, PcOk, PcLeft, FindsMore, FreeStep, BatchStep, AimAt, SwitchFromFiber, SwitchFromLoop, LoopRead, Build, SemaphoreWait,
      EnqueueRegion, WriteSlot, SignalThread;
    if s.ws[w].pc.Batch? {
      BatchNearer(s, w, s.ws[w].pc.fs, s.ws[w].pc.ths);
    } else if Switches(s.ws[w].pc) {
      SwitchNearer(s, w, a);
    } else if !s.ws[w].pc.Free? {
      HandNearer(s, w, a);
    }
    }
}
