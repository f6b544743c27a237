/**
 The words in memory under the machine of `Scheduler`: the links inside the fibers' records
 and the threads, through which every list is linked, the `{sched, f}` pairs on the stacks of
 fibers that leave, and the local pointers of each thread.  A step here follows and writes
 those words and nothing else; which fiber it gets is then a theorem, in every run in which
 every word that is not in use is overwritten at any time with anything.
 */
module Records {
  import opened Circles
  import opened ListLinks
  import opened Scheduler

  /** The sentinels of the shared lists, of the two private lists of enqueue_fiber_list, and
      the nodes inside fibers' records and threads. */
  datatype Node =
    | QueueHead
    | IdleHead
    | DisposedHead
    | WaitHead(o: Oid)
    | BatchHead(w: Wid)
    | ThreadHead(w: Wid)
    | LinkOf(f: Fid)
    | ThreadOf(w: Wid)

  /** A `fjx_fiber_pair` or `fjx_timer_pair` on a fiber's stack. */
  datatype Pair = Pair(sched: int, f: Fid)

  const SCHED: int := 0
  const JUNK: Pair := Pair(-1, 0)

  /** A thread's local pointers: the record popped last, the thread popped last, where it is in
      its two private lists, and whose pair it reads once more before it unlocks. */
  datatype Local = Local(it: Node, th: Node, ix: Node, iy: Node, unlocking: Option<Fid>)

  datatype Mem = Mem(m: Links<Node>, pairs: map<Fid, Pair>, locs: seq<Local>,
                     disposedLock: Option<Wid>, timerLock: Option<Wid>)
  {
    function PairAt(f: Fid): Pair {
      if f in pairs then pairs[f] else JUNK
    }

    function Loc(w: Wid): Local {
      if w < |locs| then locs[w] else Local(LinkOf(0), ThreadOf(0), BatchHead(w), ThreadHead(w), None)
    }

    function With(w: Wid, x: Local): Mem {
      if w < |locs| then this.(locs := locs[w := x]) else this
    }

    function Got(w: Wid, n: Node): Mem {
      With(w, Loc(w).(it := n))
    }
  }

  /** The machine with the memory under it. */
  datatype LState = LState(s: State, e: Mem)

  // ------------------------------------------------------------ steps on the words

  function Pop(e: Mem, w: Wid, head: Node): Mem {
    e.(m := PopHead(e.m, head)).Got(w, Next(e.m, head))
  }

  function Append(e: Mem, head: Node, x: Node): Mem {
    e.(m := AddTail(e.m, head, x))
  }

  predicate Empty(e: Mem, head: Node) {
    Next(e.m, head) == head
  }

  function LoopTurnMem(e: Mem, w: Wid): Mem {
    if Empty(e, QueueHead) then Append(e, IdleHead, ThreadOf(w)) else Pop(e, w, QueueHead)
  }

  function EnqueueMem(e: Mem, w: Wid): Mem {
    if Empty(e, IdleHead) then Append(e, QueueHead, e.Loc(w).it)
    else e.(m := PopHead(e.m, IdleHead)).With(w, e.Loc(w).(th := Next(e.m, IdleHead)))
  }

  /** The pair goes on the stack of `f`, then the queue's head is popped if there is one. */
  function LeaveMem(e: Mem, w: Wid, f: Fid): Mem {
    var e1 := e.(pairs := e.pairs[f := Pair(SCHED, f)]);
    if Empty(e, QueueHead) then e1 else Pop(e1, w, QueueHead)
  }

  function TimerPlace(s: State, k: nat): nat {
    if s.objs == [] then 0 else if k <= |s.objs[0].waiters| then k else |s.objs[0].waiters|
  }

  /** A deferred call reads its argument from the pair. */
  function CallMem(s: State, e: Mem, w: Wid, call: Call, k: nat): Mem {
    match call
    case Unlock(_) => e
    case Enqueue(f) => e.Got(w, LinkOf(e.PairAt(f).f))
    case TimerAdd(f) =>
      e.(m := AddAfter(e.m, Walked(e.m, WaitHead(0), TimerPlace(s, k)), LinkOf(e.PairAt(f).f)))
    case Recycle(f) => Append(e, DisposedHead, LinkOf(e.PairAt(f).f))
  }

  /** Two of the calls hold a lock for their list operation, and read the pair again to unlock. */
  function Lock(e: Mem, w: Wid, call: Call): Mem {
    match call
    case TimerAdd(f) => e.(timerLock := Some(w)).With(w, e.Loc(w).(unlocking := Some(f)))
    case Recycle(f) => e.(disposedLock := Some(w)).With(w, e.Loc(w).(unlocking := Some(f)))
    case _ => e
  }

  predicate Calls(s: State, w: Wid) {
    w < |s.ws| && s.ws[w].pc.Free? && s.ws[w].pending.Push?
  }

  /** Both private lists are there, the second empty. */
  function Started(e: Mem, w: Wid): Mem {
    var m := Join(e.m, ThreadHead(w), ThreadHead(w));
    e.(m := m).With(w, e.Loc(w).(ix := Next(m, BatchHead(w)), iy := ThreadHead(w)))
  }

  function TakeMem(e: Mem, w: Wid, o: Oid): Mem {
    var m := Join(e.m, BatchHead(w), BatchHead(w));
    Started(e.(m := if Empty(e, WaitHead(o)) then m else MoveAll(m, WaitHead(o), BatchHead(w))), w)
  }

  function ExpireMem(s: State, e: Mem, w: Wid, k: nat): Mem {
    Started(e.(m := TakeFirst(Join(e.m, BatchHead(w), BatchHead(w)), w, TimerPlace(s, k))), w)
  }

  /** The first `n` nodes of the timer's list. */
  function TakeFirst(m: Links<Node>, w: Wid, n: nat): Links<Node> {
    var cut := Walked(m, WaitHead(0), n + 1);
    if n == 0 then m
    else if cut == WaitHead(0) then MoveAll(m, WaitHead(0), BatchHead(w))
    else MoveBefore(m, WaitHead(0), BatchHead(w), cut)
  }

  /** The inner loop reads both links before it gives the fiber to the thread; when one list
      ends the other is linked to its sentinel again. */
  function BatchMem(e: Mem, w: Wid): Mem {
    var x := e.Loc(w);
    var fibersDone, threadsDone := x.ix == BatchHead(w), x.iy == ThreadHead(w);
    if fibersDone && threadsDone then e
    else if fibersDone then
      var m := Join(e.m, ThreadHead(w), x.iy);
      if Next(m, QueueHead) == QueueHead then e.(m := PrependAll(m, IdleHead, ThreadHead(w)))
      else Restarted(e.(m := MoveAll(m, QueueHead, BatchHead(w))), w)
    else if threadsDone then
      var m := Join(e.m, BatchHead(w), x.ix);
      if Next(m, IdleHead) == IdleHead then e.(m := AppendAll(m, QueueHead, BatchHead(w)))
      else Restarted(e.(m := MoveAll(m, IdleHead, ThreadHead(w))), w)
    else e.With(w, x.(ix := Next(e.m, x.ix), iy := Next(e.m, x.iy)))
  }

  function Restarted(e: Mem, w: Wid): Mem {
    e.With(w, e.Loc(w).(ix := Next(e.m, BatchHead(w)), iy := Next(e.m, ThreadHead(w))))
  }

  function CodeMem(s: State, e: Mem, w: Wid, a: Act, f: Fid): Mem {
    match a
    case Block(o) => if Unlocked(s, o) then Append(e, WaitHead(o), LinkOf(f)) else e
    case WakeOne(o) => if Unlocked(s, o) && !Empty(e, WaitHead(o)) then Pop(e, w, WaitHead(o)) else e
    case Handoff(o) =>
      if Unlocked(s, o) && !Empty(e, WaitHead(o)) then Pop(e.(pairs := e.pairs[f := Pair(SCHED, f)]), w, WaitHead(o)) else e
    case WakeAll(o) => if Unlocked(s, o) then TakeMem(e, w, o) else e
    case Yield => if Empty(e, QueueHead) then e else LeaveMem(e, w, f)
    case Sleep => LeaveMem(e, w, f)
    case Exit => LeaveMem(e, w, f)
    case Spawn => if Empty(e, DisposedHead) then e else Pop(e, w, DisposedHead)
    case At(_) => e
  }

  function FreeMem(s: State, e: Mem, w: Wid, a: Act): Mem
    requires w < |s.ws|
  {
    var me, k := s.ws[w], if a.At? then a.k else 0;
    if me.pending.Push? then CallMem(s, e, w, me.pending.call, k)
    else if me.cur.Loop? then if w == TIMER then ExpireMem(s, e, w, k) else LoopTurnMem(e, w)
    else CodeMem(s, e, w, a, me.cur.f)
  }

  function MemStep(s: State, e: Mem, w: Wid, a: Act): Mem
    requires w < |s.ws|
  {
    match s.ws[w].pc
    case Free => FreeMem(s, e, w, a)
    case Building => e.Got(w, LinkOf(|s.fib|))
    case Waking(_) => EnqueueMem(e, w)
    case Batch(_, _) => BatchMem(e, w)
    case _ => e
  }

  /** The words after a step, the lock that it takes included. */
  function NextMem(s: State, e: Mem, w: Wid, a: Act): Mem
    requires w < |s.ws|
  {
    var e' := MemStep(s, e, w, a);
    if Calls(s, w) then Lock(e', w, s.ws[w].pending.call) else e'
  }

  /** The step needs a lock that somebody holds, or its pair does not lead to the scheduler. */
  predicate Waits(s: State, e: Mem, w: Wid, a: Act)
    requires w < |s.ws|
  {
    var me := s.ws[w];
    && me.pc.Free?
    && if me.pending.Push? then
         match me.pending.call
         case Unlock(_) => false
         case Enqueue(f) => e.PairAt(f).sched != SCHED
         case TimerAdd(f) => e.timerLock.Some? || e.PairAt(f).sched != SCHED
         case Recycle(f) => e.disposedLock.Some? || e.PairAt(f).sched != SCHED
       else if me.cur.Loop? then w == TIMER && e.timerLock.Some?
       else a.Spawn? && e.disposedLock.Some?
  }

  /** The unlock at the end of a deferred call: its lock is found through the pair again. */
  function Release(e: Mem, w: Wid): Mem {
    e.(disposedLock := if e.disposedLock == Some(w) then None else e.disposedLock,
       timerLock := if e.timerLock == Some(w) then None else e.timerLock)
    .With(w, e.Loc(w).(unlocking := None))
  }

  function LStep(l: LState, w: Wid, a: Act): LState {
    if w >= |l.s.ws| then l
    else if l.e.Loc(w).unlocking.Some? then
      if l.e.PairAt(l.e.Loc(w).unlocking.value).sched == SCHED then l.(e := Release(l.e, w)) else l
    else if Waits(l.s, l.e, w, a) then l
    else LState(Step(l.s, w, a), NextMem(l.s, l.e, w, a))
  }

  // ------------------------------------------------------------ what every step keeps

  function LinksOf(fs: seq<Fid>): (ns: seq<Node>)
    ensures |ns| == |fs| && forall i :: 0 <= i < |fs| ==> ns[i] == LinkOf(fs[i])
  {
    seq(|fs|, i requires 0 <= i < |fs| => LinkOf(fs[i]))
  }

  function ThreadsOf(ths: seq<Wid>): (ns: seq<Node>)
    ensures |ns| == |ths| && forall i :: 0 <= i < |ths| ==> ns[i] == ThreadOf(ths[i])
  {
    seq(|ths|, i requires 0 <= i < |ths| => ThreadOf(ths[i]))
  }

  predicate InBatch(s: State, w: Wid) {
    w < |s.ws| && (s.ws[w].pc.Batch? || s.ws[w].pc.BatchSignal?)
  }

  function BatchFibers(s: State, w: Wid): seq<Fid> {
    if !InBatch(s, w) then [] else s.ws[w].pc.fs
  }

  function BatchThreads(s: State, w: Wid): seq<Wid> {
    if !InBatch(s, w) then [] else s.ws[w].pc.ths
  }

  /** The list at a sentinel, as the machine has it. */
  function List(s: State, head: Node): seq<Node> {
    match head
    case QueueHead => LinksOf(s.queue)
    case IdleHead => ThreadsOf(s.idle)
    case DisposedHead => LinksOf(s.disposed)
    case WaitHead(o) => if o < |s.objs| then LinksOf(s.objs[o].waiters) else []
    case BatchHead(w) => LinksOf(BatchFibers(s, w))
    case ThreadHead(w) => ThreadsOf(BatchThreads(s, w))
    case _ => []
  }

  /** Which list a node belongs to; a node of no list may hold anything. */
  function Home(s: State, n: Node): Option<Node> {
    match n
    case LinkOf(f) =>
      if f >= |s.fib| then None else
      (match s.fib[f].place
       case Queued => Some(QueueHead)
       case Waiting(o) => Some(WaitHead(o))
       case Batched(w) => Some(BatchHead(w))
       case Disposed => Some(DisposedHead)
       case _ => None)
    case ThreadOf(w) =>
      if w >= |s.ws| then None else
      (match s.ws[w].seat
       case Idle => Some(IdleHead)
       case Stolen(v) => if InBatch(s, v) then Some(ThreadHead(v)) else None
       case _ => None)
    case WaitHead(o) => if o < |s.objs| then Some(n) else None
    case BatchHead(w) => if InBatch(s, w) then Some(n) else None
    case ThreadHead(w) => if InBatch(s, w) then Some(n) else None
    case _ => Some(n)
  }

  /** The links of a list are there; a private list may be in the middle of a walk. */
  ghost predicate ListOk(s: State, e: Mem, head: Node) {
    Home(s, head) == Some(head) ==>
    match head
    case BatchHead(w) => Walk(e.m, head, List(s, head), e.Loc(w).ix)
    case ThreadHead(w) => Walk(e.m, head, List(s, head), e.Loc(w).iy)
    case LinkOf(_) => true
    case ThreadOf(_) => true
    case _ => Circle(e.m, head, List(s, head))
  }

  ghost predicate ListsAgree(s: State, e: Mem) {
    forall head :: ListOk(s, e, head)
  }

  /** The pointers that agent `w` goes on with lead to what the machine says. */
  predicate LocalOk(s: State, e: Mem, w: Wid) {
    w < |s.ws| ==>
    match s.ws[w].pc
    case LoopPopped(f) => e.Loc(w).it == LinkOf(f)
    case Popped(f, _) => e.Loc(w).it == LinkOf(f)
    case Waking(f) => e.Loc(w).it == LinkOf(f)
    case Giving(f, th) => e.Loc(w).it == LinkOf(f) && e.Loc(w).th == ThreadOf(th)
    case _ => true
  }

  /** Between the list operation of a deferred call and its unlock the fiber stays where it was
      put, since the lock is held. */
  predicate LockOk(s: State, e: Mem, w: Wid) {
    var u := e.Loc(w).unlocking;
    && (u.Some? <==> e.disposedLock == Some(w) || e.timerLock == Some(w))
    && (u.Some? ==> w < |s.ws| && s.ws[w].pc.Free? && s.ws[w].pending.Nil?)
    && (e.disposedLock == Some(w) && u.Some? ==> IsAt(s, u.value, Disposed))
    && (e.timerLock == Some(w) && u.Some? ==> IsAt(s, u.value, Waiting(0)))
  }

  /** The fiber is about to push the call that will read its pair. */
  predicate Leaving(s: State, f: Fid) {
    f < |s.fib| && s.fib[f].place.Running? &&
    var w := s.fib[f].place.w;
    w < |s.ws| && s.ws[w].cur == Fib(f) &&
    match s.ws[w].pc
    case Popped(_, _) => true
    case ToLoop(_) => true
    case Aimed => s.fib[f].top.calls.Push? && !s.fib[f].top.calls.call.Unlock?
    case _ => false
  }

  /** The pair of `f` will still be read. */
  ghost predicate PairLive(s: State, e: Mem, f: Fid) {
    || (f < |s.fib| && s.fib[f].place.Calling?)
    || Leaving(s, f)
    || exists w: Wid :: e.Loc(w).unlocking == Some(f)
  }

  ghost predicate PairOk(s: State, e: Mem, f: Fid) {
    PairLive(s, e, f) ==> e.PairAt(f) == Pair(SCHED, f)
  }

  ghost predicate Agree(s: State, e: Mem) {
    && Inv(s) && |e.locs| == |s.ws| && ListsAgree(s, e)
    && (forall w: Wid :: LocalOk(s, e, w)) && (forall w: Wid :: LockOk(s, e, w)) && (forall f: Fid :: PairOk(s, e, f))
  }

  // ------------------------------------------------------------ the lists

  lemma InList(s: State, head: Node, n: Node)
    requires Inv(s) && n in List(s, head)
    ensures Home(s, n) == Some(head) && Home(s, head) == Some(head)
    ensures n.LinkOf? || n.ThreadOf?
  {
    if head.BatchHead? || head.ThreadHead? {
      InBatchList(s, head, n);
    } else {
      assert head.WaitHead? && head.o < |s.objs| ==> ListAt(s, s.objs[head.o].waiters, Waiting(head.o));
      hide Inv;
      var i :| 0 <= i < |List(s, head)| && List(s, head)[i] == n;
    }
  }

  lemma InBatchList(s: State, head: Node, n: Node)
    requires Inv(s) && n in List(s, head) && (head.BatchHead? || head.ThreadHead?)
    ensures Home(s, n) == Some(head) && Home(s, head) == Some(head)
    ensures n.LinkOf? || n.ThreadOf?
  {
    BatchListsAt(s, head.w);
    hide Inv;
    var i :| 0 <= i < |List(s, head)| && List(s, head)[i] == n;
  }

  lemma BatchListsAt(s: State, w: Wid)
    requires Inv(s)
    ensures ListAt(s, BatchFibers(s, w), Batched(w)) && SeatAt(s, BatchThreads(s, w), Stolen(w))
  {
    if InBatch(s, w) {
      assert AgentOk(s, w);
    }
    hide Inv, CurOk, PendingOk, SeatOk;
  }

  lemma ListDistinct(s: State, head: Node)
    requires Inv(s)
    ensures Distinct(List(s, head)) && head !in List(s, head)
  {
    if head in List(s, head) {
      InList(s, head, head);
    }
    assert head.WaitHead? && head.o < |s.objs| ==> ListAt(s, s.objs[head.o].waiters, Waiting(head.o));
    assert (head.BatchHead? || head.ThreadHead?) && head.w < |s.ws| ==> AgentOk(s, head.w);
    hide Inv, FiberOk, SeatOk, CurOk, PendingOk;
  }

  /** The words of other lists than those with the sentinels in `heads` are as they were. */
  ghost predicate Spared(s: State, m: Links<Node>, m': Links<Node>, heads: set<Node>) {
    forall n :: n in m ==> Home(s, n).Some? && Home(s, n).value !in heads ==> n in m' && m'[n] == m[n]
  }

  /** A list that the step has nothing to do with. */
  lemma ListStays(s: State, e: Mem, s': State, e': Mem, heads: set<Node>, head: Node)
    requires Inv(s) && ListOk(s, e, head) && head !in heads && Spared(s, e.m, e'.m, heads)
    requires Home(s', head) == Some(head) ==> Home(s, head) == Some(head)
    requires List(s', head) == List(s, head)
    requires head.BatchHead? && Home(s', head) == Some(head) ==> e'.Loc(head.w).ix == e.Loc(head.w).ix
    requires head.ThreadHead? && Home(s', head) == Some(head) ==> e'.Loc(head.w).iy == e.Loc(head.w).iy
    ensures ListOk(s', e', head)
  {
    if Home(s', head) == Some(head) {
      forall n | n in e.m && (n in List(s, head) || n == head)
        ensures n in e'.m && e'.m[n] == e.m[n]
      {
        if n in List(s, head) {
          InList(s, head, n);
        }
      }
      hide Inv;
      match head
      case BatchHead(w) => WalkStays(e.m, e'.m, head, List(s, head), e.Loc(w).ix);
      case ThreadHead(w) => WalkStays(e.m, e'.m, head, List(s, head), e.Loc(w).iy);
      case LinkOf(_) =>
      case ThreadOf(_) =>
      case _ => CircleStays(e.m, e'.m, head, List(s, head));
    }
  }

  /** Changes beside the nodes of one list, and of nodes of no list, spare the others. */
  lemma BesideSpares(s: State, m: Links<Node>, m': Links<Node>, head: Node, more: seq<Node>)
    requires Inv(s) && Beside(m, m', head, List(s, head) + more) && !head.LinkOf? && !head.ThreadOf?
    requires forall n :: n in more ==> Home(s, n).None?
    ensures Spared(s, m, m', {head})
  {
    forall n | n in m && Home(s, n).Some? && Home(s, n).value != head
      ensures n in m' && m'[n] == m[n]
    {
      if n in List(s, head) + more {
        assert n in List(s, head) || n in more;
        if n in List(s, head) {
          InList(s, head, n);
        }
      }
    }
  }

  // ------------------------------------------------------------ taking and putting one fiber or thread

  lemma PopLists(s: State, e: Mem, s': State, e': Mem, head: Node)
    requires Inv(s) && ListsAgree(s, e) && List(s, head) != [] && !head.BatchHead? && !head.ThreadHead?
    requires e'.m == PopHead(e.m, head) && List(s', head) == List(s, head)[1..] && OnlyList(s, e, s', e', {head})
    ensures ListsAgree(s', e') && Next(e.m, head) == List(s, head)[0]
  {
    InList(s, head, List(s, head)[0]);
    assert ListOk(s, e, head);
    PopHeadOk(e.m, head, List(s, head));
    assert List(s, head) + [] == List(s, head);
    BesideSpares(s, e.m, e'.m, head, []);
    forall h
      ensures ListOk(s', e', h)
    {
      assert ListOk(s, e, h);
      if h != head {
        ListStays(s, e, s', e', {head}, h);
      }
    }
  }

  /** As the machine has it, the step changes only the lists with the sentinels in `heads`, and
      only walks through those. */
  ghost predicate OnlyList(s: State, e: Mem, s': State, e': Mem, heads: set<Node>) {
    forall h :: h !in heads ==> SameList(s, e, s', e', h)
  }

  ghost predicate SameList(s: State, e: Mem, s': State, e': Mem, h: Node) {
    && List(s', h) == List(s, h) && (Home(s', h) == Some(h) ==> Home(s, h) == Some(h))
    && (h.BatchHead? && Home(s', h) == Some(h) ==> e'.Loc(h.w).ix == e.Loc(h.w).ix)
    && (h.ThreadHead? && Home(s', h) == Some(h) ==> e'.Loc(h.w).iy == e.Loc(h.w).iy)
  }

  lemma AddLists(s: State, e: Mem, s': State, e': Mem, head: Node, k: nat, x: Node)
    requires Inv(s) && ListsAgree(s, e) && Home(s, head) == Some(head) && !head.BatchHead? && !head.ThreadHead?
    requires Home(s, x).None? && (x.LinkOf? || x.ThreadOf?) && !head.LinkOf? && !head.ThreadOf?
    requires k <= |List(s, head)| && e'.m == AddAfter(e.m, Stop(head, List(s, head), k), x)
    requires List(s', head) == Insert(List(s, head), k, x) && OnlyList(s, e, s', e', {head})
    ensures ListsAgree(s', e')
  {
    assert ListOk(s, e, head);
    if x in List(s, head) {
      InList(s, head, x);
    }
    AddAfterOk(e.m, head, List(s, head), k, Stop(head, List(s, head), k), x);
    BesideSpares(s, e.m, e'.m, head, [x]);
    forall h
      ensures ListOk(s', e', h)
    {
      assert ListOk(s, e, h);
      if h != head {
        ListStays(s, e, s', e', {head}, h);
      }
    }
  }

  lemma AppendLists(s: State, e: Mem, s': State, e': Mem, head: Node, x: Node)
    requires Inv(s) && ListsAgree(s, e) && Home(s, head) == Some(head) && !head.BatchHead? && !head.ThreadHead?
    requires Home(s, x).None? && (x.LinkOf? || x.ThreadOf?) && !head.LinkOf? && !head.ThreadOf?
    requires e'.m == AddTail(e.m, head, x)
    requires List(s', head) == List(s, head) + [x] && OnlyList(s, e, s', e', {head})
    ensures ListsAgree(s', e')
  {
    assert ListOk(s, e, head);
    Ends(e.m, head, List(s, head));
    assert Insert(List(s, head), |List(s, head)|, x) == List(s, head) + [x];
    AddLists(s, e, s', e', head, |List(s, head)|, x);
  }

  // ------------------------------------------------------------ what a step leaves alone

  /** Beside agent `w` nobody moves, and no lock changes hands. */
  ghost predicate Calm(s: State, e: Mem, s': State, e': Mem, w: Wid) {
    && |s'.ws| == |s.ws| && |e'.locs| == |e.locs| && e'.disposedLock == e.disposedLock && e'.timerLock == e.timerLock
    && (forall v: Wid :: v < |s.ws| && v != w ==>
          s'.ws[v].pc == s.ws[v].pc && s'.ws[v].pending == s.ws[v].pending && s'.ws[v].cur == s.ws[v].cur)
    && (forall v: Wid :: v != w ==> e'.Loc(v) == e.Loc(v)) && e'.Loc(w).unlocking == e.Loc(w).unlocking
  }

  /** Who is on a list whose lock is held stays on it. */
  ghost predicate KeepsLocked(s: State, e: Mem, s': State) {
    && (e.disposedLock.Some? ==> forall f :: f in s.disposed ==> f in s'.disposed)
    && (e.timerLock.Some? ==>
          s.objs != [] && s'.objs != [] && forall f :: f in s.objs[0].waiters ==> f in s'.objs[0].waiters)
  }

  /** A pair that is about to be read is good, and only running fibers write theirs. */
  ghost predicate PairStep(s: State, e: Mem, s': State, e': Mem, f: Fid) {
    && (f < |s'.fib| && s'.fib[f].place.Calling? ==> e'.PairAt(f) == Pair(SCHED, f))
    && (Leaving(s', f) ==> e'.PairAt(f) == Pair(SCHED, f))
    && (e'.PairAt(f) == e.PairAt(f) || (f < |s.fib| && s.fib[f].place.Running?))
  }

  lemma StillAt(s: State, s': State, f: Fid)
    requires Inv(s) && Inv(s')
    ensures IsAt(s, f, Disposed) && (f in s.disposed ==> f in s'.disposed) ==> IsAt(s', f, Disposed)
    ensures IsAt(s, f, Waiting(0)) && s'.objs != [] && (s.objs != [] ==> f in s.objs[0].waiters ==> f in s'.objs[0].waiters) ==>
              IsAt(s', f, Waiting(0))
  {
    assert f < |s.fib| ==> FiberOk(s, f);
    assert s'.objs != [] ==> ListAt(s', s'.objs[0].waiters, Waiting(0));
  }

  lemma LocksStay(s: State, e: Mem, s': State, e': Mem, w: Wid, v: Wid)
    requires Agree(s, e) && Inv(s') && Calm(s, e, s', e', w) && KeepsLocked(s, e, s') && w < |s.ws|
    requires e.Loc(w).unlocking.None?
    ensures LockOk(s', e', v)
  {
    assert LockOk(s, e, v) && LockOk(s, e, w);
    if e.Loc(v).unlocking.Some? {
      StillAt(s, s', e.Loc(v).unlocking.value);
    }
  }

  lemma PairStays(s: State, e: Mem, s': State, e': Mem, w: Wid, f: Fid)
    requires Agree(s, e) && Calm(s, e, s', e', w) && PairStep(s, e, s', e', f)
    ensures PairOk(s', e', f)
  {
    assert PairOk(s, e, f);
    if v: Wid :| e'.Loc(v).unlocking == Some(f) {
      assert e.Loc(v).unlocking == Some(f) && LockOk(s, e, v);
    }
  }

  lemma Assemble(s: State, e: Mem, s': State, e': Mem, w: Wid)
    requires Agree(s, e) && Inv(s') && ListsAgree(s', e') && Calm(s, e, s', e', w) && KeepsLocked(s, e, s')
    requires w < |s.ws| && e.Loc(w).unlocking.None? && LocalOk(s', e', w) && forall f: Fid :: PairStep(s, e, s', e', f)
    ensures Agree(s', e')
  {
    forall v: Wid
      ensures LocalOk(s', e', v) && LockOk(s', e', v)
    {
      assert LocalOk(s, e, v);
      LocksStay(s, e, s', e', w, v);
    }
    hide LockOk, LocalOk, Inv, ListsAgree;
    forall f: Fid
      ensures PairOk(s', e', f)
    {
      PairStays(s, e, s', e', w, f);
    }
  }

  /** Only the lists named may change, by the fields of the machine. */
  ghost predicate Fields(s: State, e: Mem, s': State, e': Mem, w: Wid, heads: set<Node>) {
    && |s'.objs| == |s.objs|
    && (QueueHead in heads || s'.queue == s.queue)
    && (IdleHead in heads || s'.idle == s.idle)
    && (DisposedHead in heads || s'.disposed == s.disposed)
    && (forall o :: 0 <= o < |s.objs| ==> WaitHead(o) in heads || s'.objs[o].waiters == s.objs[o].waiters)
    && (BatchHead(w) in heads || BatchFibers(s', w) == BatchFibers(s, w))
    && (ThreadHead(w) in heads || BatchThreads(s', w) == BatchThreads(s, w))
    && (InBatch(s', w) ==> InBatch(s, w) || (BatchHead(w) in heads && ThreadHead(w) in heads))
    && (BatchHead(w) in heads || !InBatch(s', w) || e'.Loc(w).ix == e.Loc(w).ix)
    && (ThreadHead(w) in heads || !InBatch(s', w) || e'.Loc(w).iy == e.Loc(w).iy)
  }

  lemma OtherBatches(s: State, e: Mem, s': State, e': Mem, w: Wid, v: Wid)
    requires Calm(s, e, s', e', w) && v != w
    ensures BatchFibers(s', v) == BatchFibers(s, v) && BatchThreads(s', v) == BatchThreads(s, v) && InBatch(s', v) == InBatch(s, v)
  {}

  lemma FieldSame(s: State, e: Mem, s': State, e': Mem, w: Wid, heads: set<Node>, h: Node)
    requires Calm(s, e, s', e', w) && Fields(s, e, s', e', w, heads) && h !in heads
    ensures SameList(s, e, s', e', h)
  {
    if (h.BatchHead? || h.ThreadHead?) && h.w != w {
      OtherBatches(s, e, s', e', w, h.w);
    }
    hide BatchFibers, BatchThreads, InBatch;
  }

  lemma FieldsSame(s: State, e: Mem, s': State, e': Mem, w: Wid, heads: set<Node>)
    requires Calm(s, e, s', e', w) && Fields(s, e, s', e', w, heads)
    ensures OnlyList(s, e, s', e', heads)
  {
    hide Calm, Fields, SameList;
    forall h | h !in heads
      ensures SameList(s, e, s', e', h)
    {
      FieldSame(s, e, s', e', w, heads, h);
    }
  }

  /** No list is touched. */
  lemma StillLists(s: State, e: Mem, s': State, e': Mem, w: Wid)
    requires Inv(s) && ListsAgree(s, e) && Calm(s, e, s', e', w) && Fields(s, e, s', e', w, {}) && e'.m == e.m
    ensures ListsAgree(s', e')
  {
    FieldsSame(s, e, s', e', w, {});
    hide Inv, Calm, Fields;
    forall h
      ensures ListOk(s', e', h)
    {
      assert ListOk(s, e, h) && SameList(s, e, s', e', h);
      ListStays(s, e, s', e', {}, h);
    }
  }

  // ------------------------------------------------------------ what every step does

  /** Of the other agents and the objects. */
  ghost predicate CalmStep(s: State, s': State, w: Wid) {
    && |s'.ws| == |s.ws| && |s'.objs| == |s.objs|
    && forall v: Wid :: v < |s.ws| && v != w ==>
         s'.ws[v].pc == s.ws[v].pc && s'.ws[v].pending == s.ws[v].pending && s'.ws[v].cur == s.ws[v].cur
  }

  ghost predicate KeepsDisposed(s: State, s': State) {
    forall f :: f in s.disposed ==> f in s'.disposed
  }

  ghost predicate KeepsTimer(s: State, s': State) {
    s.objs != [] ==> s'.objs != [] && forall f :: f in s.objs[0].waiters ==> f in s'.objs[0].waiters
  }

  ghost predicate Mild(s: State, s': State, w: Wid) {
    CalmStep(s, s', w) && KeepsDisposed(s, s') && KeepsTimer(s, s')
  }

  lemma NothingMild(s: State, w: Wid)
    ensures Mild(s, s, w)
  {}

  lemma CallMild(s: State, w: Wid, f: Fid, o: Oid)
    requires w < |s.ws|
    ensures Mild(s, UnlockCall(s, w, o), w) && Mild(s, EnqueueCall(s, w, f), w)
  {}

  lemma TimerAddMild(s: State, w: Wid, f: Fid, k: nat)
    requires w < |s.ws|
    ensures Mild(s, TimerAddCall(s, w, f, k), w)
  {
    if s.objs != [] {
      var l := s.objs[0].waiters;
      var at := if k <= |l| then k else |l|;
      assert l == l[..at] + l[at..];
    }
  }

  lemma RecycleMild(s: State, w: Wid, f: Fid)
    requires w < |s.ws|
    ensures Mild(s, RecycleCall(s, w, f), w)
  {}

  lemma BlockMild(s: State, w: Wid, f: Fid, o: Oid)
    requires w < |s.ws|
    ensures Mild(s, BlockOn(s, w, f, o), w) && Mild(s, TakeWaiters(s, w, o), w)
  {}

  lemma PopMild(s: State, w: Wid, o: Oid, f: Fid, to: bool)
    requires w < |s.ws|
    ensures Mild(s, PopWaiter(s, w, o, f, to), w)
  {}

  lemma LeaveMild(s: State, w: Wid, call: Call)
    requires w < |s.ws|
    ensures Mild(s, Leave(s, w, call), w)
    ensures CalmStep(s, TakeBlock(s, w), w) && KeepsTimer(s, TakeBlock(s, w))
  {}

  lemma ExpireMild(s: State, w: Wid, k: nat)
    requires w < |s.ws|
    ensures CalmStep(s, Expire(s, w, k), w) && KeepsDisposed(s, Expire(s, w, k))
  {}

  lemma LoopTurnMild(s: State, w: Wid)
    requires w < |s.ws|
    ensures Mild(s, LoopTurn(s, w), w)
  {}

  lemma WorkerMild(s: State, w: Wid, f: Fid)
    requires w < |s.ws|
    ensures Mild(s, SemaphoreWait(s, w), w) && Mild(s, SwitchFromLoop(s, w), w) && Mild(s, LoopRead(s, w, f), w)
  {}

  lemma EnqueueMild(s: State, w: Wid, f: Fid)
    requires w < |s.ws|
    ensures Mild(s, EnqueueRegion(s, w, f), w)
  {}

  lemma HandMild(s: State, w: Wid, f: Fid, th: Wid, next: Pc)
    requires w < |s.ws|
    ensures Mild(s, WriteSlot(s, w, f, th, next), w) && Mild(s, SignalThread(s, w, th, next), w)
  {}

  lemma BatchMild(s: State, w: Wid, fs: seq<Fid>, ths: seq<Wid>)
    requires w < |s.ws|
    ensures Mild(s, BatchStep(s, w, fs, ths), w)
  {
    if fs != [] && ths != [] {
      HandMild(s, w, fs[0], ths[0], BatchSignal(ths[0], fs[1..], ths[1..]));
    }
    hide WriteSlot;
  }

  lemma SwitchMild(s: State, w: Wid, t: Top, call: Call, f: Fid)
    requires w < |s.ws|
    ensures Mild(s, AimAt(s, w, t, call), w) && Mild(s, SwitchFromFiber(s, w, f), w) && Mild(s, Build(s, w), w)
  {}

  lemma FreeMild(s: State, e: Mem, w: Wid, a: Act)
    requires w < |s.ws| && s.ws[w].pc.Free? && s.objs != []
    ensures CalmStep(s, FreeStep(s, w, a), w) && (!Waits(s, e, w, a) ==> KeepsLocked(s, e, FreeStep(s, w, a)))
  {
    var me, k := s.ws[w], if a.At? then a.k else 0;
    NothingMild(s, w);
    if me.pending.Push? {
      match me.pending.call
      case Unlock(o) => CallMild(s, w, 0, o);
      case Enqueue(f) => CallMild(s, w, f, 0);
      case TimerAdd(f) => TimerAddMild(s, w, f, k);
      case Recycle(f) => RecycleMild(s, w, f);
    } else if me.cur.Loop? {
      ExpireMild(s, w, k);
      LoopTurnMild(s, w);
    } else {
      match a
      case Block(o) => BlockMild(s, w, me.cur.f, o);
      case WakeAll(o) => BlockMild(s, w, me.cur.f, o);
      case WakeOne(o) => PopMild(s, w, o, me.cur.f, false);
      case Handoff(o) => PopMild(s, w, o, me.cur.f, true);
      case Yield => LeaveMild(s, w, Enqueue(me.cur.f));
      case Sleep => LeaveMild(s, w, TimerAdd(me.cur.f));
      case Exit => LeaveMild(s, w, Recycle(me.cur.f));
      case Spawn => LeaveMild(s, w, Enqueue(0));
      case At(_) =>
    }
    hide CalmStep, UnlockCall, EnqueueCall, TimerAddCall, RecycleCall, Expire, LoopTurn, BlockOn, PopWaiter, TakeWaiters, Leave, TakeBlock;
  }

  lemma StepMild(s: State, e: Mem, w: Wid, a: Act)
    requires w < |s.ws| && s.objs != []
    ensures CalmStep(s, Step(s, w, a), w) && (!Waits(s, e, w, a) ==> KeepsLocked(s, e, Step(s, w, a)))
  {
    hide CalmStep, Waits, FreeStep, SemaphoreWait, SwitchFromLoop, LoopRead, AimAt, SwitchFromFiber, Build, EnqueueRegion, WriteSlot,
      SignalThread, BatchStep;
    var me := s.ws[w];
    NothingMild(s, w);
    match me.pc
    case Free => FreeMild(s, e, w, a);
    case Parked => WorkerMild(s, w, 0);
    case Awake => WorkerMild(s, w, 0);
    case LoopPopped(f) => WorkerMild(s, w, f);
    case Publishing(o) => SwitchMild(s, w, me.slot, Unlock(o), 0);
    case Popped(g, call) => SwitchMild(s, w, s.TopOf(g), call, 0);
    case ToLoop(call) => SwitchMild(s, w, me.slot, call, 0);
    case Aimed => SwitchMild(s, w, me.slot, Unlock(0), if me.cur.Fib? then me.cur.f else 0);
    case Building => SwitchMild(s, w, me.slot, Unlock(0), 0);
    case Waking(f) => EnqueueMild(s, w, f);
    case Giving(f, th) => HandMild(s, w, f, th, Signalling(th));
    case Signalling(th) => HandMild(s, w, 0, th, Free);
    case Batch(fs, ths) => BatchMild(s, w, fs, ths);
    case BatchSignal(th, fs, ths) => HandMild(s, w, 0, th, Batch(fs, ths));
  }

  lemma SameThreads(s: State, w: Wid, a: Act)
    requires w < |s.ws| && s.objs != []
    ensures |Step(s, w, a).ws| == |s.ws|
  {
    StepMild(s, InitMem(0, 0), w, a);
  }

  /** Of the words and pointers of others. */
  ghost predicate CalmMem(e: Mem, e': Mem, w: Wid) {
    && |e'.locs| == |e.locs| && e'.disposedLock == e.disposedLock && e'.timerLock == e.timerLock
    && (forall v: Wid :: v != w ==> e'.Loc(v) == e.Loc(v)) && e'.Loc(w).unlocking == e.Loc(w).unlocking
  }

  lemma CodeCalm(s: State, e: Mem, w: Wid, a: Act, f: Fid)
    requires w < |e.locs|
    ensures CalmMem(e, CodeMem(s, e, w, a, f), w)
  {
    hide PopHead, AddTail, MoveAll, Join, Next;
  }

  lemma BatchCalm(e: Mem, w: Wid)
    requires w < |e.locs|
    ensures CalmMem(e, BatchMem(e, w), w) && CalmMem(e, EnqueueMem(e, w), w) && CalmMem(e, LoopTurnMem(e, w), w)
  {
    hide PopHead, AddTail, MoveAll, AppendAll, PrependAll, Join, Next;
  }

  lemma CallCalm(s: State, e: Mem, w: Wid, call: Call, k: nat)
    requires w < |e.locs|
    ensures CalmMem(e, CallMem(s, e, w, call, k), w) && CalmMem(e, ExpireMem(s, e, w, k), w)
    ensures CalmMem(e, e, w) && CalmMem(e, e.Got(w, LinkOf(|s.fib|)), w)
  {
    hide AddTail, AddAfter, MoveAll, MoveBefore, Join, Walked, Next, TimerPlace;
  }

  lemma MemCalm(s: State, e: Mem, w: Wid, a: Act)
    requires w < |s.ws| == |e.locs|
    ensures CalmMem(e, MemStep(s, e, w, a), w)
  {
    hide CalmMem, CodeMem, BatchMem, EnqueueMem, LoopTurnMem, CallMem, ExpireMem;
    var me := s.ws[w];
    CallCalm(s, e, w, Unlock(0), 0);
    match me.pc
    case Free => FreeCalm(s, e, w, a);
    case Waking(_) => BatchCalm(e, w);
    case Batch(_, _) => BatchCalm(e, w);
    case _ =>
  }

  lemma FreeCalm(s: State, e: Mem, w: Wid, a: Act)
    requires w < |s.ws| == |e.locs|
    ensures CalmMem(e, FreeMem(s, e, w, a), w)
  {
    hide CalmMem, CodeMem, LoopTurnMem, CallMem, ExpireMem;
    var me, k := s.ws[w], if a.At? then a.k else 0;
    if me.pending.Push? {
      CallCalm(s, e, w, me.pending.call, k);
    } else if me.cur.Loop? {
      CallCalm(s, e, w, Unlock(0), k);
      BatchCalm(e, w);
    } else {
      CodeCalm(s, e, w, a, me.cur.f);
    }
  }

  /** A fiber comes to a deferred call, or on the way to it, only by going there. */
  ghost predicate Goes(s: State, s': State, w: Wid, f: Fid) {
    && (f < |s'.fib| && s'.fib[f].place.Calling? ==> (f < |s.fib| && s.fib[f].place.Calling?) || Leaving(s, f))
    && (Leaving(s', f) ==> Leaving(s, f) || (Readies(s', w) && w < |s.ws| && s.ws[w].pc.Free? && s.ws[w].cur == Fib(f)))
  }

  predicate Readies(s': State, w: Wid) {
    w < |s'.ws| && (s'.ws[w].pc.Popped? || s'.ws[w].pc.ToLoop?)
  }

  lemma NothingGoes(s: State, w: Wid, f: Fid)
    requires w < |s.ws|
    ensures Goes(s, s, w, f)
  {}

  lemma CallGoes(s: State, w: Wid, g: Fid, o: Oid, f: Fid)
    requires w < |s.ws| && s.ws[w].pc.Free?
    ensures Goes(s, UnlockCall(s, w, o), w, f) && Goes(s, EnqueueCall(s, w, g), w, f)
  {}

  lemma LockedGoes(s: State, w: Wid, g: Fid, k: nat, f: Fid)
    requires w < |s.ws| && s.ws[w].pc.Free?
    ensures Goes(s, TimerAddCall(s, w, g, k), w, f) && Goes(s, RecycleCall(s, w, g), w, f)
  {}

  lemma BlockGoes(s: State, w: Wid, g: Fid, o: Oid, f: Fid)
    requires w < |s.ws| && s.ws[w].pc.Free?
    ensures Goes(s, BlockOn(s, w, g, o), w, f) && Goes(s, TakeWaiters(s, w, o), w, f)
  {}

  lemma PopGoes(s: State, w: Wid, g: Fid, o: Oid, to: bool, f: Fid)
    requires w < |s.ws| && s.ws[w].pc.Free?
    ensures Goes(s, PopWaiter(s, w, o, g, to), w, f)
  {}

  lemma LeaveGoes(s: State, w: Wid, call: Call, f: Fid)
    requires w < |s.ws| && s.ws[w].pc.Free?
    ensures Goes(s, Leave(s, w, call), w, f) && Goes(s, TakeBlock(s, w), w, f)
  {}

  lemma LoopGoes(s: State, w: Wid, k: nat, f: Fid)
    requires w < |s.ws| && s.ws[w].pc.Free?
    ensures Goes(s, Expire(s, w, k), w, f)
  {}

  lemma TurnGoes(s: State, w: Wid, f: Fid)
    requires w < |s.ws| && s.ws[w].pc.Free?
    ensures Goes(s, LoopTurn(s, w), w, f)
  {}

  lemma WorkerGoes(s: State, w: Wid, g: Fid, f: Fid)
    requires w < |s.ws|
    ensures Goes(s, SemaphoreWait(s, w), w, f) && Goes(s, SwitchFromLoop(s, w), w, f) && Goes(s, LoopRead(s, w, g), w, f)
  {}

  lemma EnqueueGoes(s: State, w: Wid, g: Fid, f: Fid)
    requires w < |s.ws|
    ensures Goes(s, EnqueueRegion(s, w, g), w, f) && Goes(s, Build(s, w), w, f)
  {}

  lemma HandGoes(s: State, w: Wid, g: Fid, th: Wid, next: Pc, f: Fid)
    requires w < |s.ws| && (next.Signalling? || next.BatchSignal?)
    ensures Goes(s, WriteSlot(s, w, g, th, next), w, f)
  {}

  lemma SignalGoes(s: State, w: Wid, th: Wid, next: Pc, f: Fid)
    requires w < |s.ws| && (next.Free? || next.Batch?)
    ensures Goes(s, SignalThread(s, w, th, next), w, f)
  {}

  lemma BatchGoes(s: State, w: Wid, fs: seq<Fid>, ths: seq<Wid>, f: Fid)
    requires w < |s.ws|
    ensures Goes(s, BatchStep(s, w, fs, ths), w, f)
  {
    if fs != [] && ths != [] {
      HandGoes(s, w, fs[0], ths[0], BatchSignal(ths[0], fs[1..], ths[1..]), f);
    }
    hide WriteSlot;
  }

  lemma AimGoes(s: State, w: Wid, t: Top, call: Call, f: Fid)
    requires w < |s.ws| && CurOk(s, w) && (Readies(s, w) || (s.ws[w].pc.Publishing? && call.Unlock?))
    ensures Goes(s, AimAt(s, w, t, call), w, f)
  {}

  lemma SwitchGoes(s: State, w: Wid, f: Fid)
    requires w < |s.ws| && s.ws[w].pc.Aimed? && s.ws[w].cur.Fib? && AimedOk(s, w, s.ws[w].cur.f)
    ensures Goes(s, SwitchFromFiber(s, w, s.ws[w].cur.f), w, f)
  {}

  lemma FreeGoes(s: State, w: Wid, a: Act, f: Fid)
    requires w < |s.ws| && s.ws[w].pc.Free?
    ensures Goes(s, FreeStep(s, w, a), w, f)
  {
    hide Goes, UnlockCall, EnqueueCall, TimerAddCall, RecycleCall, Expire, LoopTurn, BlockOn, PopWaiter, TakeWaiters, Leave, TakeBlock;
    var me, k := s.ws[w], if a.At? then a.k else 0;
    NothingGoes(s, w, f);
    if me.pending.Push? {
      match me.pending.call
      case Unlock(o) => CallGoes(s, w, 0, o, f);
      case Enqueue(g) => CallGoes(s, w, g, 0, f);
      case TimerAdd(g) => LockedGoes(s, w, g, k, f);
      case Recycle(g) => LockedGoes(s, w, g, k, f);
    } else if me.cur.Loop? {
      LoopGoes(s, w, k, f);
      TurnGoes(s, w, f);
    } else {
      match a
      case Block(o) => BlockGoes(s, w, me.cur.f, o, f);
      case WakeAll(o) => BlockGoes(s, w, me.cur.f, o, f);
      case WakeOne(o) => PopGoes(s, w, me.cur.f, o, false, f);
      case Handoff(o) => PopGoes(s, w, me.cur.f, o, true, f);
      case Yield => LeaveGoes(s, w, Enqueue(me.cur.f), f);
      case Sleep => LeaveGoes(s, w, TimerAdd(me.cur.f), f);
      case Exit => LeaveGoes(s, w, Recycle(me.cur.f), f);
      case Spawn => LeaveGoes(s, w, Enqueue(0), f);
      case At(_) =>
    }
  }

  lemma StepGoes(s: State, w: Wid, a: Act, f: Fid)
    requires w < |s.ws| && AgentOk(s, w)
    ensures Goes(s, Step(s, w, a), w, f)
  {
    hide Goes, FreeStep, SemaphoreWait, SwitchFromLoop, LoopRead, AimAt, SwitchFromFiber, Build, EnqueueRegion, WriteSlot,
      SignalThread, BatchStep, CurOk, SeatOk, AimedOk;
    var me := s.ws[w];
    match me.pc
    case Free => FreeGoes(s, w, a, f);
    case Parked => WorkerGoes(s, w, 0, f);
    case Awake => WorkerGoes(s, w, 0, f);
    case LoopPopped(g) => WorkerGoes(s, w, g, f);
    case Publishing(o) => AimGoes(s, w, me.slot, Unlock(o), f);
    case Popped(g, call) => AimGoes(s, w, s.TopOf(g), call, f);
    case ToLoop(call) => AimGoes(s, w, me.slot, call, f);
    case Aimed => SwitchGoes(s, w, f);
    case Building => EnqueueGoes(s, w, 0, f);
    case Waking(g) => EnqueueGoes(s, w, g, f);
    case Giving(g, th) => HandGoes(s, w, g, th, Signalling(th), f);
    case Signalling(th) => SignalGoes(s, w, th, Free, f);
    case Batch(fs, ths) => BatchGoes(s, w, fs, ths, f);
    case BatchSignal(th, fs, ths) => SignalGoes(s, w, th, Batch(fs, ths), f);
  }

  // ------------------------------------------------------------ what is read

  /** What a thread finds at a shared list's sentinel. */
  ghost predicate HeadOk(s: State, e: Mem, head: Node) {
    && (Empty(e, head) <==> List(s, head) == [])
    && (List(s, head) != [] ==> Next(e.m, head) == List(s, head)[0])
  }

  lemma HeadIs(s: State, e: Mem, head: Node)
    requires ListsAgree(s, e) && Home(s, head) == Some(head)
    requires head.QueueHead? || head.IdleHead? || head.DisposedHead? || head.WaitHead?
    ensures HeadOk(s, e, head) && Circle(e.m, head, List(s, head))
  {
    assert ListOk(s, e, head);
    Ends(e.m, head, List(s, head));
  }

  /** The shared lists of the scheduler always have their sentinels. */
  lemma SchedHeads(s: State, e: Mem)
    requires ListsAgree(s, e)
    ensures HeadOk(s, e, QueueHead) && Circle(e.m, QueueHead, List(s, QueueHead)) && (List(s, QueueHead) == [] <==> s.queue == [])
    ensures HeadOk(s, e, IdleHead) && Circle(e.m, IdleHead, List(s, IdleHead)) && (List(s, IdleHead) == [] <==> s.idle == [])
    ensures HeadOk(s, e, DisposedHead) && Circle(e.m, DisposedHead, List(s, DisposedHead))
    ensures List(s, DisposedHead) == [] <==> s.disposed == []
  {
    HeadIs(s, e, QueueHead);
    HeadIs(s, e, IdleHead);
    HeadIs(s, e, DisposedHead);
  }

  lemma WaitEmpty(s: State, o: Oid)
    requires o < |s.objs|
    ensures List(s, WaitHead(o)) == [] <==> s.objs[o].waiters == []
  {}

  lemma CodePairs(s: State, e: Mem, w: Wid, a: Act, g: Fid, f: Fid)
    requires w < |e.locs|
    ensures f != g ==> CodeMem(s, e, w, a, g).PairAt(f) == e.PairAt(f)
    ensures
      || CodeMem(s, e, w, a, g).PairAt(g) == Pair(SCHED, g)
      || (a.Handoff? && (!Unlocked(s, a.o) || Empty(e, WaitHead(a.o)))) || (a.Yield? && Empty(e, QueueHead))
      || !(a.Handoff? || a.Yield? || a.Sleep? || a.Exit?)
  {
    hide PopHead, AddTail, MoveAll, Join, Next;
  }

  lemma OtherPairs(s: State, e: Mem, w: Wid, a: Act)
    requires w < |s.ws| == |e.locs| && !InCode(s, w)
    ensures MemStep(s, e, w, a).pairs == e.pairs
  {
    hide PopHead, AddTail, AddAfter, MoveAll, MoveBefore, AppendAll, PrependAll, Join, Walked, Next, TimerPlace, CodeMem;
  }

  lemma CodeReadies(s: State, w: Wid, a: Act)
    requires InCode(s, w) && Readies(FreeStep(s, w, a), w)
    ensures a.Handoff? || a.Yield? || a.Sleep? || a.Exit?
    ensures a.Handoff? ==> Unlocked(s, a.o) && s.objs[a.o].waiters != []
    ensures a.Yield? ==> s.queue != []
  {}

  lemma CallReadies(s: State, w: Wid, a: Act)
    requires w < |s.ws| && s.ws[w].pc.Free? && !InCode(s, w)
    ensures !Readies(FreeStep(s, w, a), w)
  {}

  lemma PairSteps(s: State, e: Mem, w: Wid, a: Act, f: Fid)
    requires Inv(s) && ListsAgree(s, e) && PairOk(s, e, f) && w < |s.ws| == |e.locs|
    ensures PairStep(s, e, Step(s, w, a), MemStep(s, e, w, a), f)
  {
    var s', e' := Step(s, w, a), MemStep(s, e, w, a);
    assert AgentOk(s, w);
    StepGoes(s, w, a, f);
    if InCode(s, w) {
      var g := s.ws[w].cur.f;
      CodePairs(s, e, w, a, g, f);
      assert s.fib[g].place == Running(w) && !Leaving(s, g) && e' == CodeMem(s, e, w, a, g) && s' == FreeStep(s, w, a);
      if Readies(s', w) {
        CodeReadies(s, w, a);
        HeadIs(s, e, QueueHead);
        if a.Handoff? {
          HeadIs(s, e, WaitHead(a.o));
        }
      }
      hide Inv, ListsAgree, Step, FreeStep, CodeMem, AgentOk, Leaving;
    } else {
      OtherPairs(s, e, w, a);
      if s.ws[w].pc.Free? {
        CallReadies(s, w, a);
      }
      hide Inv, ListsAgree, Step, MemStep, AgentOk, Leaving;
    }
  }

  // ------------------------------------------------------------ the local pointers

  lemma LeaveLocal(s: State, e: Mem, w: Wid, call: Call, f: Fid)
    requires ListsAgree(s, e) && InCode(s, w) && w < |e.locs|
    ensures LocalOk(Leave(s, w, call), LeaveMem(e, w, f), w)
  {
    HeadIs(s, e, QueueHead);
    hide ListsAgree, PopHead, Next;
  }

  lemma WakeLocal(s: State, e: Mem, w: Wid, a: Act, o: Oid, f: Fid)
    requires ListsAgree(s, e) && InCode(s, w) && w < |e.locs| && (a == WakeOne(o) || a == Handoff(o))
    ensures LocalOk(PopWaiter(s, w, o, f, a.Handoff?), CodeMem(s, e, w, a, f), w)
  {
    if Unlocked(s, o) {
      HeadIs(s, e, WaitHead(o));
    }
    hide ListsAgree, PopHead, Next;
  }

  lemma OtherCodeLocal(s: State, e: Mem, w: Wid, o: Oid, f: Fid, e': Mem)
    requires InCode(s, w)
    ensures LocalOk(BlockOn(s, w, f, o), e', w) && LocalOk(TakeWaiters(s, w, o), e', w) && LocalOk(TakeBlock(s, w), e', w)
    ensures LocalOk(s, e', w)
  {}

  lemma CodeLocal(s: State, e: Mem, w: Wid, a: Act)
    requires ListsAgree(s, e) && InCode(s, w) && w < |e.locs|
    ensures LocalOk(FreeStep(s, w, a), CodeMem(s, e, w, a, s.ws[w].cur.f), w)
  {
    var f, e' := s.ws[w].cur.f, CodeMem(s, e, w, a, s.ws[w].cur.f);
    HeadIs(s, e, QueueHead);
    hide ListsAgree, LocalOk, BlockOn, PopWaiter, TakeWaiters, Leave, TakeBlock, LeaveMem, TakeMem, Pop;
    OtherCodeLocal(s, e, w, 0, f, e');
    match a
    case Block(o) => OtherCodeLocal(s, e, w, o, f, e');
    case WakeAll(o) => OtherCodeLocal(s, e, w, o, f, e');
    case WakeOne(o) => WakeLocal(s, e, w, a, o, f);
    case Handoff(o) => WakeLocal(s, e, w, a, o, f);
    case Yield => LeaveLocal(s, e, w, Enqueue(f), f);
    case Sleep => LeaveLocal(s, e, w, TimerAdd(f), f);
    case Exit => LeaveLocal(s, e, w, Recycle(f), f);
    case Spawn =>
    case At(_) =>
  }

  lemma LoopLocal(s: State, e: Mem, w: Wid)
    requires ListsAgree(s, e) && w < |s.ws| == |e.locs|
    ensures LocalOk(LoopTurn(s, w), LoopTurnMem(e, w), w)
  {
    HeadIs(s, e, QueueHead);
    hide ListsAgree, PopHead, AddTail, Next;
  }

  lemma ExpireLocal(s: State, e: Mem, w: Wid, k: nat)
    requires w < |s.ws| == |e.locs| && s.ws[w].pc.Free?
    ensures LocalOk(Expire(s, w, k), ExpireMem(s, e, w, k), w)
  {
    hide ExpireMem;
  }

  lemma CallLocal(s: State, e: Mem, w: Wid, call: Call, k: nat)
    requires w < |s.ws| == |e.locs| && InCall(s, w, call) && PendingOk(s, w) && forall f: Fid :: PairOk(s, e, f)
    ensures LocalOk(FreeStep(s, w, At(k)), CallMem(s, e, w, call, k), w)
  {
    if call.Enqueue? {
      assert PairOk(s, e, call.f);
    }
    hide PopHead, AddTail, AddAfter, Join, Next, Walked, TimerPlace;
  }

  lemma HandLocal(s: State, e: Mem, w: Wid, f: Fid)
    requires Inv(s) && ListsAgree(s, e) && w < |s.ws| == |e.locs| && s.ws[w].pc == Waking(f) && LocalOk(s, e, w)
    ensures LocalOk(EnqueueRegion(s, w, f), EnqueueMem(e, w), w)
  {
    HeadIs(s, e, IdleHead);
    hide Inv, ListsAgree, PopHead, AddTail, Join, Next;
  }

  lemma FreeLocal(s: State, e: Mem, w: Wid, a: Act)
    requires Agree(s, e) && w < |s.ws| == |e.locs| && s.ws[w].pc.Free?
    ensures LocalOk(FreeStep(s, w, a), FreeMem(s, e, w, a), w)
  {
    var me, k := s.ws[w], if a.At? then a.k else 0;
    assert AgentOk(s, w);
    if me.pending.Push? {
      CallLocal(s, e, w, me.pending.call, k);
      assert FreeStep(s, w, At(k)) == FreeStep(s, w, a);
    } else if me.cur.Loop? {
      LoopLocal(s, e, w);
      ExpireLocal(s, e, w, k);
    } else {
      CodeLocal(s, e, w, a);
    }
    hide Agree, AgentOk, LocalOk, UnlockCall, EnqueueCall, TimerAddCall, RecycleCall, Expire, LoopTurn, BlockOn, PopWaiter,
      TakeWaiters, Leave, TakeBlock, CallMem, CodeMem, ExpireMem, LoopTurnMem;
  }

  lemma StepLocal(s: State, e: Mem, w: Wid, a: Act)
    requires Agree(s, e) && w < |s.ws|
    ensures LocalOk(Step(s, w, a), MemStep(s, e, w, a), w)
  {
    assert LocalOk(s, e, w);
    match s.ws[w].pc
    case Free => FreeLocal(s, e, w, a);
    case Waking(f) => HandLocal(s, e, w, f);
    case _ => OtherLocal(s, e, w, a);
  }

  lemma OtherLocal(s: State, e: Mem, w: Wid, a: Act)
    requires w < |s.ws| == |e.locs| && !s.ws[w].pc.Free? && !s.ws[w].pc.Waking? && LocalOk(s, e, w)
    ensures LocalOk(Step(s, w, a), MemStep(s, e, w, a), w)
  {
    hide FreeStep, BatchMem, EnqueueRegion;
  }

  // ------------------------------------------------------------ the lists after each step

  lemma ListsBy(s: State, e: Mem, s': State, e': Mem, heads: set<Node>)
    requires Inv(s) && ListsAgree(s, e) && OnlyList(s, e, s', e', heads) && Spared(s, e.m, e'.m, heads)
    requires forall h :: h in heads ==> ListOk(s', e', h)
    ensures ListsAgree(s', e')
  {
    forall h
      ensures ListOk(s', e', h)
    {
      if h !in heads {
        assert ListOk(s, e, h) && SameList(s, e, s', e', h);
        ListStays(s, e, s', e', heads, h);
      }
    }
  }

  // The lists by the fields.

  lemma ListPopped(s: State, s': State, head: Node)
    requires match head
             case QueueHead => s.queue != [] && s'.queue == s.queue[1..]
             case IdleHead => s.idle != [] && s'.idle == s.idle[1..]
             case DisposedHead => s.disposed != [] && s'.disposed == s.disposed[1..]
             case WaitHead(o) => o < |s.objs| == |s'.objs| && s.objs[o].waiters != [] && s'.objs[o].waiters == s.objs[o].waiters[1..]
             case _ => false
    ensures List(s, head) != [] && List(s', head) == List(s, head)[1..]
  {}

  lemma ListAppended(s: State, s': State, head: Node, x: Node)
    requires match head
             case QueueHead => x.LinkOf? && s'.queue == s.queue + [x.f]
             case IdleHead => x.ThreadOf? && s'.idle == s.idle + [x.w]
             case DisposedHead => x.LinkOf? && s'.disposed == s.disposed + [x.f]
             case WaitHead(o) => x.LinkOf? && o < |s.objs| == |s'.objs| && s'.objs[o].waiters == s.objs[o].waiters + [x.f]
             case _ => false
    ensures List(s', head) == List(s, head) + [x] && Home(s, head) == Some(head)
  {}

  /** A step that takes the first node off a shared list, as the fields have it. */
  ghost predicate Pops(s: State, e: Mem, s': State, e': Mem, w: Wid, head: Node) {
    && Fields(s, e, s', e', w, {head}) && e'.m == PopHead(e.m, head)
    && match head
       case QueueHead => s.queue != [] && s'.queue == s.queue[1..]
       case IdleHead => s.idle != [] && s'.idle == s.idle[1..]
       case DisposedHead => s.disposed != [] && s'.disposed == s.disposed[1..]
       case WaitHead(o) => o < |s.objs| == |s'.objs| && s.objs[o].waiters != [] && s'.objs[o].waiters == s.objs[o].waiters[1..]
       case _ => false
  }

  /** A step that adds a node to the end of one. */
  ghost predicate Adds(s: State, e: Mem, s': State, e': Mem, w: Wid, head: Node, x: Node) {
    && Fields(s, e, s', e', w, {head}) && e'.m == AddTail(e.m, head, x)
    && match head
       case QueueHead => x.LinkOf? && s'.queue == s.queue + [x.f]
       case IdleHead => x.ThreadOf? && s'.idle == s.idle + [x.w]
       case DisposedHead => x.LinkOf? && s'.disposed == s.disposed + [x.f]
       case WaitHead(o) => x.LinkOf? && o < |s.objs| == |s'.objs| && s'.objs[o].waiters == s.objs[o].waiters + [x.f]
       case _ => false
  }

  lemma PopsList(s: State, e: Mem, s': State, e': Mem, w: Wid, head: Node)
    requires Inv(s) && ListsAgree(s, e) && Calm(s, e, s', e', w) && Pops(s, e, s', e', w, head)
    ensures ListsAgree(s', e')
  {
    ListPopped(s, s', head);
    FieldsSame(s, e, s', e', w, {head});
    hide Inv, ListsAgree, Calm, Fields, OnlyList, List;
    PopLists(s, e, s', e', head);
  }

  lemma AppendsList(s: State, e: Mem, s': State, e': Mem, w: Wid, head: Node, x: Node)
    requires Inv(s) && ListsAgree(s, e) && Calm(s, e, s', e', w) && Adds(s, e, s', e', w, head, x) && Home(s, x).None?
    ensures ListsAgree(s', e')
  {
    ListAppended(s, s', head, x);
    FieldsSame(s, e, s', e', w, {head});
    hide Inv, ListsAgree, Calm, Fields, OnlyList, List, Home;
    AppendLists(s, e, s', e', head, x);
  }

  lemma LoopTurnDoes(s: State, e: Mem, w: Wid)
    requires InLoop(s, w) && (Empty(e, QueueHead) <==> s.queue == [])
    ensures
      var s', e' := LoopTurn(s, w), LoopTurnMem(e, w);
      if s.queue == [] then Adds(s, e, s', e', w, IdleHead, ThreadOf(w)) else Pops(s, e, s', e', w, QueueHead)
  {
    hide AddTail, PopHead, Next;
  }

  lemma LoopTurnLists(s: State, e: Mem, w: Wid)
    requires Inv(s) && ListsAgree(s, e) && InLoop(s, w) && Calm(s, e, LoopTurn(s, w), LoopTurnMem(e, w), w)
    ensures ListsAgree(LoopTurn(s, w), LoopTurnMem(e, w))
  {
    assert Home(s, ThreadOf(w)).None? by { assert AgentOk(s, w); }
    hide Inv, ListsAgree, Calm, List, Home, LoopTurn, LoopTurnMem, Pops, Adds;
    SchedHeads(s, e);
    LoopTurnDoes(s, e, w);
    if s.queue == [] {
      AppendsList(s, e, LoopTurn(s, w), LoopTurnMem(e, w), w, IdleHead, ThreadOf(w));
    } else {
      PopsList(s, e, LoopTurn(s, w), LoopTurnMem(e, w), w, QueueHead);
    }
  }

  lemma LeaveDoes(s: State, e: Mem, w: Wid, call: Call, f: Fid)
    requires InCode(s, w) && (Empty(e, QueueHead) <==> s.queue == [])
    ensures
      var s', e' := Leave(s, w, call), LeaveMem(e, w, f);
      if s.queue == [] then Fields(s, e, s', e', w, {}) && e'.m == e.m else Pops(s, e, s', e', w, QueueHead)
  {
    hide PopHead, Next;
  }

  lemma LeaveLists(s: State, e: Mem, w: Wid, call: Call, f: Fid)
    requires Inv(s) && ListsAgree(s, e) && InCode(s, w) && Calm(s, e, Leave(s, w, call), LeaveMem(e, w, f), w)
    ensures ListsAgree(Leave(s, w, call), LeaveMem(e, w, f))
  {
    hide Inv, ListsAgree, Calm, List, Home, Leave, LeaveMem, Pops, Fields;
    SchedHeads(s, e);
    LeaveDoes(s, e, w, call, f);
    if s.queue == [] {
      StillLists(s, e, Leave(s, w, call), LeaveMem(e, w, f), w);
    } else {
      PopsList(s, e, Leave(s, w, call), LeaveMem(e, w, f), w, QueueHead);
    }
  }

  lemma PopWaiterDoes(s: State, e: Mem, w: Wid, a: Act, o: Oid, f: Fid)
    requires InCode(s, w) && s.ws[w].cur == Fib(f) && (a == WakeOne(o) || a == Handoff(o)) && Unlocked(s, o)
    requires Empty(e, WaitHead(o)) <==> s.objs[o].waiters == []
    ensures
      var s', e' := PopWaiter(s, w, o, f, a.Handoff?), CodeMem(s, e, w, a, f);
      if s.objs[o].waiters == [] then s' == s && e' == e else Pops(s, e, s', e', w, WaitHead(o))
  {
    hide PopHead, Next;
  }

  lemma PopWaiterLists(s: State, e: Mem, w: Wid, a: Act, o: Oid, f: Fid)
    requires Inv(s) && ListsAgree(s, e) && InCode(s, w) && s.ws[w].cur == Fib(f) && (a == WakeOne(o) || a == Handoff(o))
    requires Calm(s, e, PopWaiter(s, w, o, f, a.Handoff?), CodeMem(s, e, w, a, f), w)
    ensures ListsAgree(PopWaiter(s, w, o, f, a.Handoff?), CodeMem(s, e, w, a, f))
  {
    if Unlocked(s, o) {
      HeadIs(s, e, WaitHead(o));
      WaitEmpty(s, o);
      hide Inv, ListsAgree, Calm, List, Home, PopWaiter, CodeMem, Pops;
      PopWaiterDoes(s, e, w, a, o, f);
      if s.objs[o].waiters != [] {
        PopsList(s, e, PopWaiter(s, w, o, f, a.Handoff?), CodeMem(s, e, w, a, f), w, WaitHead(o));
      }
    }
  }

  lemma BlockDoes(s: State, e: Mem, w: Wid, o: Oid, f: Fid)
    requires InCode(s, w) && Unlocked(s, o)
    ensures Adds(s, e, BlockOn(s, w, f, o), CodeMem(s, e, w, Block(o), f), w, WaitHead(o), LinkOf(f))
  {
    hide AddTail;
  }

  lemma BlockLists(s: State, e: Mem, w: Wid, o: Oid, f: Fid)
    requires Inv(s) && ListsAgree(s, e) && InCode(s, w) && s.ws[w].cur == Fib(f)
    requires Calm(s, e, BlockOn(s, w, f, o), CodeMem(s, e, w, Block(o), f), w)
    ensures ListsAgree(BlockOn(s, w, f, o), CodeMem(s, e, w, Block(o), f))
  {
    if Unlocked(s, o) {
      assert Home(s, LinkOf(f)).None? by { assert AgentOk(s, w); }
      hide Inv, ListsAgree, Calm, List, Home, BlockOn, CodeMem, Adds;
      BlockDoes(s, e, w, o, f);
      AppendsList(s, e, BlockOn(s, w, f, o), CodeMem(s, e, w, Block(o), f), w, WaitHead(o), LinkOf(f));
    }
  }

  lemma TakeBlockDoes(s: State, e: Mem, w: Wid, f: Fid)
    requires InCode(s, w) && (Empty(e, DisposedHead) <==> s.disposed == [])
    ensures
      var s', e' := TakeBlock(s, w), CodeMem(s, e, w, Spawn, f);
      if s.disposed == [] then Fields(s, e, s', e', w, {}) && e'.m == e.m else Pops(s, e, s', e', w, DisposedHead)
  {
    hide PopHead, Next;
  }

  lemma TakeBlockLists(s: State, e: Mem, w: Wid, f: Fid)
    requires Inv(s) && ListsAgree(s, e) && InCode(s, w) && Calm(s, e, TakeBlock(s, w), CodeMem(s, e, w, Spawn, f), w)
    ensures ListsAgree(TakeBlock(s, w), CodeMem(s, e, w, Spawn, f))
  {
    hide Inv, ListsAgree, Calm, List, Home, TakeBlock, CodeMem, Pops, Fields;
    SchedHeads(s, e);
    TakeBlockDoes(s, e, w, f);
    if s.disposed == [] {
      StillLists(s, e, TakeBlock(s, w), CodeMem(s, e, w, Spawn, f), w);
    } else {
      PopsList(s, e, TakeBlock(s, w), CodeMem(s, e, w, Spawn, f), w, DisposedHead);
    }
  }

  lemma EnqueueDoes(s: State, e: Mem, w: Wid, f: Fid)
    requires w < |s.ws| && s.ws[w].pc == Waking(f) && e.Loc(w).it == LinkOf(f) && (Empty(e, IdleHead) <==> s.idle == [])
    ensures
      var s', e' := EnqueueRegion(s, w, f), EnqueueMem(e, w);
      if s.idle == [] then Adds(s, e, s', e', w, QueueHead, LinkOf(f)) else Pops(s, e, s', e', w, IdleHead)
  {
    hide AddTail, PopHead, Next;
  }

  lemma HeldIsFree(s: State, w: Wid, f: Fid)
    requires Inv(s) && w < |s.ws| && s.ws[w].pc == Waking(f)
    ensures Home(s, LinkOf(f)).None?
  {
    assert AgentOk(s, w);
  }

  lemma EnqueueLists(s: State, e: Mem, w: Wid, f: Fid)
    requires Inv(s) && ListsAgree(s, e) && w < |s.ws| && s.ws[w].pc == Waking(f) && LocalOk(s, e, w)
    requires Calm(s, e, EnqueueRegion(s, w, f), EnqueueMem(e, w), w)
    ensures ListsAgree(EnqueueRegion(s, w, f), EnqueueMem(e, w))
  {
    HeldIsFree(s, w, f);
    hide Inv, ListsAgree, Calm, List, Home, EnqueueRegion, EnqueueMem, Pops, Adds;
    SchedHeads(s, e);
    EnqueueDoes(s, e, w, f);
    if s.idle == [] {
      AppendsList(s, e, EnqueueRegion(s, w, f), EnqueueMem(e, w), w, QueueHead, LinkOf(f));
    } else {
      PopsList(s, e, EnqueueRegion(s, w, f), EnqueueMem(e, w), w, IdleHead);
    }
  }

  lemma RecycleDoes(s: State, e: Mem, w: Wid, f: Fid, k: nat)
    requires InCall(s, w, Recycle(f)) && e.PairAt(f).f == f
    ensures Adds(s, e, RecycleCall(s, w, f), CallMem(s, e, w, Recycle(f), k), w, DisposedHead, LinkOf(f))
  {
    hide AddTail;
  }

  lemma RecycleLists(s: State, e: Mem, w: Wid, f: Fid, k: nat)
    requires Inv(s) && ListsAgree(s, e) && InCall(s, w, Recycle(f)) && PairOk(s, e, f)
    requires Calm(s, e, RecycleCall(s, w, f), CallMem(s, e, w, Recycle(f), k), w)
    ensures ListsAgree(RecycleCall(s, w, f), CallMem(s, e, w, Recycle(f), k))
  {
    assert Home(s, LinkOf(f)).None? && e.PairAt(f).f == f by { assert AgentOk(s, w); }
    hide Inv, ListsAgree, Calm, List, Home, RecycleCall, CallMem, Adds, PairOk;
    RecycleDoes(s, e, w, f, k);
    AppendsList(s, e, RecycleCall(s, w, f), CallMem(s, e, w, Recycle(f), k), w, DisposedHead, LinkOf(f));
  }

  lemma InsertDoes(s: State, e: Mem, w: Wid, f: Fid, k: nat)
    requires InCall(s, w, TimerAdd(f)) && e.PairAt(f).f == f && s.objs != []
    ensures
      var s', e', at := TimerAddCall(s, w, f, k), CallMem(s, e, w, TimerAdd(f), k), TimerPlace(s, k);
      && Fields(s, e, s', e', w, {WaitHead(0)}) && at <= |List(s, WaitHead(0))|
      && List(s', WaitHead(0)) == Insert(List(s, WaitHead(0)), at, LinkOf(f)) && Home(s, WaitHead(0)) == Some(WaitHead(0))
      && e'.m == AddAfter(e.m, Walked(e.m, WaitHead(0), at), LinkOf(f))
  {
    var at, s' := TimerPlace(s, k), TimerAddCall(s, w, f, k);
    assert LinksOf(s'.objs[0].waiters) == Insert(LinksOf(s.objs[0].waiters), at, LinkOf(f));
    hide AddAfter, Walked;
  }

  lemma InsertReady(s: State, e: Mem, w: Wid, f: Fid)
    requires Inv(s) && InCall(s, w, TimerAdd(f)) && PairOk(s, e, f)
    ensures s.objs != [] && Home(s, LinkOf(f)).None? && Home(s, WaitHead(0)) == Some(WaitHead(0)) && e.PairAt(f).f == f
  {
    assert AgentOk(s, w);
  }

  lemma InsertLists(s: State, e: Mem, w: Wid, f: Fid, k: nat)
    requires Inv(s) && ListsAgree(s, e) && InCall(s, w, TimerAdd(f)) && PairOk(s, e, f)
    requires Calm(s, e, TimerAddCall(s, w, f, k), CallMem(s, e, w, TimerAdd(f), k), w)
    ensures ListsAgree(TimerAddCall(s, w, f, k), CallMem(s, e, w, TimerAdd(f), k))
  {
    hide Inv, ListsAgree, Calm, List, Home, TimerAddCall, CallMem, Fields, PairOk, OnlyList, Circle, TimerPlace, AddAfter;
    InsertReady(s, e, w, f);
    var s', e', at, l := TimerAddCall(s, w, f, k), CallMem(s, e, w, TimerAdd(f), k), TimerPlace(s, k), List(s, WaitHead(0));
    HeadIs(s, e, WaitHead(0));
    InsertDoes(s, e, w, f, k);
    FieldsSame(s, e, s', e', w, {WaitHead(0)});
    WalkedIsPlace(e.m, WaitHead(0), l, 0, at);
    AddLists(s, e, s', e', WaitHead(0), at, LinkOf(f));
  }

  // ------------------------------------------------------------ the private lists

  /** A list that was put together in `m1` under the sentinel of the batch of `w`, and what is
      left of the list it came from. */
  lemma StartLists(s: State, e: Mem, s': State, e': Mem, w: Wid, head: Node, m1: Links<Node>, taken: seq<Node>, rest: seq<Node>)
    requires Inv(s) && ListsAgree(s, e) && head.WaitHead? && Home(s, head) == Some(head) && !InBatch(s, w) && w < |e.locs|
    requires Circle(m1, head, rest) && Circle(m1, BatchHead(w), taken)
    requires Beside(e.m, m1, head, List(s, head) + [BatchHead(w)])
    requires e' == Started(e.(m := m1), w)
    requires List(s', head) == rest && List(s', BatchHead(w)) == taken && List(s', ThreadHead(w)) == []
    requires forall n :: n in taken || n in rest ==> n.LinkOf?
    requires OnlyList(s, e, s', e', {head, BatchHead(w), ThreadHead(w)})
    ensures ListsAgree(s', e')
  {
    var heads := {head, BatchHead(w), ThreadHead(w)};
    CircleStays(m1, e'.m, head, rest);
    CircleStays(m1, e'.m, BatchHead(w), taken);
    WalkStarts(e'.m, BatchHead(w), taken);
    BesideSpares(s, e.m, m1, head, [BatchHead(w)]);
    hide Inv, ListsAgree, OnlyList;
    assert Spared(s, e.m, e'.m, heads);
    ListsBy(s, e, s', e', heads);
  }

  lemma TakeShape(s: State, e: Mem, w: Wid, o: Oid)
    requires InCode(s, w) && Unlocked(s, o)
    ensures
      var s', e', l := TakeWaiters(s, w, o), TakeMem(e, w, o), List(s, WaitHead(o));
      && List(s', WaitHead(o)) == [] && List(s', BatchHead(w)) == l && List(s', ThreadHead(w)) == []
      && Fields(s, e, s', e', w, {WaitHead(o), BatchHead(w), ThreadHead(w)})
      && Home(s, WaitHead(o)) == Some(WaitHead(o)) && !InBatch(s, w) && (forall n :: n in l ==> n.LinkOf?)
  {
    hide Started, MoveAll, Join;
  }

  /** The private list is initialised first. */
  lemma FreshHead(s: State, e: Mem, w: Wid, head: Node)
    requires Inv(s) && ListsAgree(s, e) && head.WaitHead? && Home(s, head) == Some(head)
    ensures
      var m := Join(e.m, BatchHead(w), BatchHead(w));
      && Circle(m, head, List(s, head)) && Circle(m, BatchHead(w), [])
      && Beside(e.m, m, head, List(s, head) + [BatchHead(w)]) && BatchHead(w) !in List(s, head)
  {
    var m := Join(e.m, BatchHead(w), BatchHead(w));
    assert ListOk(s, e, head);
    ListDistinct(s, head);
    if BatchHead(w) in List(s, head) {
      InList(s, head, BatchHead(w));
    }
    CircleStays(e.m, m, head, List(s, head));
    assert BatchHead(w) in List(s, head) + [BatchHead(w)];
  }

  lemma TakeLists(s: State, e: Mem, w: Wid, o: Oid)
    requires Inv(s) && ListsAgree(s, e) && InCode(s, w) && Unlocked(s, o) && w < |e.locs|
    requires Calm(s, e, TakeWaiters(s, w, o), TakeMem(e, w, o), w)
    ensures ListsAgree(TakeWaiters(s, w, o), TakeMem(e, w, o))
  {
    var s', e' := TakeWaiters(s, w, o), TakeMem(e, w, o);
    var head, l := WaitHead(o), List(s, WaitHead(o));
    var m := Join(e.m, BatchHead(w), BatchHead(w));
    TakeShape(s, e, w, o);
    HeadIs(s, e, head);
    FreshHead(s, e, w, head);
    FieldsSame(s, e, s', e', w, {head, BatchHead(w), ThreadHead(w)});
    hide Inv, ListsAgree, Calm, OnlyList, Fields, TakeWaiters, List, Home, Started, Circle, Beside, Join, MoveAll;
    if l == [] {
      StartLists(s, e, s', e', w, head, m, l, []);
    } else {
      MoveAllOk(m, head, BatchHead(w), l);
      BesideMore(e.m, m, MoveAll(m, head, BatchHead(w)), head, l + [BatchHead(w)]);
      StartLists(s, e, s', e', w, head, MoveAll(m, head, BatchHead(w)), l, []);
    }
  }

  lemma BesideMore(m: Links<Node>, m1: Links<Node>, m2: Links<Node>, head: Node, ns: seq<Node>)
    requires Beside(m, m1, head, ns) && Beside(m1, m2, head, ns)
    ensures Beside(m, m2, head, ns)
  {}

  lemma ExpireCircles(m: Links<Node>, head: Node, other: Node, l: seq<Node>, n: nat)
    requires Circle(m, head, l) && n <= |l| && other != head && other !in l
    ensures n > 0 ==> (Walked(m, head, n + 1) == head <==> n == |l|)
    ensures 0 < n == |l| ==>
              var m1 := MoveAll(m, head, other);
              Circle(m1, head, l[n..]) && Circle(m1, other, l[..n]) && Beside(m, m1, head, l + [other])
    ensures 0 < n < |l| ==>
              var m1 := MoveBefore(m, head, other, Walked(m, head, n + 1));
              Circle(m1, head, l[n..]) && Circle(m1, other, l[..n]) && Beside(m, m1, head, l + [other])
  {
    WalkedIsPlace(m, head, l, 0, n + 1);
    if 0 < n < |l| {
      MoveBeforeOk(m, head, other, l, n, l[n]);
    } else if n > 0 {
      MoveAllOk(m, head, other, l);
      assert l[..n] == l && l[n..] == [];
    }
  }

  lemma ExpireShape(s: State, e: Mem, w: Wid, k: nat)
    requires InLoop(s, w) && s.objs != []
    ensures
      var s', e', l, n := Expire(s, w, k), ExpireMem(s, e, w, k), List(s, WaitHead(0)), TimerPlace(s, k);
      && n <= |l| && List(s', WaitHead(0)) == l[n..] && List(s', BatchHead(w)) == l[..n] && List(s', ThreadHead(w)) == []
      && Fields(s, e, s', e', w, {WaitHead(0), BatchHead(w), ThreadHead(w)})
      && Home(s, WaitHead(0)) == Some(WaitHead(0)) && !InBatch(s, w) && (forall n :: n in l ==> n.LinkOf?)
  {
    hide Started, MoveAll, MoveBefore, Join, Walked;
  }

  lemma ExpireMemLists(s: State, e: Mem, w: Wid, k: nat)
    requires Inv(s) && ListsAgree(s, e) && InLoop(s, w) && w < |e.locs| && s.objs != []
    requires Calm(s, e, Expire(s, w, k), ExpireMem(s, e, w, k), w)
    ensures ListsAgree(Expire(s, w, k), ExpireMem(s, e, w, k))
  {
    var s', e' := Expire(s, w, k), ExpireMem(s, e, w, k);
    var head, l, n := WaitHead(0), List(s, WaitHead(0)), TimerPlace(s, k);
    var m := Join(e.m, BatchHead(w), BatchHead(w));
    ExpireShape(s, e, w, k);
    FreshHead(s, e, w, head);
    FieldsSame(s, e, s', e', w, {head, BatchHead(w), ThreadHead(w)});
    hide Inv, ListsAgree, Calm, OnlyList, Fields, Expire, List, Home, Started, Circle, Beside, Join, MoveAll, MoveBefore, Walked,
      TimerPlace;
    ExpireCircles(m, head, BatchHead(w), l, n);
    if n == 0 {
      assert l[..0] == [] && l[0..] == l;
      StartLists(s, e, s', e', w, head, m, l[..n], l[n..]);
    } else {
      var cut := Walked(m, head, n + 1);
      var m1 := if cut == head then MoveAll(m, head, BatchHead(w)) else MoveBefore(m, head, BatchHead(w), cut);
      BesideMore(e.m, m, m1, head, l + [BatchHead(w)]);
      StartLists(s, e, s', e', w, head, m1, l[..n], l[n..]);
    }
  }

  /** Two lists share no node, and no sentinel is on a list. */
  lemma ListsApart(s: State, a: Node, b: Node)
    requires Inv(s) && a != b && !a.LinkOf? && !a.ThreadOf? && !b.LinkOf? && !b.ThreadOf?
    ensures forall n :: n in List(s, a) ==> n !in List(s, b) && n != a && n != b
  {
    forall n | n in List(s, a)
      ensures n !in List(s, b) && n != a && n != b
    {
      InList(s, a, n);
      if n in List(s, b) {
        InList(s, b, n);
      }
    }
  }

  /** Where the walks of a batch are, and what it has. */
  lemma BatchWalks(s: State, e: Mem, w: Wid)
    requires Inv(s) && ListsAgree(s, e) && w < |s.ws| && s.ws[w].pc.Batch?
    ensures Walk(e.m, BatchHead(w), List(s, BatchHead(w)), e.Loc(w).ix)
    ensures Walk(e.m, ThreadHead(w), List(s, ThreadHead(w)), e.Loc(w).iy)
    ensures e.Loc(w).ix == BatchHead(w) <==> s.ws[w].pc.fs == []
    ensures e.Loc(w).iy == ThreadHead(w) <==> s.ws[w].pc.ths == []
    ensures List(s, BatchHead(w)) == LinksOf(s.ws[w].pc.fs) && List(s, ThreadHead(w)) == ThreadsOf(s.ws[w].pc.ths)
  {
    assert ListOk(s, e, BatchHead(w)) && ListOk(s, e, ThreadHead(w));
  }

  lemma PairFields(s: State, e: Mem, w: Wid, fs: seq<Fid>, ths: seq<Wid>)
    requires w < |s.ws| && s.ws[w].pc == Batch(fs, ths) && fs != [] && ths != []
    ensures
      var s', e' := BatchStep(s, w, fs, ths), BatchMem(e, w);
      && Fields(s, e, s', e', w, {BatchHead(w), ThreadHead(w)})
      && List(s', BatchHead(w)) == List(s, BatchHead(w))[1..] && List(s', ThreadHead(w)) == List(s, ThreadHead(w))[1..]
  {
    assert LinksOf(fs[1..]) == LinksOf(fs)[1..] && ThreadsOf(ths[1..]) == ThreadsOf(ths)[1..];
    hide BatchMem, LinksOf, ThreadsOf;
  }

  lemma PairLists(s: State, e: Mem, w: Wid, fs: seq<Fid>, ths: seq<Wid>)
    requires Inv(s) && ListsAgree(s, e) && w < |e.locs| && w < |s.ws| && s.ws[w].pc == Batch(fs, ths) && fs != [] && ths != []
    requires Calm(s, e, BatchStep(s, w, fs, ths), BatchMem(e, w), w)
    ensures ListsAgree(BatchStep(s, w, fs, ths), BatchMem(e, w))
  {
    var s', e', heads := BatchStep(s, w, fs, ths), BatchMem(e, w), {BatchHead(w), ThreadHead(w)};
    BatchWalks(s, e, w);
    PairFields(s, e, w, fs, ths);
    FieldsSame(s, e, s', e', w, heads);
    WalkGoesOn(e.m, BatchHead(w), List(s, BatchHead(w)), e.Loc(w).ix);
    WalkGoesOn(e.m, ThreadHead(w), List(s, ThreadHead(w)), e.Loc(w).iy);
    hide Inv, ListsAgree, Calm, Fields, OnlyList, BatchStep, List, Walk;
    ListsBy(s, e, s', e', heads);
  }

  /** The walked list `mine` is linked to its sentinel again, and what is at `shared` stays. */
  lemma RelinkedBeside(s: State, m: Links<Node>, mine: Node, ix: Node, shared: Node)
    requires Inv(s) && mine != shared && !mine.LinkOf? && !mine.ThreadOf? && !shared.LinkOf? && !shared.ThreadOf?
    requires Walk(m, mine, List(s, mine), ix) && List(s, mine) != [] && Circle(m, shared, List(s, shared))
    ensures
      var m1 := Join(m, mine, ix);
      Circle(m1, mine, List(s, mine)) && Circle(m1, shared, List(s, shared)) && Beside(m, m1, mine, List(s, mine))
  {
    Relinked(m, mine, List(s, mine), ix);
    ListsApart(s, mine, shared);
    ListsApart(s, shared, mine);
    CircleStays(m, Join(m, mine, ix), shared, List(s, shared));
  }

  lemma ReturnFields(s: State, e: Mem, w: Wid, ths: seq<Wid>)
    requires w < |s.ws| && s.ws[w].pc == Batch([], ths) && ths != []
    ensures
      var s', e' := BatchReturn(s, w, ths), BatchMem(e, w);
      && Fields(s, e, s', e', w, {if s.queue == [] then IdleHead else QueueHead, BatchHead(w), ThreadHead(w)})
      && (s.queue == [] ==> List(s', IdleHead) == List(s, ThreadHead(w)) + List(s, IdleHead) && !InBatch(s', w))
      && (s.queue != [] ==> List(s', QueueHead) == [] && List(s', BatchHead(w)) == List(s, QueueHead)
                            && List(s', ThreadHead(w)) == List(s, ThreadHead(w)))
  {
    hide BatchMem;
    assert ThreadsOf(ths + s.idle) == ThreadsOf(ths) + ThreadsOf(s.idle);
  }

  /** No other list is changed by a step of a batch that touches one shared list. */
  lemma BatchSpares(s: State, m: Links<Node>, m1: Links<Node>, m2: Links<Node>, mine: Node, shared: Node, w: Wid)
    requires Inv(s) && Beside(m, m1, mine, List(s, mine)) && (mine == BatchHead(w) || mine == ThreadHead(w))
    requires !shared.LinkOf? && !shared.ThreadOf?
    requires forall n :: n in m1 && n != shared && n != BatchHead(w) && n != ThreadHead(w) && n !in List(s, shared) && n !in List(s, mine) ==>
               n in m2 && m2[n] == m1[n]
    ensures Spared(s, m, m2, {shared, BatchHead(w), ThreadHead(w)})
  {
    forall n | n in m && Home(s, n).Some? && Home(s, n).value !in {shared, BatchHead(w), ThreadHead(w)}
      ensures n in m2 && m2[n] == m[n]
    {
      if n in List(s, mine) {
        InList(s, mine, n);
      }
      if n in List(s, shared) {
        InList(s, shared, n);
      }
    }
  }

  lemma ReturnedAs(e: Mem, w: Wid, m1: Links<Node>)
    requires e.Loc(w).ix == BatchHead(w) && e.Loc(w).iy != ThreadHead(w) && m1 == Join(e.m, ThreadHead(w), e.Loc(w).iy)
    ensures
      BatchMem(e, w) == if Next(m1, QueueHead) == QueueHead then e.(m := PrependAll(m1, IdleHead, ThreadHead(w)))
                        else Restarted(e.(m := MoveAll(m1, QueueHead, BatchHead(w))), w)
  {}

  lemma StolenAs(e: Mem, w: Wid, m1: Links<Node>)
    requires e.Loc(w).ix != BatchHead(w) && e.Loc(w).iy == ThreadHead(w) && m1 == Join(e.m, BatchHead(w), e.Loc(w).ix)
    ensures
      BatchMem(e, w) == if Next(m1, IdleHead) == IdleHead then e.(m := AppendAll(m1, QueueHead, BatchHead(w)))
                        else Restarted(e.(m := MoveAll(m1, IdleHead, ThreadHead(w))), w)
  {}

  /** A batch with one list used up links the other to its sentinel again, and then looks at
      the shared lists. */
  lemma ReturnMem(s: State, e: Mem, w: Wid, ths: seq<Wid>)
    requires Inv(s) && ListsAgree(s, e) && w < |e.locs| && w < |s.ws| && s.ws[w].pc == Batch([], ths) && ths != []
    ensures
      var e', mine, m1 := BatchMem(e, w), ThreadHead(w), Join(e.m, ThreadHead(w), e.Loc(w).iy);
      && Circle(m1, mine, List(s, mine)) && Beside(e.m, m1, mine, List(s, mine)) && List(s, mine) != []
      && Circle(m1, IdleHead, List(s, IdleHead)) && Circle(m1, QueueHead, List(s, QueueHead))
      && (s.queue == [] ==> e'.m == PrependAll(m1, IdleHead, mine))
      && (s.queue != [] ==>
            && e'.m == MoveAll(m1, QueueHead, BatchHead(w))
            && e'.Loc(w).ix == Next(e'.m, BatchHead(w)) && e'.Loc(w).iy == Next(e'.m, mine))
  {
    var mine, m1 := ThreadHead(w), Join(e.m, ThreadHead(w), e.Loc(w).iy);
    hide Inv, ListsAgree, Circle, Walk, Beside, Join, PrependAll, MoveAll, BatchMem, List, Home;
    BatchWalks(s, e, w);
    SchedHeads(s, e);
    RelinkedBeside(s, e.m, mine, e.Loc(w).iy, QueueHead);
    RelinkedBeside(s, e.m, mine, e.Loc(w).iy, IdleHead);
    Ends(m1, QueueHead, List(s, QueueHead));
    ReturnedAs(e, w, m1);
  }

  /** A shared list and one that the batch holds, joined with it or moved to it. */
  lemma JoinedLists(s: State, m1: Links<Node>, mine: Node, shared: Node)
    requires Inv(s) && Circle(m1, mine, List(s, mine)) && Circle(m1, shared, List(s, shared)) && mine != shared && List(s, mine) != []
    requires !mine.LinkOf? && !mine.ThreadOf? && !shared.LinkOf? && !shared.ThreadOf?
    ensures Circle(PrependAll(m1, shared, mine), shared, List(s, mine) + List(s, shared))
    ensures Beside(m1, PrependAll(m1, shared, mine), shared, List(s, shared) + List(s, mine))
    ensures Circle(AppendAll(m1, shared, mine), shared, List(s, shared) + List(s, mine))
    ensures Beside(m1, AppendAll(m1, shared, mine), shared, List(s, shared) + List(s, mine))
  {
    ListsApart(s, shared, mine);
    ListsApart(s, mine, shared);
    ListDistinct(s, shared);
    ListDistinct(s, mine);
    hide Inv, List, PrependAll, AppendAll, Beside;
    PrependAllOk(m1, shared, List(s, shared), mine, List(s, mine));
    AppendAllOk(m1, shared, List(s, shared), mine, List(s, mine));
  }

  lemma MovedLists(s: State, m1: Links<Node>, mine: Node, shared: Node, other: Node)
    requires Inv(s) && Circle(m1, mine, List(s, mine)) && Circle(m1, shared, List(s, shared)) && List(s, shared) != []
    requires !mine.LinkOf? && !mine.ThreadOf? && !shared.LinkOf? && !shared.ThreadOf? && !other.LinkOf? && !other.ThreadOf?
    requires mine != shared && mine != other && other != shared
    ensures
      var m2 := MoveAll(m1, shared, other);
      && Walk(m2, other, List(s, shared), Next(m2, other)) && Circle(m2, shared, [])
      && Walk(m2, mine, List(s, mine), Next(m2, mine)) && Beside(m1, m2, shared, List(s, shared) + [other])
  {
    var m2 := MoveAll(m1, shared, other);
    ListsApart(s, shared, mine);
    ListsApart(s, mine, shared);
    ListsApart(s, shared, other);
    ListsApart(s, mine, other);
    hide Inv, List, MoveAll;
    MoveAllOk(m1, shared, other, List(s, shared));
    CircleStays(m1, m2, mine, List(s, mine));
    hide Circle, Walk;
    WalkStarts(m2, other, List(s, shared));
    WalkStarts(m2, mine, List(s, mine));
  }

  /** The threads go back in front of the idle ones. */
  lemma GiveBackLists(s: State, e: Mem, w: Wid, ths: seq<Wid>)
    requires Inv(s) && ListsAgree(s, e) && w < |e.locs| && w < |s.ws| && s.ws[w].pc == Batch([], ths) && ths != [] && s.queue == []
    requires Calm(s, e, BatchReturn(s, w, ths), BatchMem(e, w), w)
    ensures ListsAgree(BatchReturn(s, w, ths), BatchMem(e, w))
  {
    var s', e', heads := BatchReturn(s, w, ths), BatchMem(e, w), {IdleHead, BatchHead(w), ThreadHead(w)};
    var mine, m1 := ThreadHead(w), Join(e.m, ThreadHead(w), e.Loc(w).iy);
    hide Calm, Fields, OnlyList, BatchReturn, BatchMem, Walk, Join, PrependAll, AppendAll, ListsAgree, Inv, List, Circle;
    ReturnMem(s, e, w, ths);
    ReturnFields(s, e, w, ths);
    FieldsSame(s, e, s', e', w, heads);
    JoinedLists(s, m1, mine, IdleHead);
    BatchSpares(s, e.m, m1, e'.m, mine, IdleHead, w);
    ListsBy(s, e, s', e', heads);
  }

  /** The queue is taken over. */
  lemma RefillLists(s: State, e: Mem, w: Wid, ths: seq<Wid>)
    requires Inv(s) && ListsAgree(s, e) && w < |e.locs| && w < |s.ws| && s.ws[w].pc == Batch([], ths) && ths != [] && s.queue != []
    requires Calm(s, e, BatchReturn(s, w, ths), BatchMem(e, w), w)
    ensures ListsAgree(BatchReturn(s, w, ths), BatchMem(e, w))
  {
    var s', e', heads := BatchReturn(s, w, ths), BatchMem(e, w), {QueueHead, BatchHead(w), ThreadHead(w)};
    var mine, m1 := ThreadHead(w), Join(e.m, ThreadHead(w), e.Loc(w).iy);
    QueueList(s);
    hide Calm, Fields, OnlyList, BatchReturn, BatchMem, Walk, Join, MoveAll, ListsAgree, Inv, List, Circle;
    ReturnMem(s, e, w, ths);
    ReturnFields(s, e, w, ths);
    FieldsSame(s, e, s', e', w, heads);
    MovedLists(s, m1, mine, QueueHead, BatchHead(w));
    BatchSpares(s, e.m, m1, e'.m, mine, QueueHead, w);
    ListsBy(s, e, s', e', heads);
  }

  lemma QueueList(s: State)
    ensures List(s, QueueHead) == [] <==> s.queue == []
    ensures List(s, IdleHead) == [] <==> s.idle == []
  {}

  lemma StealFields(s: State, e: Mem, w: Wid, fs: seq<Fid>)
    requires w < |s.ws| && s.ws[w].pc == Batch(fs, []) && fs != []
    ensures
      var s', e' := BatchSteal(s, w, fs), BatchMem(e, w);
      && Fields(s, e, s', e', w, {if s.idle == [] then QueueHead else IdleHead, BatchHead(w), ThreadHead(w)})
      && (s.idle == [] ==> List(s', QueueHead) == List(s, QueueHead) + List(s, BatchHead(w)) && !InBatch(s', w))
      && (s.idle != [] ==> List(s', IdleHead) == [] && List(s', ThreadHead(w)) == List(s, IdleHead)
                           && List(s', BatchHead(w)) == List(s, BatchHead(w)))
  {
    hide BatchMem;
    assert LinksOf(s.queue + fs) == LinksOf(s.queue) + LinksOf(fs);
  }

  lemma StealMem(s: State, e: Mem, w: Wid, fs: seq<Fid>)
    requires Inv(s) && ListsAgree(s, e) && w < |e.locs| && w < |s.ws| && s.ws[w].pc == Batch(fs, []) && fs != []
    ensures
      var e', mine, m1 := BatchMem(e, w), BatchHead(w), Join(e.m, BatchHead(w), e.Loc(w).ix);
      && Circle(m1, mine, List(s, mine)) && Beside(e.m, m1, mine, List(s, mine)) && List(s, mine) != []
      && Circle(m1, IdleHead, List(s, IdleHead)) && Circle(m1, QueueHead, List(s, QueueHead))
      && (s.idle == [] ==> e'.m == AppendAll(m1, QueueHead, mine))
      && (s.idle != [] ==>
            && e'.m == MoveAll(m1, IdleHead, ThreadHead(w))
            && e'.Loc(w).ix == Next(e'.m, mine) && e'.Loc(w).iy == Next(e'.m, ThreadHead(w)))
  {
    var mine, m1 := BatchHead(w), Join(e.m, BatchHead(w), e.Loc(w).ix);
    hide Inv, ListsAgree, Circle, Walk, Beside, Join, AppendAll, MoveAll, BatchMem, List, Home;
    BatchWalks(s, e, w);
    SchedHeads(s, e);
    RelinkedBeside(s, e.m, mine, e.Loc(w).ix, QueueHead);
    RelinkedBeside(s, e.m, mine, e.Loc(w).ix, IdleHead);
    Ends(m1, IdleHead, List(s, IdleHead));
    StolenAs(e, w, m1);
  }

  /** The fibers go to the end of the queue. */
  lemma AppendBatchLists(s: State, e: Mem, w: Wid, fs: seq<Fid>)
    requires Inv(s) && ListsAgree(s, e) && w < |e.locs| && w < |s.ws| && s.ws[w].pc == Batch(fs, []) && fs != [] && s.idle == []
    requires Calm(s, e, BatchSteal(s, w, fs), BatchMem(e, w), w)
    ensures ListsAgree(BatchSteal(s, w, fs), BatchMem(e, w))
  {
    var s', e', heads := BatchSteal(s, w, fs), BatchMem(e, w), {QueueHead, BatchHead(w), ThreadHead(w)};
    var mine, m1 := BatchHead(w), Join(e.m, BatchHead(w), e.Loc(w).ix);
    hide Calm, Fields, OnlyList, BatchSteal, BatchMem, Walk, Join, PrependAll, AppendAll, ListsAgree, Inv, List, Circle;
    StealMem(s, e, w, fs);
    StealFields(s, e, w, fs);
    FieldsSame(s, e, s', e', w, heads);
    JoinedLists(s, m1, mine, QueueHead);
    BatchSpares(s, e.m, m1, e'.m, mine, QueueHead, w);
    ListsBy(s, e, s', e', heads);
  }

  /** The idle threads are taken. */
  lemma StealLists(s: State, e: Mem, w: Wid, fs: seq<Fid>)
    requires Inv(s) && ListsAgree(s, e) && w < |e.locs| && w < |s.ws| && s.ws[w].pc == Batch(fs, []) && fs != [] && s.idle != []
    requires Calm(s, e, BatchSteal(s, w, fs), BatchMem(e, w), w)
    ensures ListsAgree(BatchSteal(s, w, fs), BatchMem(e, w))
  {
    var s', e', heads := BatchSteal(s, w, fs), BatchMem(e, w), {IdleHead, BatchHead(w), ThreadHead(w)};
    var mine, m1 := BatchHead(w), Join(e.m, BatchHead(w), e.Loc(w).ix);
    QueueList(s);
    hide Calm, Fields, OnlyList, BatchSteal, BatchMem, Walk, Join, MoveAll, ListsAgree, Inv, List, Circle;
    StealMem(s, e, w, fs);
    StealFields(s, e, w, fs);
    FieldsSame(s, e, s', e', w, heads);
    MovedLists(s, m1, mine, IdleHead, ThreadHead(w));
    BatchSpares(s, e.m, m1, e'.m, mine, IdleHead, w);
    ListsBy(s, e, s', e', heads);
  }

  lemma BatchLists(s: State, e: Mem, w: Wid, fs: seq<Fid>, ths: seq<Wid>)
    requires Inv(s) && ListsAgree(s, e) && w < |e.locs| && w < |s.ws| && s.ws[w].pc == Batch(fs, ths)
    requires Calm(s, e, BatchStep(s, w, fs, ths), BatchMem(e, w), w)
    ensures ListsAgree(BatchStep(s, w, fs, ths), BatchMem(e, w))
  {
    if fs == [] && ths == [] {
      BatchWalks(s, e, w);
      hide Inv, ListsAgree, Calm, Walk;
      StillLists(s, e, BatchStep(s, w, fs, ths), BatchMem(e, w), w);
    } else {
      hide Inv, ListsAgree, Calm, BatchReturn, BatchSteal, WriteSlot, BatchMem;
      if fs == [] {
        if s.queue == [] { GiveBackLists(s, e, w, ths); } else { RefillLists(s, e, w, ths); }
      } else if ths == [] {
        if s.idle == [] { AppendBatchLists(s, e, w, fs); } else { StealLists(s, e, w, fs); }
      } else {
        PairLists(s, e, w, fs, ths);
      }
    }
  }

  // ------------------------------------------------------------ every step

  lemma QuietFields(s: State, e: Mem, w: Wid, a: Act)
    requires w < |s.ws| && !s.ws[w].pc.Free? && !s.ws[w].pc.Waking? && !s.ws[w].pc.Batch?
    ensures Fields(s, e, Step(s, w, a), MemStep(s, e, w, a), w, {}) && MemStep(s, e, w, a).m == e.m
  {
    hide Fields, FreeStep, BatchStep, EnqueueRegion, FreeMem, BatchMem, EnqueueMem;
    if s.ws[w].pc.Building? || s.ws[w].pc.Giving? || s.ws[w].pc.Signalling? || s.ws[w].pc.BatchSignal? {
      QuietHands(s, e, w, a);
    } else {
      QuietSwitch(s, e, w, a);
    }
  }

  lemma QuietHands(s: State, e: Mem, w: Wid, a: Act)
    requires w < |s.ws| && (s.ws[w].pc.Building? || s.ws[w].pc.Giving? || s.ws[w].pc.Signalling? || s.ws[w].pc.BatchSignal?)
    ensures Fields(s, e, Step(s, w, a), MemStep(s, e, w, a), w, {})
  {}

  lemma QuietSwitch(s: State, e: Mem, w: Wid, a: Act)
    requires w < |s.ws|
    requires match s.ws[w].pc
             case Parked => true
             case Awake => true
             case LoopPopped(_) => true
             case Publishing(_) => true
             case Popped(_, _) => true
             case ToLoop(_) => true
             case Aimed => true
             case _ => false
    ensures Fields(s, e, Step(s, w, a), MemStep(s, e, w, a), w, {})
  {}

  lemma CallLists(s: State, e: Mem, w: Wid, a: Act)
    requires Inv(s) && ListsAgree(s, e) && Calls(s, w) && w < |e.locs| && forall f: Fid :: PairOk(s, e, f)
    requires Calm(s, e, FreeStep(s, w, a), FreeMem(s, e, w, a), w)
    ensures ListsAgree(FreeStep(s, w, a), FreeMem(s, e, w, a))
  {
    var call, k := s.ws[w].pending.call, if a.At? then a.k else 0;
    hide Inv, ListsAgree, Calm, PairOk, TimerAddCall, RecycleCall;
    match call
    case TimerAdd(f) => InsertLists(s, e, w, f, k);
    case Recycle(f) => RecycleLists(s, e, w, f, k);
    case _ => StillLists(s, e, FreeStep(s, w, a), FreeMem(s, e, w, a), w);
  }

  lemma CodeLists(s: State, e: Mem, w: Wid, a: Act)
    requires Inv(s) && ListsAgree(s, e) && InCode(s, w) && w < |e.locs|
    requires Calm(s, e, FreeStep(s, w, a), FreeMem(s, e, w, a), w)
    ensures ListsAgree(FreeStep(s, w, a), FreeMem(s, e, w, a))
  {
    var f := s.ws[w].cur.f;
    HeadIs(s, e, QueueHead);
    QueueList(s);
    hide Inv, ListsAgree, Calm, List, BlockOn, PopWaiter, TakeWaiters, Leave, TakeBlock, LeaveMem, TakeMem, Pop, AddTail;
    match a
    case Block(o) => BlockLists(s, e, w, o, f);
    case WakeOne(o) => PopWaiterLists(s, e, w, a, o, f);
    case Handoff(o) => PopWaiterLists(s, e, w, a, o, f);
    case WakeAll(o) => if Unlocked(s, o) { TakeLists(s, e, w, o); } else { NoTake(s, w, o); }
    case Yield => if s.queue != [] { LeaveLists(s, e, w, Enqueue(f), f); }
    case Sleep => LeaveLists(s, e, w, TimerAdd(f), f);
    case Exit => LeaveLists(s, e, w, Recycle(f), f);
    case Spawn => TakeBlockLists(s, e, w, f);
    case At(_) =>
  }

  lemma NoTake(s: State, w: Wid, o: Oid)
    requires !Unlocked(s, o)
    ensures TakeWaiters(s, w, o) == s
  {}

  lemma StepLists(s: State, e: Mem, w: Wid, a: Act)
    requires Agree(s, e) && w < |s.ws| && Calm(s, e, Step(s, w, a), MemStep(s, e, w, a), w)
    ensures ListsAgree(Step(s, w, a), MemStep(s, e, w, a))
  {
    assert LocalOk(s, e, w) && s.objs != [];
    hide Inv, ListsAgree, Calm, PairOk, LockOk, LocalOk, FreeStep, BatchStep, EnqueueRegion, FreeMem, BatchMem, EnqueueMem;
    match s.ws[w].pc
    case Free =>
      if s.ws[w].pending.Push? {
        CallLists(s, e, w, a);
      } else if s.ws[w].cur.Loop? {
        LoopLists(s, e, w, a);
      } else {
        CodeLists(s, e, w, a);
      }
    case Waking(f) => EnqueueLists(s, e, w, f);
    case Batch(fs, ths) => BatchLists(s, e, w, fs, ths);
    case _ =>
      QuietFields(s, e, w, a);
      StillLists(s, e, Step(s, w, a), MemStep(s, e, w, a), w);
  }

  lemma LoopLists(s: State, e: Mem, w: Wid, a: Act)
    requires Inv(s) && ListsAgree(s, e) && InLoop(s, w) && w < |e.locs| && s.objs != []
    requires Calm(s, e, FreeStep(s, w, a), FreeMem(s, e, w, a), w)
    ensures ListsAgree(FreeStep(s, w, a), FreeMem(s, e, w, a))
  {
    hide Inv, ListsAgree, Calm, Expire, LoopTurn, ExpireMem, LoopTurnMem;
    if w == TIMER {
      ExpireMemLists(s, e, w, if a.At? then a.k else 0);
    } else {
      LoopTurnLists(s, e, w);
    }
  }

  /** A step of the machine, without the locks that it takes. */
  lemma StepAgree(s: State, e: Mem, w: Wid, a: Act)
    requires Agree(s, e) && w < |s.ws| && !Waits(s, e, w, a) && e.Loc(w).unlocking.None?
    ensures Agree(Step(s, w, a), MemStep(s, e, w, a))
  {
    var s', e' := Step(s, w, a), MemStep(s, e, w, a);
    StepInv(s, w, a);
    StepMild(s, e, w, a);
    MemCalm(s, e, w, a);
    assert Calm(s, e, s', e', w);
    StepLists(s, e, w, a);
    StepLocal(s, e, w, a);
    forall f: Fid
      ensures PairStep(s, e, s', e', f)
    {
      assert PairOk(s, e, f);
      PairSteps(s, e, w, a, f);
    }
    hide Inv, ListsAgree, Calm, PairOk, LockOk, LocalOk, Step, MemStep, PairStep, KeepsLocked;
    Assemble(s, e, s', e', w);
  }

  // ------------------------------------------------------------ the locks of the deferred calls

  /** Only the locks differ, and whose pair is read for them. */
  ghost predicate ButLocks(e: Mem, e': Mem, w: Wid) {
    && e'.m == e.m && e'.pairs == e.pairs && |e'.locs| == |e.locs|
    && (forall v: Wid :: v != w ==> e'.Loc(v) == e.Loc(v))
    && e'.Loc(w) == e.Loc(w).(unlocking := e'.Loc(w).unlocking)
  }

  lemma LocksAgree(s: State, e: Mem, e': Mem, w: Wid)
    requires Agree(s, e) && ButLocks(e, e', w) && w < |s.ws|
    requires forall v: Wid :: LockOk(s, e', v)
    requires e'.Loc(w).unlocking.Some? ==> e'.PairAt(e'.Loc(w).unlocking.value) == Pair(SCHED, e'.Loc(w).unlocking.value)
    ensures Agree(s, e')
  {
    forall head
      ensures ListOk(s, e', head)
    {
      assert ListOk(s, e, head);
    }
    forall v: Wid
      ensures LocalOk(s, e', v)
    {
      assert LocalOk(s, e, v);
    }
    forall f: Fid
      ensures PairOk(s, e', f)
    {
      assert PairOk(s, e, f);
      if v: Wid :| e'.Loc(v).unlocking == Some(f) {
        assert v != w ==> e.Loc(v).unlocking == Some(f);
      }
    }
  }

  lemma LockTaken(s: State, e: Mem, w: Wid, call: Call)
    requires Agree(s, e) && w < |s.ws| && e.Loc(w).unlocking.None? && s.ws[w].pc.Free? && s.ws[w].pending.Nil?
    requires call.Recycle? ==> IsAt(s, call.f, Disposed) && e.disposedLock.None? && e.PairAt(call.f) == Pair(SCHED, call.f)
    requires call.TimerAdd? ==> IsAt(s, call.f, Waiting(0)) && e.timerLock.None? && e.PairAt(call.f) == Pair(SCHED, call.f)
    ensures Agree(s, Lock(e, w, call))
  {
    var e' := Lock(e, w, call);
    forall v: Wid
      ensures LockOk(s, e', v)
    {
      assert LockOk(s, e, v) && LockOk(s, e, w);
    }
    hide Inv, ListsAgree;
    LocksAgree(s, e, e', w);
  }

  lemma LockReleased(s: State, e: Mem, w: Wid)
    requires Agree(s, e) && w < |s.ws| && e.Loc(w).unlocking.Some?
    ensures Agree(s, Release(e, w))
  {
    var e' := Release(e, w);
    forall v: Wid
      ensures LockOk(s, e', v)
    {
      assert LockOk(s, e, v) && LockOk(s, e, w);
    }
    hide Inv, ListsAgree;
    LocksAgree(s, e, e', w);
  }

  /** Where a deferred call leaves the fiber. */
  lemma RecycleMoves(s: State, e: Mem, w: Wid, a: Act, f: Fid)
    requires Agree(s, e) && InCall(s, w, Recycle(f)) && !Waits(s, e, w, a)
    ensures
      var s', e' := Step(s, w, a), MemStep(s, e, w, a);
      && w < |s'.ws| && s'.ws[w].pc.Free? && s'.ws[w].pending.Nil? && IsAt(s', f, Disposed)
      && e'.disposedLock.None? && e'.PairAt(f) == Pair(SCHED, f) && e'.Loc(w) == e.Loc(w)
  {
    assert AgentOk(s, w) && PairOk(s, e, f);
    hide Inv, ListsAgree, AddTail;
  }

  lemma TimerAddMoves(s: State, e: Mem, w: Wid, a: Act, f: Fid)
    requires Agree(s, e) && InCall(s, w, TimerAdd(f)) && !Waits(s, e, w, a)
    ensures
      var s', e' := Step(s, w, a), MemStep(s, e, w, a);
      && w < |s'.ws| && s'.ws[w].pc.Free? && s'.ws[w].pending.Nil? && IsAt(s', f, Waiting(0))
      && e'.timerLock.None? && e'.PairAt(f) == Pair(SCHED, f) && e'.Loc(w) == e.Loc(w)
  {
    assert AgentOk(s, w) && PairOk(s, e, f) && s.objs != [];
    hide Inv, ListsAgree, AddAfter, Walked;
  }

  lemma LStepAgree(l: LState, w: Wid, a: Act)
    requires Agree(l.s, l.e)
    ensures Agree(LStep(l, w, a).s, LStep(l, w, a).e)
  {
    hide Agree, Step, MemStep, Release, Lock, Waits;
    if w < |l.s.ws| {
      if l.e.Loc(w).unlocking.Some? {
        LockReleased(l.s, l.e, w);
      } else if !Waits(l.s, l.e, w, a) {
        StepAgree(l.s, l.e, w, a);
        if Calls(l.s, w) {
          CallAgree(l.s, l.e, w, a);
        }
      }
    }
  }

  lemma CallAgree(s: State, e: Mem, w: Wid, a: Act)
    requires Agree(s, e) && Calls(s, w) && !Waits(s, e, w, a) && e.Loc(w).unlocking.None?
    requires Agree(Step(s, w, a), MemStep(s, e, w, a))
    ensures Agree(Step(s, w, a), Lock(MemStep(s, e, w, a), w, s.ws[w].pending.call))
  {
    hide Agree, Step, MemStep, Waits;
    match s.ws[w].pending.call
    case Recycle(f) => RecycleMoves(s, e, w, a, f); LockTaken(Step(s, w, a), MemStep(s, e, w, a), w, Recycle(f));
    case TimerAdd(f) => TimerAddMoves(s, e, w, a, f); LockTaken(Step(s, w, a), MemStep(s, e, w, a), w, TimerAdd(f));
    case _ =>
  }

  // ------------------------------------------------------------ runs

  /** The words that are not in use get any values, all at once. */
  ghost function Overwritten(l: LState, links: Links<Node>, pairs: map<Fid, Pair>): LState {
    l.(e := l.e.(m := l.e.m + map n | n in links && Home(l.s, n).None? :: links[n],
                 pairs := l.e.pairs + map f | f in pairs && !PairLive(l.s, l.e, f) :: pairs[f]))
  }

  lemma OverwrittenAgrees(l: LState, links: Links<Node>, pairs: map<Fid, Pair>)
    requires Agree(l.s, l.e)
    ensures Agree(l.s, Overwritten(l, links, pairs).e)
  {
    var s, e, e' := l.s, l.e, Overwritten(l, links, pairs).e;
    forall head
      ensures ListOk(s, e', head)
    {
      assert ListOk(s, e, head);
      assert Spared(s, e.m, e'.m, {});
      ListStays(s, e, s, e', {}, head);
    }
    forall w: Wid
      ensures LocalOk(s, e', w) && LockOk(s, e', w)
    {
      assert LocalOk(s, e, w) && LockOk(s, e, w);
    }
    hide Inv, ListsAgree;
    forall f: Fid
      ensures PairOk(s, e', f)
    {
      assert PairOk(s, e, f);
      if v: Wid :| e'.Loc(v).unlocking == Some(f) {
        assert e.Loc(v).unlocking == Some(f);
      }
    }
  }

  datatype Event = Turn(w: Wid, a: Act) | Noise(links: Links<Node>, pairs: map<Fid, Pair>)

  function InitMem(extra: nat, objects: nat): Mem {
    var heads := {QueueHead, IdleHead, DisposedHead} + set o | 0 <= o <= objects :: WaitHead(o);
    Mem(map n | n in heads :: Side(n, n), map[],
        seq(extra + 2, w requires 0 <= w => Local(LinkOf(0), ThreadOf(0), BatchHead(w), ThreadHead(w), None)), None, None)
  }

  ghost function Run(extra: nat, objects: nat, es: seq<Event>): LState {
    if es == [] then LState(Init(extra, objects), InitMem(extra, objects))
    else
      var l, last := Run(extra, objects, es[..|es| - 1]), es[|es| - 1];
      match last
      case Turn(w, a) => LStep(l, w, a)
      case Noise(links, pairs) => Overwritten(l, links, pairs)
  }

  lemma InitAgrees(extra: nat, objects: nat)
    ensures Agree(Init(extra, objects), InitMem(extra, objects))
  {
    var s, e := Init(extra, objects), InitMem(extra, objects);
    InitInv(extra, objects);
    forall head
      ensures ListOk(s, e, head)
    {
      assert List(s, head) == [];
    }
    forall w: Wid
      ensures LocalOk(s, e, w) && LockOk(s, e, w)
    {
      assert e.Loc(w).unlocking.None?;
    }
    forall f: Fid
      ensures PairOk(s, e, f)
    {}
  }

  lemma {:induction false} RunAgrees(extra: nat, objects: nat, es: seq<Event>)
    ensures Agree(Run(extra, objects, es).s, Run(extra, objects, es).e)
  {
    if es == [] {
      InitAgrees(extra, objects);
    } else {
      var l, last := Run(extra, objects, es[..|es| - 1]), es[|es| - 1];
      RunAgrees(extra, objects, es[..|es| - 1]);
      hide Agree, LStep, Overwritten;
      match last {
        case Turn(w, a) => LStepAgree(l, w, a);
        case Noise(links, pairs) => OverwrittenAgrees(l, links, pairs);
      }
    }
  }

  // ------------------------------------------------------------ words that are not read

  function OverLink(e: Mem, n: Node, z: Side<Node>): Mem {
    e.(m := e.m[n := z])
  }

  function OverPair(e: Mem, f: Fid, p: Pair): Mem {
    e.(pairs := e.pairs[f := p])
  }

  /** A node that is on no list and that agent `w` is not about to put on one. */
  predicate Foreign(s: State, w: Wid, n: Node)
    requires w < |s.ws|
  {
    var me := s.ws[w];
    Home(s, n).None? &&
    match n
    case LinkOf(f) => me.cur != Fib(f) && me.pc != Waking(f) && !(me.pending.Push? && Publishes(me.pending.call, f))
    case ThreadOf(t) => t != w
    case _ => false
  }

  lemma ForeignApart(s: State, w: Wid, n: Node, head: Node)
    requires Inv(s) && w < |s.ws| && Foreign(s, w, n)
    ensures n !in List(s, head) && !n.BatchHead? && !n.ThreadHead? && !n.WaitHead? && !n.QueueHead? && !n.IdleHead? && !n.DisposedHead?
  {
    if n in List(s, head) {
      InList(s, head, n);
    }
  }

  /** The list at a shared sentinel, and that `n` is not on it. */
  lemma SharedList(s: State, e: Mem, w: Wid, n: Node, head: Node)
    requires Inv(s) && ListsAgree(s, e) && w < |s.ws| && Foreign(s, w, n) && Home(s, head) == Some(head)
    requires head.QueueHead? || head.IdleHead? || head.DisposedHead? || head.WaitHead?
    ensures Circle(e.m, head, List(s, head)) && n != head && n !in List(s, head)
  {
    ForeignApart(s, w, n, head);
    assert ListOk(s, e, head);
  }

  lemma PopOver(s: State, e: Mem, w: Wid, n: Node, z: Side<Node>, head: Node)
    requires Inv(s) && ListsAgree(s, e) && w < |s.ws| && Foreign(s, w, n) && Home(s, head) == Some(head)
    requires head.QueueHead? || head.IdleHead? || head.DisposedHead? || head.WaitHead?
    ensures PopHead(OverLink(e, n, z).m, head) == PopHead(e.m, head)[n := z]
    ensures Next(OverLink(e, n, z).m, head) == Next(e.m, head) && (Empty(OverLink(e, n, z), head) <==> Empty(e, head))
  {
    SharedList(s, e, w, n, head);
    PopHeadOver(e.m, head, List(s, head), n, z);
  }

  lemma AppendOver(s: State, e: Mem, w: Wid, n: Node, z: Side<Node>, head: Node, x: Node)
    requires Inv(s) && ListsAgree(s, e) && w < |s.ws| && Foreign(s, w, n) && Home(s, head) == Some(head) && x != n
    requires head.QueueHead? || head.IdleHead? || head.DisposedHead? || head.WaitHead?
    ensures Append(OverLink(e, n, z), head, x) == OverLink(Append(e, head, x), n, z)
  {
    SharedList(s, e, w, n, head);
    hide Inv, ListsAgree, Foreign, Home;
    AddTailOver(e.m, head, List(s, head), x, n, z);
  }

  lemma TakenOver(s: State, e: Mem, w: Wid, n: Node, z: Side<Node>, head: Node, e1: Mem)
    requires Inv(s) && ListsAgree(s, e) && w < |s.ws| && Foreign(s, w, n) && Home(s, head) == Some(head) && e1.m == e.m
    requires head.QueueHead? || head.IdleHead? || head.DisposedHead? || head.WaitHead?
    ensures Pop(OverLink(e1, n, z), w, head) == OverLink(Pop(e1, w, head), n, z)
    ensures Empty(OverLink(e, n, z), head) <==> Empty(e, head)
  {
    PopOver(s, e, w, n, z, head);
    hide Inv, ListsAgree, PopHead, Next, Foreign;
  }

  /** The sentinels of the scheduler. */
  lemma HeadsHome(s: State)
    ensures Home(s, QueueHead) == Some(QueueHead) && Home(s, IdleHead) == Some(IdleHead) && Home(s, DisposedHead) == Some(DisposedHead)
    ensures forall o: Oid :: Unlocked(s, o) ==> o < |s.objs| && Home(s, WaitHead(o)) == Some(WaitHead(o))
  {}

  lemma LoopTurnOver(s: State, e: Mem, w: Wid, n: Node, z: Side<Node>)
    requires Inv(s) && ListsAgree(s, e) && w < |s.ws| && Foreign(s, w, n)
    ensures LoopTurnMem(OverLink(e, n, z), w) == OverLink(LoopTurnMem(e, w), n, z)
  {
    HeadsHome(s);
    hide Inv, ListsAgree, Append, Pop, Empty, OverLink, Home;
    TakenOver(s, e, w, n, z, QueueHead, e);
    AppendOver(s, e, w, n, z, IdleHead, ThreadOf(w));
  }

  lemma EnqueueOver(s: State, e: Mem, w: Wid, n: Node, z: Side<Node>)
    requires Inv(s) && ListsAgree(s, e) && w < |s.ws| && Foreign(s, w, n) && s.ws[w].pc.Waking? && LocalOk(s, e, w)
    ensures EnqueueMem(OverLink(e, n, z), w) == OverLink(EnqueueMem(e, w), n, z)
  {
    HeadsHome(s);
    hide Inv, ListsAgree, Append, PopHead, Next, Home;
    PopOver(s, e, w, n, z, IdleHead);
    AppendOver(s, e, w, n, z, QueueHead, e.Loc(w).it);
    hide Empty;
  }

  lemma LeaveOver(s: State, e: Mem, w: Wid, f: Fid, n: Node, z: Side<Node>)
    requires Inv(s) && ListsAgree(s, e) && w < |s.ws| && Foreign(s, w, n)
    ensures LeaveMem(OverLink(e, n, z), w, f) == OverLink(LeaveMem(e, w, f), n, z)
  {
    PopOver(s, e, w, n, z, QueueHead);
    hide Inv, ListsAgree, PopHead, Next, Empty;
  }

  lemma TimerList(s: State, at: nat)
    requires s.objs != [] && at <= |s.objs[0].waiters|
    ensures Home(s, WaitHead(0)) == Some(WaitHead(0)) && at <= |List(s, WaitHead(0))|
    ensures Stop(WaitHead(0), List(s, WaitHead(0)), 0) == WaitHead(0)
  {}

  lemma InsertOver(s: State, e: Mem, w: Wid, f: Fid, at: nat, n: Node, z: Side<Node>)
    requires Inv(s) && ListsAgree(s, e) && w < |s.ws| && Foreign(s, w, n) && n != LinkOf(f) && s.objs != [] && at <= |s.objs[0].waiters|
    ensures
      AddAfter(e.m[n := z], Walked(e.m[n := z], WaitHead(0), at), LinkOf(f))
      == AddAfter(e.m, Walked(e.m, WaitHead(0), at), LinkOf(f))[n := z]
  {
    hide Inv, ListsAgree, Circle, Foreign, AddAfter, Walked, List, Stop, Home;
    var l := List(s, WaitHead(0));
    TimerList(s, at);
    SharedList(s, e, w, n, WaitHead(0));
    WalkedIsPlace(e.m, WaitHead(0), l, 0, at);
    WalkedOver(e.m, WaitHead(0), l, 0, at, n, z);
    AddAfterOver(e.m, WaitHead(0), l, at, LinkOf(f), n, z);
  }

  lemma CallOver(s: State, e: Mem, w: Wid, call: Call, k: nat, n: Node, z: Side<Node>)
    requires Inv(s) && ListsAgree(s, e) && InCall(s, w, call) && Foreign(s, w, n)
    requires call.TimerAdd? || call.Recycle? ==> e.PairAt(call.f) == Pair(SCHED, call.f)
    ensures CallMem(s, OverLink(e, n, z), w, call, k) == OverLink(CallMem(s, e, w, call, k), n, z)
  {
    if call.Recycle? {
      HeadsHome(s);
      AppendOver(s, e, w, n, z, DisposedHead, LinkOf(call.f));
    } else if call.TimerAdd? {
      InsertOver(s, e, w, call.f, TimerPlace(s, k), n, z);
    }
    hide Inv, ListsAgree, AddAfter, Append, Walked, Foreign;
  }

  /** The private lists are initialised before they are used. */
  lemma StartOver(e: Mem, w: Wid, n: Node, z: Side<Node>)
    requires !n.BatchHead? && !n.ThreadHead?
    ensures Started(OverLink(e, n, z), w) == OverLink(Started(e, w), n, z)
    ensures Join(e.m[n := z], BatchHead(w), BatchHead(w)) == Join(e.m, BatchHead(w), BatchHead(w))[n := z]
  {
    JoinOver(e.m, ThreadHead(w), ThreadHead(w), n, z);
    JoinOver(e.m, BatchHead(w), BatchHead(w), n, z);
  }

  lemma TakeOver(s: State, e: Mem, w: Wid, o: Oid, n: Node, z: Side<Node>)
    requires Inv(s) && ListsAgree(s, e) && w < |s.ws| && Foreign(s, w, n) && o < |s.objs|
    ensures TakeMem(OverLink(e, n, z), w, o) == OverLink(TakeMem(e, w, o), n, z)
  {
    var m, head := Join(e.m, BatchHead(w), BatchHead(w)), WaitHead(o);
    PopOver(s, e, w, n, z, head);
    ForeignApart(s, w, n, head);
    FreshHead(s, e, w, head);
    MoveAllOver(m, head, List(s, head), BatchHead(w), n, z);
    StartOver(e, w, n, z);
    StartOver(e.(m := m), w, n, z);
    StartOver(e.(m := MoveAll(m, head, BatchHead(w))), w, n, z);
    hide Inv, ListsAgree, Circle, Join, MoveAll, Started, Empty, Foreign, List;
  }

  lemma CutOver(m: Links<Node>, l: seq<Node>, k: nat, n: Node, z: Side<Node>)
    requires Circle(m, WaitHead(0), l) && k <= |l| && n !in l && n != WaitHead(0)
    ensures
      var cut := if k < |l| then l[k] else WaitHead(0);
      Walked(m, WaitHead(0), k + 1) == cut && Walked(m[n := z], WaitHead(0), k + 1) == cut && (cut == WaitHead(0) <==> k == |l|)
  {
    WalkedIsPlace(m, WaitHead(0), l, 0, k + 1);
    WalkedOver(m, WaitHead(0), l, 0, k + 1, n, z);
  }

  lemma TakeFirstOver(m: Links<Node>, l: seq<Node>, w: Wid, k: nat, n: Node, z: Side<Node>)
    requires Circle(m, WaitHead(0), l) && k <= |l| && n !in l && !n.WaitHead? && !n.BatchHead?
    ensures TakeFirst(m[n := z], w, k) == TakeFirst(m, w, k)[n := z]
  {
    hide *;
    CutOver(m, l, k, n, z);
    if k == |l| {
      MoveAllOver(m, WaitHead(0), l, BatchHead(w), n, z);
    } else {
      MoveBeforeOver(m, WaitHead(0), l, BatchHead(w), k, n, z);
    }
    TakenAs(m, w, k);
    TakenAs(m[n := z], w, k);
  }

  lemma TakenAs(m: Links<Node>, w: Wid, k: nat)
    ensures
      var cut := Walked(m, WaitHead(0), k + 1);
      && (k == 0 ==> TakeFirst(m, w, k) == m)
      && (k > 0 && cut == WaitHead(0) ==> TakeFirst(m, w, k) == MoveAll(m, WaitHead(0), BatchHead(w)))
      && (k > 0 && cut != WaitHead(0) ==> TakeFirst(m, w, k) == MoveBefore(m, WaitHead(0), BatchHead(w), cut))
  {}

  lemma ExpireOver(s: State, e: Mem, w: Wid, k: nat, n: Node, z: Side<Node>)
    requires Inv(s) && ListsAgree(s, e) && w < |s.ws| && Foreign(s, w, n) && s.objs != []
    ensures ExpireMem(s, OverLink(e, n, z), w, k) == OverLink(ExpireMem(s, e, w, k), n, z)
  {
    var m, head, at := Join(e.m, BatchHead(w), BatchHead(w)), WaitHead(0), TimerPlace(s, k);
    ForeignApart(s, w, n, head);
    FreshHead(s, e, w, head);
    assert at <= |List(s, head)|;
    hide Inv, ListsAgree, Circle, Join, TakeFirst, Started, Foreign, List, TimerPlace;
    TakeFirstOver(m, List(s, head), w, at, n, z);
    StartOver(e, w, n, z);
    StartOver(e.(m := TakeFirst(m, w, at)), w, n, z);
  }

  lemma CodeOver(s: State, e: Mem, w: Wid, a: Act, f: Fid, n: Node, z: Side<Node>)
    requires Inv(s) && ListsAgree(s, e) && w < |s.ws| && Foreign(s, w, n) && s.ws[w].cur == Fib(f)
    ensures CodeMem(s, OverLink(e, n, z), w, a, f) == OverLink(CodeMem(s, e, w, a, f), n, z)
  {
    assert n != LinkOf(f);
    var e1 := e.(pairs := e.pairs[f := Pair(SCHED, f)]);
    assert OverLink(e1, n, z) == OverLink(e, n, z).(pairs := OverLink(e, n, z).pairs[f := Pair(SCHED, f)]);
    HeadsHome(s);
    hide Inv, ListsAgree, Append, Pop, Empty, TakeMem, LeaveMem, Foreign, Unlocked, OverLink, Home;
    match a
    case Block(o) => if Unlocked(s, o) { AppendOver(s, e, w, n, z, WaitHead(o), LinkOf(f)); }
    case WakeOne(o) => if Unlocked(s, o) { TakenOver(s, e, w, n, z, WaitHead(o), e); }
    case Handoff(o) => if Unlocked(s, o) { TakenOver(s, e, w, n, z, WaitHead(o), e1); }
    case WakeAll(o) => if Unlocked(s, o) { TakeOver(s, e, w, o, n, z); }
    case Spawn => TakenOver(s, e, w, n, z, DisposedHead, e);
    case At(_) =>
    case _ =>
      TakenOver(s, e, w, n, z, QueueHead, e);
      LeaveOver(s, e, w, f, n, z);
  }

  lemma PairOver(s: State, e: Mem, w: Wid, n: Node, z: Side<Node>)
    requires Inv(s) && ListsAgree(s, e) && w < |s.ws| && Foreign(s, w, n)
    requires s.ws[w].pc.Batch? && s.ws[w].pc.fs != [] && s.ws[w].pc.ths != []
    ensures BatchMem(OverLink(e, n, z), w) == OverLink(BatchMem(e, w), n, z)
  {
    BatchWalks(s, e, w);
    WalkGoesOn(e.m, BatchHead(w), List(s, BatchHead(w)), e.Loc(w).ix);
    WalkGoesOn(e.m, ThreadHead(w), List(s, ThreadHead(w)), e.Loc(w).iy);
    ForeignApart(s, w, n, BatchHead(w));
    ForeignApart(s, w, n, ThreadHead(w));
    assert e.Loc(w).ix in List(s, BatchHead(w)) && e.Loc(w).iy in List(s, ThreadHead(w));
    hide Inv, ListsAgree, Walk, List, Foreign, PrependAll, AppendAll, MoveAll, Join;
  }

  lemma FirstOfWalk(s: State, e: Mem, head: Node, ix: Node)
    requires Walk(e.m, head, List(s, head), ix) && List(s, head) != []
    ensures ix in List(s, head)
  {}

  lemma RestartedOver(e: Mem, w: Wid, n: Node, z: Side<Node>)
    requires !n.BatchHead? && !n.ThreadHead?
    ensures Restarted(OverLink(e, n, z), w) == OverLink(Restarted(e, w), n, z)
  {}

  lemma ReturnOver(s: State, e: Mem, w: Wid, ths: seq<Wid>, n: Node, z: Side<Node>)
    requires Inv(s) && ListsAgree(s, e) && w < |e.locs| && w < |s.ws| && s.ws[w].pc == Batch([], ths) && ths != [] && Foreign(s, w, n)
    ensures BatchMem(OverLink(e, n, z), w) == OverLink(BatchMem(e, w), n, z)
  {
    var mine, m1 := ThreadHead(w), Join(e.m, ThreadHead(w), e.Loc(w).iy);
    hide Inv, ListsAgree, Walk, List, Foreign, PrependAll, AppendAll, MoveAll, Join, BatchMem, Circle, Beside, Restarted;
    BatchWalks(s, e, w);
    ReturnMem(s, e, w, ths);
    ForeignApart(s, w, n, mine);
    ForeignApart(s, w, n, IdleHead);
    ForeignApart(s, w, n, QueueHead);
    FirstOfWalk(s, e, mine, e.Loc(w).iy);
    Ends(m1, QueueHead, List(s, QueueHead));
    JoinOver(e.m, mine, e.Loc(w).iy, n, z);
    JoinAllOver(m1, IdleHead, List(s, IdleHead), mine, List(s, mine), n, z);
    MoveAllOver(m1, QueueHead, List(s, QueueHead), BatchHead(w), n, z);
    ReturnedAs(e, w, m1);
    ReturnedAs(OverLink(e, n, z), w, m1[n := z]);
    RestartedOver(e.(m := MoveAll(m1, QueueHead, BatchHead(w))), w, n, z);
  }

  lemma StealOver(s: State, e: Mem, w: Wid, fs: seq<Fid>, n: Node, z: Side<Node>)
    requires Inv(s) && ListsAgree(s, e) && w < |e.locs| && w < |s.ws| && s.ws[w].pc == Batch(fs, []) && fs != [] && Foreign(s, w, n)
    ensures BatchMem(OverLink(e, n, z), w) == OverLink(BatchMem(e, w), n, z)
  {
    var mine, m1 := BatchHead(w), Join(e.m, BatchHead(w), e.Loc(w).ix);
    hide Inv, ListsAgree, Walk, List, Foreign, PrependAll, AppendAll, MoveAll, Join, BatchMem, Circle, Beside, Restarted;
    BatchWalks(s, e, w);
    StealMem(s, e, w, fs);
    ForeignApart(s, w, n, mine);
    ForeignApart(s, w, n, IdleHead);
    ForeignApart(s, w, n, QueueHead);
    FirstOfWalk(s, e, mine, e.Loc(w).ix);
    Ends(m1, IdleHead, List(s, IdleHead));
    JoinOver(e.m, mine, e.Loc(w).ix, n, z);
    JoinAllOver(m1, QueueHead, List(s, QueueHead), mine, List(s, mine), n, z);
    MoveAllOver(m1, IdleHead, List(s, IdleHead), ThreadHead(w), n, z);
    StolenAs(e, w, m1);
    StolenAs(OverLink(e, n, z), w, m1[n := z]);
    RestartedOver(e.(m := MoveAll(m1, IdleHead, ThreadHead(w))), w, n, z);
  }

  lemma BatchOver(s: State, e: Mem, w: Wid, n: Node, z: Side<Node>)
    requires Inv(s) && ListsAgree(s, e) && w < |e.locs| && w < |s.ws| && s.ws[w].pc.Batch? && Foreign(s, w, n)
    ensures BatchMem(OverLink(e, n, z), w) == OverLink(BatchMem(e, w), n, z)
  {
    var fs, ths := s.ws[w].pc.fs, s.ws[w].pc.ths;
    BatchWalks(s, e, w);
    if fs == [] && ths != [] {
      ReturnOver(s, e, w, ths, n, z);
    } else if fs != [] && ths == [] {
      StealOver(s, e, w, fs, n, z);
    } else if fs != [] {
      PairOver(s, e, w, n, z);
    }
    hide Inv, ListsAgree, Walk, List, Foreign, PrependAll, AppendAll, MoveAll, Join;
  }

  lemma FreeOver(s: State, e: Mem, w: Wid, a: Act, n: Node, z: Side<Node>)
    requires Agree(s, e) && w < |s.ws| && s.ws[w].pc.Free? && Foreign(s, w, n) && s.objs != []
    ensures FreeMem(s, OverLink(e, n, z), w, a) == OverLink(FreeMem(s, e, w, a), n, z)
  {
    var me, k := s.ws[w], if a.At? then a.k else 0;
    assert AgentOk(s, w);
    if me.pending.Push? {
      if !me.pending.call.Unlock? {
        assert PairOk(s, e, me.pending.call.f);
      }
      CallOver(s, e, w, me.pending.call, k, n, z);
    } else if me.cur.Loop? {
      LoopTurnOver(s, e, w, n, z);
      ExpireOver(s, e, w, k, n, z);
    } else {
      CodeOver(s, e, w, a, me.cur.f, n, z);
    }
    hide Inv, ListsAgree, CallMem, ExpireMem, LoopTurnMem, CodeMem, Foreign, PairOk;
  }

  lemma QuietOver(s: State, e: Mem, w: Wid, a: Act, n: Node, z: Side<Node>)
    requires w < |s.ws| && !s.ws[w].pc.Free? && !s.ws[w].pc.Waking? && !s.ws[w].pc.Batch?
    ensures MemStep(s, OverLink(e, n, z), w, a) == OverLink(MemStep(s, e, w, a), n, z)
  {
    hide FreeMem, EnqueueMem, BatchMem;
  }

  lemma MemOver(s: State, e: Mem, w: Wid, a: Act, n: Node, z: Side<Node>)
    requires Agree(s, e) && w < |s.ws| && Foreign(s, w, n)
    ensures MemStep(s, OverLink(e, n, z), w, a) == OverLink(MemStep(s, e, w, a), n, z)
  {
    assert LocalOk(s, e, w) && s.objs != [] && Inv(s) && ListsAgree(s, e) && w < |e.locs|;
    hide Agree, Foreign, FreeMem, EnqueueMem, BatchMem, OverLink, LocalOk;
    match s.ws[w].pc
    case Free => FreeOver(s, e, w, a, n, z);
    case Waking(_) => EnqueueOver(s, e, w, n, z);
    case Batch(_, _) => BatchOver(s, e, w, n, z);
    case _ => QuietOver(s, e, w, a, n, z);
  }

  /** Nor does anybody else read or write a fiber's pair but itself and the call it has pushed. */
  lemma CodePairOver(s: State, e: Mem, w: Wid, a: Act, g: Fid, f: Fid, p: Pair)
    requires g != f
    ensures CodeMem(s, OverPair(e, f, p), w, a, g) == OverPair(CodeMem(s, e, w, a, g), f, p)
  {
    hide PopHead, AddTail, MoveAll, Join, Next;
    assert e.pairs[f := p][g := Pair(SCHED, g)] == e.pairs[g := Pair(SCHED, g)][f := p];
  }

  lemma CallPairOver(s: State, e: Mem, w: Wid, call: Call, k: nat, f: Fid, p: Pair)
    requires !Publishes(call, f)
    ensures CallMem(s, OverPair(e, f, p), w, call, k) == OverPair(CallMem(s, e, w, call, k), f, p)
  {
    hide AddAfter, AddTail, Walked, Next;
  }

  lemma LoopPairOver(s: State, e: Mem, w: Wid, k: nat, f: Fid, p: Pair)
    ensures ExpireMem(s, OverPair(e, f, p), w, k) == OverPair(ExpireMem(s, e, w, k), f, p)
    ensures LoopTurnMem(OverPair(e, f, p), w) == OverPair(LoopTurnMem(e, w), f, p)
    ensures EnqueueMem(OverPair(e, f, p), w) == OverPair(EnqueueMem(e, w), f, p)
  {
    hide TakeFirst, AddTail, PopHead, Join, Next;
  }

  lemma BatchPairOver(e: Mem, w: Wid, f: Fid, p: Pair)
    ensures BatchMem(OverPair(e, f, p), w) == OverPair(BatchMem(e, w), f, p)
  {
    hide PrependAll, AppendAll, MoveAll, Join, Next;
  }

  lemma FreePairOver(s: State, e: Mem, w: Wid, a: Act, f: Fid, p: Pair)
    requires w < |s.ws| && s.ws[w].cur != Fib(f) && (s.ws[w].pending.Push? ==> !Publishes(s.ws[w].pending.call, f))
    ensures FreeMem(s, OverPair(e, f, p), w, a) == OverPair(FreeMem(s, e, w, a), f, p)
  {
    hide CallMem, CodeMem, ExpireMem, LoopTurnMem, OverPair;
    var me, k := s.ws[w], if a.At? then a.k else 0;
    if me.pending.Push? {
      CallPairOver(s, e, w, me.pending.call, k, f, p);
    } else if me.cur.Fib? {
      CodePairOver(s, e, w, a, me.cur.f, f, p);
    } else {
      LoopPairOver(s, e, w, k, f, p);
    }
  }

  lemma MemPairOver(s: State, e: Mem, w: Wid, a: Act, f: Fid, p: Pair)
    requires w < |s.ws| && s.ws[w].cur != Fib(f) && (s.ws[w].pending.Push? ==> !Publishes(s.ws[w].pending.call, f))
    ensures MemStep(s, OverPair(e, f, p), w, a) == OverPair(MemStep(s, e, w, a), f, p)
  {
    hide FreeMem, EnqueueMem, BatchMem;
    match s.ws[w].pc
    case Free => FreePairOver(s, e, w, a, f, p);
    case Waking(_) => LoopPairOver(s, e, w, 0, f, p);
    case Batch(_, _) => BatchPairOver(e, w, f, p);
    case _ =>
  }

  /** The words under the lists do not depend on saved stack pointers. */
  lemma MemAim(s: State, e: Mem, w: Wid, a: Act, f: Fid, top: Top)
    requires w < |s.ws|
    ensures MemStep(Scribble(s, f, top), e, w, a) == MemStep(s, e, w, a)
    ensures Waits(Scribble(s, f, top), e, w, a) <==> Waits(s, e, w, a)
  {
    hide LoopTurnMem, EnqueueMem, BatchMem, LeaveMem, TakeMem, TakeFirst, AddAfter, AddTail, Walked, Pop;
  }

  /** The record of `f`, link and saved stack pointer, and its pair, with anything in them. */
  function Over(l: LState, f: Fid, top: Top, z: Side<Node>, p: Pair): LState {
    LState(Scribble(l.s, f, top), OverPair(OverLink(l.e, LinkOf(f), z), f, p))
  }

  lemma NextOver(s: State, e: Mem, w: Wid, a: Act, f: Fid, top: Top, z: Side<Node>, p: Pair)
    requires Agree(s, e) && w < |s.ws| && s.ws[w].cur != Fib(f) && Foreign(s, w, LinkOf(f))
    ensures
      NextMem(Scribble(s, f, top), OverPair(OverLink(e, LinkOf(f), z), f, p), w, a)
      == OverPair(OverLink(NextMem(s, e, w, a), LinkOf(f), z), f, p)
  {
    var e1 := OverLink(e, LinkOf(f), z);
    MemAim(s, OverPair(e1, f, p), w, a, f, top);
    MemPairOver(s, e1, w, a, f, p);
    MemOver(s, e, w, a, LinkOf(f), z);
    LockOver(MemStep(s, e, w, a), w, f, z, p);
    SameAgents(s, f, top);
    hide Agree, MemStep, Scribble, OverPair, OverLink, Lock, Foreign;
  }

  lemma LStepOver(l: LState, w: Wid, a: Act, f: Fid, top: Top, z: Side<Node>, p: Pair)
    requires Agree(l.s, l.e) && w < |l.s.ws| && RecordDone(l.s, f) && l.s.ws[w].cur != Fib(f)
    ensures LStep(Over(l, f, top, z, p), w, a) == Over(LStep(l, w, a), f, top, z, p)
  {
    var s, e := l.s, l.e;
    assert LockOk(s, e, w) && s.objs != [] && e.Loc(w).unlocking != Some(f) && Foreign(s, w, LinkOf(f)) && !ReadsOther(s.ws[w].pc, f) by {
      RecordIsDone(s, w, f);
    }
    hide Agree;
    ScribbleCommutes(s, w, a, f, top);
    NextOver(s, e, w, a, f, top, z, p);
    WaitsOver(s, e, w, a, f, z, p);
    MemAim(s, OverPair(OverLink(e, LinkOf(f), z), f, p), w, a, f, top);
    SameAgents(s, f, top);
    LockOver(e, w, f, z, p);
    LStepIs(l, w, a);
    LStepIs(Over(l, f, top, z, p), w, a);
    OverReads(e, w, f, z, p);
    hide LStep, NextMem, Step, Waits, Scribble, Release, OverPair, OverLink, LockOk, Foreign, ReadsOther;
  }

  lemma LStepIs(l: LState, w: Wid, a: Act)
    requires w < |l.s.ws|
    ensures
      LStep(l, w, a) ==
        if l.e.Loc(w).unlocking.Some? then
          if l.e.PairAt(l.e.Loc(w).unlocking.value).sched == SCHED then LState(l.s, Release(l.e, w)) else l
        else if Waits(l.s, l.e, w, a) then l
        else LState(Step(l.s, w, a), NextMem(l.s, l.e, w, a))
  {}

  lemma OverReads(e: Mem, w: Wid, f: Fid, z: Side<Node>, p: Pair)
    ensures OverPair(OverLink(e, LinkOf(f), z), f, p).Loc(w) == e.Loc(w)
    ensures forall g: Fid :: g != f ==> OverPair(OverLink(e, LinkOf(f), z), f, p).PairAt(g) == e.PairAt(g)
  {}

  lemma SameAgents(s: State, f: Fid, top: Top)
    ensures Scribble(s, f, top).ws == s.ws
  {}

  lemma WaitsOver(s: State, e: Mem, w: Wid, a: Act, f: Fid, z: Side<Node>, p: Pair)
    requires w < |s.ws| && (s.ws[w].pending.Push? ==> !Publishes(s.ws[w].pending.call, f))
    ensures Waits(s, OverPair(OverLink(e, LinkOf(f), z), f, p), w, a) <==> Waits(s, e, w, a)
  {}

  lemma LockOver(e: Mem, w: Wid, f: Fid, z: Side<Node>, p: Pair)
    ensures forall call :: Lock(OverPair(OverLink(e, LinkOf(f), z), f, p), w, call) == OverPair(OverLink(Lock(e, w, call), LinkOf(f), z), f, p)
    ensures Release(OverPair(OverLink(e, LinkOf(f), z), f, p), w) == OverPair(OverLink(Release(e, w), LinkOf(f), z), f, p)
  {}

  lemma LockLinkOver(e: Mem, w: Wid, n: Node, z: Side<Node>)
    ensures forall call :: Lock(OverLink(e, n, z), w, call) == OverLink(Lock(e, w, call), n, z)
    ensures Release(OverLink(e, n, z), w) == OverLink(Release(e, w), n, z)
    ensures OverLink(e, n, z).Loc(w) == e.Loc(w) && forall f: Fid :: OverLink(e, n, z).PairAt(f) == e.PairAt(f)
  {}

  lemma WaitsLinkOver(s: State, e: Mem, w: Wid, a: Act, n: Node, z: Side<Node>)
    requires w < |s.ws|
    ensures Waits(s, OverLink(e, n, z), w, a) <==> Waits(s, e, w, a)
  {}

  lemma ThreadOver(l: LState, w: Wid, a: Act, t: Wid, z: Side<Node>)
    requires Agree(l.s, l.e) && w < |l.s.ws| && t != w && Home(l.s, ThreadOf(t)).None?
    ensures
      var over := LStep(l.(e := OverLink(l.e, ThreadOf(t), z)), w, a);
      over.e == OverLink(LStep(l, w, a).e, ThreadOf(t), z) && over.s == LStep(l, w, a).s
  {
    var n := ThreadOf(t);
    hide Agree;
    MemOver(l.s, l.e, w, a, n, z);
    LockLinkOver(l.e, w, n, z);
    LockLinkOver(MemStep(l.s, l.e, w, a), w, n, z);
    WaitsLinkOver(l.s, l.e, w, a, n, z);
    LStepIs(l, w, a);
    LStepIs(l.(e := OverLink(l.e, n, z)), w, a);
    hide LStep, Step, MemStep, Waits, Release, Lock, OverLink, Home;
  }

  // ------------------------------------------------------------ theorems over every run

  /** In every run, whatever is put at any time in the words that are not in use, every shared
      list is the circle, by the links in memory, of exactly the fibers or threads that the
      machine has on it, in order. */
  lemma LinksAreTheLists(extra: nat, objects: nat, es: seq<Event>)
    ensures
      var s, m := Run(extra, objects, es).s, Run(extra, objects, es).e.m;
      && Circle(m, QueueHead, LinksOf(s.queue)) && Circle(m, IdleHead, ThreadsOf(s.idle))
      && Circle(m, DisposedHead, LinksOf(s.disposed))
      && forall o :: 0 <= o < |s.objs| ==> Circle(m, WaitHead(o), LinksOf(s.objs[o].waiters))
  {
    RunAgrees(extra, objects, es);
    var s, e := Run(extra, objects, es).s, Run(extra, objects, es).e;
    assert ListOk(s, e, QueueHead) && ListOk(s, e, IdleHead) && ListOk(s, e, DisposedHead);
    forall o | 0 <= o < |s.objs|
      ensures Circle(e.m, WaitHead(o), LinksOf(s.objs[o].waiters))
    {
      assert ListOk(s, e, WaitHead(o));
    }
  }

  /** What a thread has read through links is what the machine says it has: the record it has
      popped, the thread it has popped, and the next fiber and thread of a batch. */
  lemma PointersAreRight(extra: nat, objects: nat, es: seq<Event>, w: Wid)
    requires w < |Run(extra, objects, es).s.ws|
    ensures
      var s, x := Run(extra, objects, es).s, Run(extra, objects, es).e.Loc(w);
      match s.ws[w].pc
      case LoopPopped(f) => x.it == LinkOf(f)
      case Popped(f, _) => x.it == LinkOf(f)
      case Waking(f) => x.it == LinkOf(f)
      case Giving(f, th) => x.it == LinkOf(f) && x.th == ThreadOf(th)
      case Batch(fs, ths) =>
        && x.ix == (if fs == [] then BatchHead(w) else LinkOf(fs[0]))
        && x.iy == (if ths == [] then ThreadHead(w) else ThreadOf(ths[0]))
      case BatchSignal(_, fs, ths) =>
        && x.ix == (if fs == [] then BatchHead(w) else LinkOf(fs[0]))
        && x.iy == (if ths == [] then ThreadHead(w) else ThreadOf(ths[0]))
      case _ => true
  {
    RunAgrees(extra, objects, es);
    var s, e := Run(extra, objects, es).s, Run(extra, objects, es).e;
    assert LocalOk(s, e, w) && ListOk(s, e, BatchHead(w)) && ListOk(s, e, ThreadHead(w));
    hide Run, Inv;
  }

  /** A deferred call finds its pair as it was written, and so does the second read, by which
      it unlocks; until then the fiber it put on a list is still there, and the lock is held. */
  lemma PairsAreRight(extra: nat, objects: nat, es: seq<Event>, w: Wid, f: Fid)
    requires w < |Run(extra, objects, es).s.ws|
    ensures
      var s, e := Run(extra, objects, es).s, Run(extra, objects, es).e;
      && (Calls(s, w) && Publishes(s.ws[w].pending.call, f) ==> e.PairAt(f) == Pair(SCHED, f))
      && (e.Loc(w).unlocking == Some(f) ==>
            && e.PairAt(f) == Pair(SCHED, f)
            && ((e.disposedLock == Some(w) && f in s.disposed) || (e.timerLock == Some(w) && s.objs != [] && f in s.objs[0].waiters)))
  {
    RunAgrees(extra, objects, es);
    var s, e := Run(extra, objects, es).s, Run(extra, objects, es).e;
    assert AgentOk(s, w) && PairOk(s, e, f) && LockOk(s, e, w);
    assert f < |s.fib| ==> FiberOk(s, f);
    hide Run;
  }

  /** So the words only ever delay a step, for a lock that somebody holds; otherwise the step
      is that of the machine. */
  lemma OnlyLocksDelay(extra: nat, objects: nat, es: seq<Event>, w: Wid, a: Act)
    requires w < |Run(extra, objects, es).s.ws|
    ensures
      var l := Run(extra, objects, es);
      && (l.e.disposedLock.None? && l.e.timerLock.None? ==> LStep(l, w, a).s == Step(l.s, w, a))
      && (l.e.Loc(w).unlocking.Some? ==> LStep(l, w, a).s == l.s && LStep(l, w, a).e.Loc(w).unlocking.None?)
  {
    RunAgrees(extra, objects, es);
    var l := Run(extra, objects, es);
    assert AgentOk(l.s, w) && LockOk(l.s, l.e, w);
    if Calls(l.s, w) && !l.s.ws[w].pending.call.Unlock? {
      assert PairOk(l.s, l.e, l.s.ws[w].pending.call.f);
    }
    if l.e.Loc(w).unlocking.Some? {
      assert PairOk(l.s, l.e, l.e.Loc(w).unlocking.value);
    }
    hide Run, Inv, Step, MemStep;
  }

  /** No use after resume: once a fiber's stack pointer is in a slot or in the record of a fiber
      about to switch to it, or the fiber runs, or its block is reclaimed, its record, link and
      pointer, and its pair may hold anything: the step of every other agent is the same. */
  lemma NothingIsReadAfterResume(extra: nat, objects: nat, es: seq<Event>, w: Wid, a: Act, f: Fid, top: Top, z: Side<Node>, p: Pair)
    requires w < |Run(extra, objects, es).s.ws|
    requires RecordDone(Run(extra, objects, es).s, f) && Run(extra, objects, es).s.ws[w].cur != Fib(f)
    ensures LStep(Over(Run(extra, objects, es), f, top, z, p), w, a) == Over(LStep(Run(extra, objects, es), w, a), f, top, z, p)
  {
    RunAgrees(extra, objects, es);
    hide Agree, LStep, Over, RecordDone;
    LStepOver(Run(extra, objects, es), w, a, f, top, z, p);
  }

  /** Nor does it matter what a thread's own link holds once the thread has been popped, and it
      may park and be linked again before the thread that signalled it goes on. */
  lemma PoppedThreadsLinkIsFree(extra: nat, objects: nat, es: seq<Event>, w: Wid, a: Act, t: Wid, z: Side<Node>)
    requires w < |Run(extra, objects, es).s.ws| && t != w && Home(Run(extra, objects, es).s, ThreadOf(t)).None?
    ensures
      var l := Run(extra, objects, es);
      LStep(l.(e := OverLink(l.e, ThreadOf(t), z)), w, a).e == OverLink(LStep(l, w, a).e, ThreadOf(t), z)
      && LStep(l.(e := OverLink(l.e, ThreadOf(t), z)), w, a).s == LStep(l, w, a).s
  {
    RunAgrees(extra, objects, es);
    var l := Run(extra, objects, es);
    hide Agree, Run;
    ThreadOver(l, w, a, t, z);
  }
}
