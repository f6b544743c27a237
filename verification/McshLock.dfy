/**
 The MCSH queue lock (src/mcsh-lock.c): a queue lock whose stack node dies before
 the critical section begins.  One shared access is one step, any number of
 threads, each thread reusing one node address for all its acquisitions.
 Memory is sequentially consistent.
 */
module McshLock {

  type Tid = nat

  /** A `fjx_mcshlock *`: NULL, the lock itself, or the stack node `mm` of a thread. */
  datatype Ptr = Null | Lock | Node(owner: Tid)

  /** What a thread does next. */
  datatype Pc =
    | Outside
    | Exchanging
    | AwaitingLockMsg
    | ClaimingMsg
    | Linking(prev: Ptr)
    | AwaitingOwnMsg
    | LoadingSucc
    | TryingCas
    | AwaitingSucc
    | Publishing(succ: Ptr)
    | Inside
    | Releasing(next: Ptr)

  /** A thread with its node `mm = {tail, msg}`.  History: `ticket` is the place of its
      last exchange in the order of all exchanges. */
  datatype Thread = Thread(pc: Pc, tail: Ptr, msg: Ptr, ticket: nat)

  /** The lock word `{tail, msg}` and the threads.  History: `arrived` is the order of the
      tail exchanges, of which the first `released` acquisitions have been released. */
  datatype State = State(tail: Ptr, msg: Ptr, th: seq<Thread>, arrived: seq<Tid>, released: nat)
  {
    function StoreTail(p: Ptr, v: Ptr): State {
      match p
      case Null => this
      case Lock => this.(tail := v)
      case Node(u) => if u < |th| then this.(th := th[u := th[u].(tail := v)]) else this
    }

    function StoreMsg(p: Ptr, v: Ptr): State {
      match p
      case Null => this
      case Lock => this.(msg := v)
      case Node(u) => if u < |th| then this.(th := th[u := th[u].(msg := v)]) else this
    }

    function Goto(t: Tid, p: Pc): State
      requires t < |th|
    {
      this.(th := th[t := th[t].(pc := p)])
    }
  }

  function Init(n: nat): State {
    State(Null, Null, seq(n, _ => Thread(Outside, Null, Null, 0)), [], 0)
  }

  /** Thread `t` performs its next shared access; an await that fails reads and stays. */
  function Step(s: State, t: Tid): State
    requires t < |s.th|
  {
    var me := s.th[t];
    match me.pc
    case Outside => s.(th := s.th[t := me.(pc := Exchanging, tail := Lock, msg := Lock)])
    case Exchanging =>
      s.(tail := Node(t), arrived := s.arrived + [t],
      th := s.th[t := me.(ticket := |s.arrived|,
      pc := if s.tail == Null then AwaitingLockMsg else Linking(s.tail))])
    case AwaitingLockMsg => if s.msg == Null then s.Goto(t, ClaimingMsg) else s
    case ClaimingMsg => s.(msg := Lock).Goto(t, LoadingSucc)
    case Linking(prev) => s.StoreTail(prev, Node(t)).Goto(t, AwaitingOwnMsg)
    case AwaitingOwnMsg => if me.msg == Null then s.Goto(t, LoadingSucc) else s
    case LoadingSucc => s.Goto(t, if me.tail == Lock then TryingCas else Publishing(me.tail))
    case TryingCas =>
      if s.tail == Node(t) then s.(tail := Null).Goto(t, Publishing(Lock)) else s.Goto(t, AwaitingSucc)
    case AwaitingSucc => if me.tail != Lock then s.Goto(t, Publishing(me.tail)) else s
    case Publishing(succ) => s.(msg := succ).Goto(t, Inside)
    case Inside => s.Goto(t, Releasing(s.msg))
    case Releasing(succ) => s.StoreMsg(succ, Null).Goto(t, Outside).(released := s.released + 1)
  }

  // ---------------------------------------------------------------- invariant

  /** Between the exchange and the return from lock: the thread's node is in use. */
  predicate NodeInUse(p: Pc) {
    !p.Outside? && !p.Exchanging? && !p.Inside? && !p.Releasing?
  }

  /** Past its await, and before the store that releases. */
  predicate Owns(p: Pc) {
    p.ClaimingMsg? || p.LoadingSucc? || p.TryingCas? || p.AwaitingSucc? || p.Publishing?
    || p.Inside? || p.Releasing?
  }

  predicate Queued(p: Pc) {
    !p.Outside? && !p.Exchanging?
  }

  /** Place `k` of the exchange order is taken by a thread that has not released. */
  predicate Waits(s: State, k: int) {
    s.released <= k < |s.arrived| && s.arrived[k] < |s.th|
  }

  /** Threads and places in the queue of exchanges correspond one to one. */
  ghost predicate Members(s: State) {
    && s.released <= |s.arrived|
    && (forall k :: s.released <= k < |s.arrived| ==>
          Waits(s, k) && Queued(s.th[s.arrived[k]].pc) && s.th[s.arrived[k]].ticket == k)
    && (forall t :: 0 <= t < |s.th| ==> Queued(s.th[t].pc) ==>
          Waits(s, s.th[t].ticket) && s.arrived[s.th[t].ticket] == t)
    && (forall t :: 0 <= t < |s.th| ==> s.th[t].pc.Exchanging? ==>
          s.th[t].tail == s.th[t].msg == Lock)
  }

  /** The owner took itself off the tail, so the next arrival sees NULL. */
  predicate Cut(s: State) {
    Waits(s, s.released) &&
    var p := s.th[s.arrived[s.released]].pc;
    p == Publishing(Lock) || (p.Inside? && s.msg == Lock) || p == Releasing(Lock)
  }

  /** The thread at place `k` reached its predecessor's node: about to link, or linked. */
  predicate Chained(s: State, k: int) {
    Waits(s, k) && Waits(s, k - 1) &&
    var t, p := s.arrived[k], s.arrived[k - 1];
    && s.th[t].msg == Lock
    && ((s.th[t].pc == Linking(Node(p)) && s.th[p].tail == Lock)
        || (s.th[t].pc == AwaitingOwnMsg && s.th[p].tail == Node(t)))
  }

  ghost predicate Followers(s: State) {
    && (Cut(s) && Waits(s, s.released + 1) ==> s.th[s.arrived[s.released + 1]].pc == AwaitingLockMsg)
    && (forall k ::
          (if Cut(s) then s.released + 1 else s.released) < k < |s.arrived| ==> Chained(s, k))
  }

  predicate Tail(s: State) {
    var last := |s.arrived| - 1;
    if last < s.released || (Cut(s) && s.released == last) then
      s.tail == Null
    else
      Waits(s, last) && s.tail == Node(s.arrived[last]) && s.th[s.arrived[last]].tail == Lock
  }

  /** The successor pointer the owner holds: none yet, or a linked and waiting thread. */
  predicate GoodSucc(s: State, succ: Ptr) {
    || succ == Lock
    || (Waits(s, s.released + 1) && succ == Node(s.arrived[s.released + 1])
        && s.th[s.arrived[s.released + 1]].pc == AwaitingOwnMsg)
  }

  predicate Head(s: State) {
    if !Waits(s, s.released) then s.msg == Null else
    var me := s.th[s.arrived[s.released]];
    match me.pc
    case AwaitingLockMsg => s.msg == Null
    case ClaimingMsg => s.msg == Null
    case AwaitingOwnMsg => s.msg != Null && me.msg == Null
    case LoadingSucc => s.msg != Null
    case TryingCas => s.msg != Null
    case AwaitingSucc => s.msg != Null && Waits(s, s.released + 1)
    case Publishing(succ) => s.msg != Null && GoodSucc(s, succ)
    case Inside => GoodSucc(s, s.msg)
    case Releasing(succ) => s.msg == succ && GoodSucc(s, succ)
    case _ => false
  }

  ghost predicate Inv(s: State) {
    Members(s) && Followers(s) && Tail(s) && Head(s)
  }

  lemma InitInv(n: nat)
    ensures Inv(Init(n))
  {}

  /** Who waits in line, thread by thread, after one step. */
  lemma StepMembers(s: State, t: Tid)
    requires Inv(s) && t < |s.th| && !s.th[t].pc.Linking? && !s.th[t].pc.Releasing?
    ensures Members(Step(s, t))
  {
    hide Followers, Tail, Head;
  }

  /** The thread past its await is the one at the front of the exchange order. */
  lemma OwnerIsFirst(s: State, t: Tid)
    requires Inv(s) && t < |s.th| && Owns(s.th[t].pc)
    ensures Waits(s, s.released) && s.arrived[s.released] == t
  {
    var j := s.th[t].ticket;
    assert s.released < j ==> (Cut(s) && j == s.released + 1) || Chained(s, j);
  }

  lemma OutsideInv(s: State, t: Tid)
    requires Inv(s) && t < |s.th| && s.th[t].pc.Outside?
    ensures Inv(Step(s, t))
  {
    StepMembers(s, t);
    var s' := Step(s, t);
    forall k | (if Cut(s') then s'.released + 1 else s'.released) < k < |s'.arrived|
      ensures Chained(s', k)
    {
      assert (if Cut(s) then s.released + 1 else s.released) < k < |s.arrived| ==> Chained(s, k);
    }
  }

  lemma ExchangeInv(s: State, t: Tid)
    requires Inv(s) && t < |s.th| && s.th[t].pc.Exchanging?
    ensures Inv(Step(s, t))
  {
    StepMembers(s, t);
    var s' := Step(s, t);
    forall k | (if Cut(s') then s'.released + 1 else s'.released) < k < |s'.arrived|
      ensures Chained(s', k)
    {
      assert (if Cut(s) then s.released + 1 else s.released) < k < |s.arrived| ==> Chained(s, k);
    }
  }

  lemma AwaitLockInv(s: State, t: Tid)
    requires Inv(s) && t < |s.th| && s.th[t].pc.AwaitingLockMsg?
    ensures Inv(Step(s, t))
  {
    StepMembers(s, t);
    var s' := Step(s, t);
    forall k | (if Cut(s') then s'.released + 1 else s'.released) < k < |s'.arrived|
      ensures Chained(s', k)
    {
      assert (if Cut(s) then s.released + 1 else s.released) < k < |s.arrived| ==> Chained(s, k);
    }
  }

  lemma ClaimInv(s: State, t: Tid)
    requires Inv(s) && t < |s.th| && s.th[t].pc.ClaimingMsg?
    ensures Inv(Step(s, t))
  {
    StepMembers(s, t);
    OwnerIsFirst(s, t);
    var s' := Step(s, t);
    forall k | (if Cut(s') then s'.released + 1 else s'.released) < k < |s'.arrived|
      ensures Chained(s', k)
    {
      assert (if Cut(s) then s.released + 1 else s.released) < k < |s.arrived| ==> Chained(s, k);
    }
  }

  lemma LinkMembers(s: State, t: Tid)
    requires Inv(s) && t < |s.th| && s.th[t].pc.Linking?
    ensures Members(Step(s, t))
  {
    assert Chained(s, s.th[t].ticket);
  }

  lemma LinkFollowers(s: State, t: Tid)
    requires Inv(s) && t < |s.th| && s.th[t].pc.Linking?
    ensures Followers(Step(s, t))
  {
    assert Chained(s, s.th[t].ticket);
    var s' := Step(s, t);
    forall k | (if Cut(s') then s'.released + 1 else s'.released) < k < |s'.arrived|
      ensures Chained(s', k)
    {
      assert (if Cut(s) then s.released + 1 else s.released) < k < |s.arrived| ==> Chained(s, k);
    }
  }

  lemma LinkEnds(s: State, t: Tid)
    requires Inv(s) && t < |s.th| && s.th[t].pc.Linking?
    ensures Tail(Step(s, t)) && Head(Step(s, t))
  {
    assert Chained(s, s.th[t].ticket);
  }

  lemma LinkInv(s: State, t: Tid)
    requires Inv(s) && t < |s.th| && s.th[t].pc.Linking?
    ensures Inv(Step(s, t))
  {
    hide Members, Followers, Tail, Head, Step;
    LinkMembers(s, t);
    LinkFollowers(s, t);
    LinkEnds(s, t);
  }

  lemma AwaitOwnFollowers(s: State, t: Tid)
    requires Inv(s) && t < |s.th| && s.th[t].pc.AwaitingOwnMsg?
    ensures Followers(Step(s, t))
  {
    StepMembers(s, t);
    assert s.released < s.th[t].ticket ==> Chained(s, s.th[t].ticket);
    var s' := Step(s, t);
    forall k | (if Cut(s') then s'.released + 1 else s'.released) < k < |s'.arrived|
      ensures Chained(s', k)
    {
      assert (if Cut(s) then s.released + 1 else s.released) < k < |s.arrived| ==> Chained(s, k);
    }
  }

  lemma AwaitOwnEnds(s: State, t: Tid)
    requires Inv(s) && t < |s.th| && s.th[t].pc.AwaitingOwnMsg?
    ensures Tail(Step(s, t)) && Head(Step(s, t))
  {
    StepMembers(s, t);
    assert s.released < s.th[t].ticket ==> Chained(s, s.th[t].ticket);
  }

  lemma AwaitOwnInv(s: State, t: Tid)
    requires Inv(s) && t < |s.th| && s.th[t].pc.AwaitingOwnMsg?
    ensures Inv(Step(s, t))
  {
    hide Members, Followers, Tail, Head, Step;
    StepMembers(s, t);
    AwaitOwnFollowers(s, t);
    AwaitOwnEnds(s, t);
  }

  lemma LoadSuccInv(s: State, t: Tid)
    requires Inv(s) && t < |s.th| && s.th[t].pc.LoadingSucc?
    ensures Inv(Step(s, t))
  {
    StepMembers(s, t);
    OwnerIsFirst(s, t);
    assert s.released + 1 < |s.arrived| ==> Chained(s, s.released + 1);
    var s' := Step(s, t);
    forall k | (if Cut(s') then s'.released + 1 else s'.released) < k < |s'.arrived|
      ensures Chained(s', k)
    {
      assert (if Cut(s) then s.released + 1 else s.released) < k < |s.arrived| ==> Chained(s, k);
    }
  }

  lemma CasInv(s: State, t: Tid)
    requires Inv(s) && t < |s.th| && s.th[t].pc.TryingCas?
    ensures Inv(Step(s, t))
  {
    StepMembers(s, t);
    OwnerIsFirst(s, t);
    var s' := Step(s, t);
    forall k | (if Cut(s') then s'.released + 1 else s'.released) < k < |s'.arrived|
      ensures Chained(s', k)
    {
      assert (if Cut(s) then s.released + 1 else s.released) < k < |s.arrived| ==> Chained(s, k);
    }
  }

  lemma AwaitSuccInv(s: State, t: Tid)
    requires Inv(s) && t < |s.th| && s.th[t].pc.AwaitingSucc?
    ensures Inv(Step(s, t))
  {
    StepMembers(s, t);
    OwnerIsFirst(s, t);
    assert s.released + 1 < |s.arrived| ==> Chained(s, s.released + 1);
    var s' := Step(s, t);
    forall k | (if Cut(s') then s'.released + 1 else s'.released) < k < |s'.arrived|
      ensures Chained(s', k)
    {
      assert (if Cut(s) then s.released + 1 else s.released) < k < |s.arrived| ==> Chained(s, k);
    }
  }

  lemma PublishInv(s: State, t: Tid)
    requires Inv(s) && t < |s.th| && s.th[t].pc.Publishing?
    ensures Inv(Step(s, t))
  {
    StepMembers(s, t);
    OwnerIsFirst(s, t);
    var s' := Step(s, t);
    forall k | (if Cut(s') then s'.released + 1 else s'.released) < k < |s'.arrived|
      ensures Chained(s', k)
    {
      assert (if Cut(s) then s.released + 1 else s.released) < k < |s.arrived| ==> Chained(s, k);
    }
  }

  lemma InsideInv(s: State, t: Tid)
    requires Inv(s) && t < |s.th| && s.th[t].pc.Inside?
    ensures Inv(Step(s, t))
  {
    StepMembers(s, t);
    OwnerIsFirst(s, t);
    var s' := Step(s, t);
    forall k | (if Cut(s') then s'.released + 1 else s'.released) < k < |s'.arrived|
      ensures Chained(s', k)
    {
      assert (if Cut(s) then s.released + 1 else s.released) < k < |s.arrived| ==> Chained(s, k);
    }
  }

  lemma ReleaseFollowers(s: State, t: Tid)
    requires Inv(s) && t < |s.th| && s.th[t].pc.Releasing?
    ensures Followers(Step(s, t))
  {
    OwnerIsFirst(s, t);
    ReleaseMembers(s, t);
    var s' := Step(s, t);
    forall k | (if Cut(s') then s'.released + 1 else s'.released) < k < |s'.arrived|
      ensures Chained(s', k)
    {
      assert (if Cut(s) then s.released + 1 else s.released) < k < |s.arrived| ==> Chained(s, k);
    }
  }

  lemma ReleaseEnds(s: State, t: Tid)
    requires Inv(s) && t < |s.th| && s.th[t].pc.Releasing?
    ensures Tail(Step(s, t)) && Head(Step(s, t))
  {
    OwnerIsFirst(s, t);
    ReleaseMembers(s, t);
  }

  lemma ReleaseInv(s: State, t: Tid)
    requires Inv(s) && t < |s.th| && s.th[t].pc.Releasing?
    ensures Inv(Step(s, t))
  {
    hide Members, Followers, Tail, Head, Step;
    ReleaseMembers(s, t);
    ReleaseFollowers(s, t);
    ReleaseEnds(s, t);
  }

  lemma ReleaseMembers(s: State, t: Tid)
    requires Inv(s) && t < |s.th| && s.th[t].pc.Releasing?
    ensures Members(Step(s, t))
  {
    OwnerIsFirst(s, t);
    hide Followers, Tail, Head;
  }

  lemma StepInv(s: State, t: Tid)
    requires Inv(s) && t < |s.th|
    ensures Inv(Step(s, t)) && |Step(s, t).th| == |s.th|
  {
    hide Inv;
    match s.th[t].pc
    case Outside => OutsideInv(s, t);
    case Exchanging => ExchangeInv(s, t);
    case AwaitingLockMsg => AwaitLockInv(s, t);
    case ClaimingMsg => ClaimInv(s, t);
    case Linking(_) => LinkInv(s, t);
    case AwaitingOwnMsg => AwaitOwnInv(s, t);
    case LoadingSucc => LoadSuccInv(s, t);
    case TryingCas => CasInv(s, t);
    case AwaitingSucc => AwaitSuccInv(s, t);
    case Publishing(_) => PublishInv(s, t);
    case Inside => InsideInv(s, t);
    case Releasing(_) => ReleaseInv(s, t);
  }

  // ---------------------------------------------------------------- runs

  /** The state after the threads named in `schedule` took their steps in that order. */
  function Run(n: nat, schedule: seq<Tid>): (s: State)
    requires forall i :: 0 <= i < |schedule| ==> schedule[i] < n
    ensures |s.th| == n
  {
    if schedule == [] then Init(n) else
    Step(Run(n, schedule[..|schedule| - 1]), schedule[|schedule| - 1])
  }

  lemma {:induction false} RunInv(n: nat, schedule: seq<Tid>)
    requires forall i :: 0 <= i < |schedule| ==> schedule[i] < n
    ensures Inv(Run(n, schedule))
  {
    if schedule == [] {
      InitInv(n);
    } else {
      RunInv(n, schedule[..|schedule| - 1]);
      StepInv(Run(n, schedule[..|schedule| - 1]), schedule[|schedule| - 1]);
    }
  }

  /** Mutual exclusion and queue order: in every reachable state at most one thread is
      between passing its await and the store in unlock, and it is the oldest exchange
      that has not been released. */
  lemma MutualExclusionInOrder(n: nat, schedule: seq<Tid>, t: Tid, u: Tid)
    requires forall i :: 0 <= i < |schedule| ==> schedule[i] < n
    requires t < n && u < n
    ensures
      var s := Run(n, schedule);
      && (Owns(s.th[t].pc) ==> s.released < |s.arrived| && s.arrived[s.released] == t)
      && (Owns(s.th[t].pc) && Owns(s.th[u].pc) ==> t == u)
  {
    RunInv(n, schedule);
    var s := Run(n, schedule);
    if Owns(s.th[t].pc) { OwnerIsFirst(s, t); }
    if Owns(s.th[u].pc) { OwnerIsFirst(s, u); }
  }

  /** At most one thread waits on the message word of the lock itself. */
  lemma OneWaiterOnLockMsg(n: nat, schedule: seq<Tid>, t: Tid, u: Tid)
    requires forall i :: 0 <= i < |schedule| ==> schedule[i] < n
    requires t < n && u < n
    requires Run(n, schedule).th[t].pc.AwaitingLockMsg? && Run(n, schedule).th[u].pc.AwaitingLockMsg?
    ensures t == u
  {
    RunInv(n, schedule);
    LockMsgWaiterIsFirst(Run(n, schedule), t);
    LockMsgWaiterIsFirst(Run(n, schedule), u);
  }

  lemma LockMsgWaiterIsFirst(s: State, t: Tid)
    requires Inv(s) && t < |s.th| && s.th[t].pc.AwaitingLockMsg?
    ensures Waits(s, s.th[t].ticket) && s.arrived[s.th[t].ticket] == t
    ensures s.th[t].ticket == if Cut(s) then s.released + 1 else s.released
  {
    var j := s.th[t].ticket;
    assert (if Cut(s) then s.released + 1 else s.released) < j ==> Chained(s, j);
  }

  /** No step stores through NULL, and a pointer to another thread's node is only ever
      held while that thread is inside lock. */
  lemma PointersAreLive(n: nat, schedule: seq<Tid>, t: Tid)
    requires forall i :: 0 <= i < |schedule| ==> schedule[i] < n
    requires t < n
    ensures
      var s := Run(n, schedule);
      match s.th[t].pc {
        case Linking(prev) => prev.Node? && prev.owner < n && prev.owner != t && NodeInUse(s.th[prev.owner].pc)
        case Releasing(next) =>
          next == Lock || (next.Node? && next.owner < n && next.owner != t && NodeInUse(s.th[next.owner].pc))
        case _ => true
      }
  {
    RunInv(n, schedule);
    hide Run, Inv;
    LinkIsLive(Run(n, schedule), t);
    ReleaseIsLive(Run(n, schedule), t);
  }

  lemma LinkIsLive(s: State, t: Tid)
    requires Inv(s) && t < |s.th|
    ensures
      s.th[t].pc.Linking? ==>
        var prev := s.th[t].pc.prev;
        prev.Node? && prev.owner < |s.th| && prev.owner != t && NodeInUse(s.th[prev.owner].pc)
  {
    if s.th[t].pc.Linking? {
      LinkedPredecessorIsLive(s, t);
    }
    hide Followers, Tail, Head;
  }

  lemma ReleaseIsLive(s: State, t: Tid)
    requires Inv(s) && t < |s.th|
    ensures
      s.th[t].pc.Releasing? ==>
        var next := s.th[t].pc.next;
        next == Lock || (next.Node? && next.owner < |s.th| && next.owner != t && NodeInUse(s.th[next.owner].pc))
  {
    if s.th[t].pc.Releasing? {
      OwnerIsFirst(s, t);
    }
    hide Followers, Tail;
  }

  /** The predecessor cannot leave lock before its successor has linked. */
  lemma LinkedPredecessorIsLive(s: State, t: Tid)
    requires Inv(s) && t < |s.th| && s.th[t].pc.Linking?
    ensures Chained(s, s.th[t].ticket)
    ensures NodeInUse(s.th[s.arrived[s.th[t].ticket - 1]].pc)
  {
    var k := s.th[t].ticket;
    assert Chained(s, k);
    assert s.released < k - 1 ==> (Cut(s) && k - 1 == s.released + 1) || Chained(s, k - 1);
  }

  /** A node outside lock is neither read nor written by any other thread: whatever its
      two words hold, every other thread's step does the same.  The same address serves
      the owner's next acquisition, so this covers reuse. */
  lemma DeadNodesAreNotTouched(n: nat, schedule: seq<Tid>, t: Tid, u: Tid, tail: Ptr, msg: Ptr)
    requires forall i :: 0 <= i < |schedule| ==> schedule[i] < n
    requires t < n && u < n && t != u
    requires !NodeInUse(Run(n, schedule).th[u].pc)
    ensures
      var s := Run(n, schedule);
      var scribbled := s.(th := s.th[u := s.th[u].(tail := tail, msg := msg)]);
      var after := Step(s, t);
      Step(scribbled, t) == after.(th := after.th[u := after.th[u].(tail := tail, msg := msg)])
  {
    PointersAreLive(n, schedule, t);
    var s := Run(n, schedule);
    hide Run;
    var scribbled := s.(th := s.th[u := s.th[u].(tail := tail, msg := msg)]);
    var after := Step(s, t);
    assert Step(scribbled, t).th == after.th[u := after.th[u].(tail := tail, msg := msg)];
  }

  /** No deadlock: while someone is queued, the oldest thread or the one behind it has a
      step that changes the state. */
  lemma SomeoneProgresses(n: nat, schedule: seq<Tid>)
    requires forall i :: 0 <= i < |schedule| ==> schedule[i] < n
    requires Run(n, schedule).released < |Run(n, schedule).arrived|
    ensures
      var s := Run(n, schedule);
      var first := s.arrived[s.released];
      && first < n
      && (Step(s, first) != s
          || (s.released + 1 < |s.arrived| && s.arrived[s.released + 1] < n
              && Step(s, s.arrived[s.released + 1]) != s))
  {
    RunInv(n, schedule);
    var s := Run(n, schedule);
    hide Run;
    var first := s.arrived[s.released];
    assert Waits(s, s.released);
    if s.th[first].pc.AwaitingSucc? {
      assert Chained(s, s.released + 1);
      var second := s.arrived[s.released + 1];
      if s.th[second].pc.Linking? {
        assert Step(s, second).th[second].pc != s.th[second].pc;
      } else {
        assert Step(s, first).th[first].pc != s.th[first].pc;
      }
    } else {
      assert Step(s, first).th[first].pc != s.th[first].pc;
    }
  }

  // ---------------------------------------------------------------- everybody gets through

  /** At most so many steps are left to the return from unlock, steps that only wait aside. */
  function Left(p: Pc): nat {
    match p
    case Outside => 0
    case Exchanging => 10
    case AwaitingLockMsg => 9
    case ClaimingMsg => 8
    case Linking(_) => 9
    case AwaitingOwnMsg => 8
    case LoadingSucc => 7
    case TryingCas => 6
    case AwaitingSucc => 5
    case Publishing(_) => 4
    case Inside => 2
    case Releasing(_) => 1
  }

  /** No other thread's place in the code changes. */
  lemma OthersStay(s: State, t: Tid)
    requires t < |s.th|
    ensures |Step(s, t).th| == |s.th| && forall u :: 0 <= u < |s.th| ==> u != t ==> Step(s, t).th[u].pc == s.th[u].pc
  {}

  /** Every step that does anything brings its thread nearer to the return from unlock, once it
      has begun to lock. */
  lemma StepsBringNearer(s: State, t: Tid)
    requires t < |s.th|
    ensures |Step(s, t).th| == |s.th|
    ensures
      if s.th[t].pc.Outside? then Step(s, t).th[t].pc.Exchanging?
      else Step(s, t) == s || Left(Step(s, t).th[t].pc) < Left(s.th[t].pc)
  {}

  /** A thread about to exchange is the last in line after its step. */
  lemma ExchangeQueues(s: State, t: Tid)
    requires t < |s.th| && s.th[t].pc.Exchanging?
    ensures Step(s, t).arrived == s.arrived + [t] && Step(s, t).th[t].ticket == |s.arrived| && Step(s, t).released == s.released
  {}

  function Work(th: seq<Thread>): nat {
    if th == [] then 0 else Left(th[0].pc) + Work(th[1..])
  }

  lemma {:induction false} WorkLowers(th: seq<Thread>, th': seq<Thread>, t: Tid)
    requires |th'| == |th| && t < |th| && Left(th'[t].pc) < Left(th[t].pc)
    requires forall u :: 0 <= u < |th| ==> u != t ==> th'[u].pc == th[u].pc
    ensures Work(th') < Work(th)
  {
    if t == 0 {
      SameWork(th[1..], th'[1..]);
    } else {
      WorkLowers(th[1..], th'[1..], t - 1);
    }
  }

  lemma {:induction false} SameWork(th: seq<Thread>, th': seq<Thread>)
    requires |th'| == |th| && forall u :: 0 <= u < |th| ==> th'[u].pc == th[u].pc
    ensures Work(th') == Work(th)
  {
    if th != [] {
      SameWork(th[1..], th'[1..]);
    }
  }

  lemma RunOn(n: nat, schedule: seq<Tid>, t: Tid)
    requires (forall i :: 0 <= i < |schedule| ==> schedule[i] < n) && t < n
    ensures Run(n, schedule + [t]) == Step(Run(n, schedule), t)
  {
    assert (schedule + [t])[..|schedule|] == schedule;
  }

  /** Whoever is in the code, somebody in it can go on. */
  lemma Mover(n: nat, schedule: seq<Tid>, t: Tid) returns (u: Tid)
    requires forall i :: 0 <= i < |schedule| ==> schedule[i] < n
    requires t < n && !Run(n, schedule).th[t].pc.Outside?
    ensures u < n && !Run(n, schedule).th[u].pc.Outside? && Step(Run(n, schedule), u) != Run(n, schedule)
  {
    RunInv(n, schedule);
    var s := Run(n, schedule);
    u := t;
    if Queued(s.th[t].pc) {
      SomeoneProgresses(n, schedule);
      var first := s.arrived[s.released];
      u := if Step(s, first) != s then first else s.arrived[s.released + 1];
      assert Waits(s, s.released) && Queued(s.th[first].pc);
      assert u != first ==> Waits(s, s.released + 1) && Queued(s.th[u].pc);
    } else {
      assert Step(s, t).th[t].pc != s.th[t].pc;
    }
    hide Run, Followers, Tail, Head, Step;
  }

  lemma OneStepOn(n: nat, schedule: seq<Tid>, t: Tid) returns (u: Tid)
    requires forall i :: 0 <= i < |schedule| ==> schedule[i] < n
    requires t < n && !Run(n, schedule).th[t].pc.Outside?
    ensures u < n && Work(Run(n, schedule + [u]).th) < Work(Run(n, schedule).th)
  {
    u := Mover(n, schedule, t);
    var s := Run(n, schedule);
    OthersStay(s, u);
    StepsBringNearer(s, u);
    WorkLowers(s.th, Step(s, u).th, u);
    RunOn(n, schedule, u);
    hide *;
  }

  /** Everybody gets through: from every reachable state there is a continuation, of at most as
      many steps as are left, after which nobody is in the code. */
  lemma {:induction false} EverybodyGetsOut(n: nat, schedule: seq<Tid>) returns (more: seq<Tid>)
    requires forall i :: 0 <= i < |schedule| ==> schedule[i] < n
    ensures forall i :: 0 <= i < |more| ==> more[i] < n
    ensures |more| <= Work(Run(n, schedule).th)
    ensures forall t :: 0 <= t < n ==> Run(n, schedule + more).th[t].pc.Outside?
    decreases Work(Run(n, schedule).th)
  {
    if t: Tid :| t < n && !Run(n, schedule).th[t].pc.Outside? {
      var u := OneStepOn(n, schedule, t);
      hide Run, Work;
      var rest := EverybodyGetsOut(n, schedule + [u]);
      more := [u] + rest;
      assert schedule + more == schedule + [u] + rest;
    } else {
      more := [];
      assert schedule + more == schedule;
    }
  }

  // ---------------------------------------------------------------- in place

  /** The lock word and the nodes as memory that each access updates in place. */
  class Memory {
    var tail: Ptr
    var msg: Ptr
    var th: seq<Thread>
    var arrived: seq<Tid>
    var released: nat

    function Value(): State
      reads this
    {
      State(tail, msg, th, arrived, released)
    }

    constructor (n: nat)
      ensures Value() == Init(n)
    {
      tail, msg, th := Null, Null, seq(n, _ => Thread(Outside, Null, Null, 0));
      arrived, released := [], 0;
    }

    method SetPc(t: Tid, p: Pc)
      requires t < |th|
      modifies `th
      ensures Value() == old(Value()).Goto(t, p)
    {
      th := th[t := th[t].(pc := p)];
    }

    method StoreTail(p: Ptr, v: Ptr)
      modifies `tail, `th
      ensures Value() == old(Value()).StoreTail(p, v)
    {
      if p == Lock {
        tail := v;
      } else if p.Node? && p.owner < |th| {
        th := th[p.owner := th[p.owner].(tail := v)];
      }
    }

    method StoreMsg(p: Ptr, v: Ptr)
      modifies `msg, `th
      ensures Value() == old(Value()).StoreMsg(p, v)
    {
      if p == Lock {
        msg := v;
      } else if p.Node? && p.owner < |th| {
        th := th[p.owner := th[p.owner].(msg := v)];
      }
    }

    /** One shared access of thread `t`, as the code of lock and unlock performs it. */
    method Advance(t: Tid)
      requires t < |th|
      modifies this
      ensures Value() == Step(old(Value()), t)
    {
      var me := th[t];
      match me.pc
      case Outside =>
        th := th[t := me.(pc := Exchanging, tail := Lock, msg := Lock)];
      case Exchanging =>
        var prev := tail;
        tail := Node(t);
        th := th[t := me.(ticket := |arrived|, pc := if prev == Null then AwaitingLockMsg else Linking(prev))];
        arrived := arrived + [t];
      case AwaitingLockMsg =>
        if msg == Null { SetPc(t, ClaimingMsg); }
      case ClaimingMsg =>
        msg := Lock;
        SetPc(t, LoadingSucc);
      case Linking(prev) =>
        StoreTail(prev, Node(t));
        SetPc(t, AwaitingOwnMsg);
      case AwaitingOwnMsg =>
        if me.msg == Null { SetPc(t, LoadingSucc); }
      case LoadingSucc =>
        if me.tail == Lock { SetPc(t, TryingCas); } else { SetPc(t, Publishing(me.tail)); }
      case TryingCas =>
        if tail == Node(t) {
          tail := Null;
          SetPc(t, Publishing(Lock));
        } else {
          SetPc(t, AwaitingSucc);
        }
      case AwaitingSucc =>
        if me.tail != Lock { SetPc(t, Publishing(me.tail)); }
      case Publishing(succ) =>
        msg := succ;
        SetPc(t, Inside);
      case Inside =>
        SetPc(t, Releasing(msg));
      case Releasing(succ) =>
        StoreMsg(succ, Null);
        SetPc(t, Outside);
        released := released + 1;
    }

    /** Threads take their steps in the order of `schedule`, starting from a fresh lock. */
    method Execute(schedule: seq<Tid>)
      requires Value() == Init(|th|)
      requires forall i :: 0 <= i < |schedule| ==> schedule[i] < |th|
      modifies this
      ensures |th| == old(|th|) && Value() == Run(|th|, schedule) && Inv(Value())
    {
      assert schedule[..|schedule|] == schedule;
      for i := 0 to |schedule|
        invariant |th| == old(|th|) && Value() == Run(|th|, schedule[..i])
      {
        assert schedule[..i + 1][..i] == schedule[..i];
        Advance(schedule[i]);
      }
      RunInv(|th|, schedule);
    }
  }
}
