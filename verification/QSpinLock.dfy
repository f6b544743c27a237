/**
 The MCS queue lock (src/mcs-lock.c) and the spin lock layered on it
 (src/qspinlock.c).  The spin lock tests `locked` and then sets it in two separate
 accesses; that is safe only because the tester holds the MCS lock.  One shared access
 is one step, any number of threads, sequentially consistent memory.
 */
module QSpinLock {

  type Tid = nat

  /** A `fjx_mcslock *`: NULL or the stack node `mm` of a thread. */
  datatype Ptr = Null | Node(owner: Tid)

  /** What a thread does next; the MCS lock is held from `AwaitingFree` to `Granting`,
      the spin lock from `LoadingNext` to `Inside`. */
  datatype Pc =
    | Outside
    | Exchanging
    | Linking(prev: Tid)
    | AwaitingGrant
    | AwaitingFree
    | SettingLocked
    | LoadingNext
    | TryingCas
    | AwaitingNext
    | Granting(succ: Tid)
    | Inside

  /** A thread with its node `mm = {next, locked}`.  History: `ticket` is the place of its
      last exchange in the order of all exchanges. */
  datatype Thread = Thread(pc: Pc, next: Ptr, granted: bool, ticket: nat)

  /** The two words of the spin lock: its MCS tail and `locked`.  History: `arrived` is
      the order of the tail exchanges, of which the first `released` have left the MCS
      lock; `holder` is the thread that last set `locked`. */
  datatype State = State(tail: Ptr, locked: bool, th: seq<Thread>,
                         arrived: seq<Tid>, released: nat, holder: Tid)
  {
    function Goto(t: Tid, p: Pc): State
      requires t < |th|
    {
      this.(th := th[t := th[t].(pc := p)])
    }

    function StoreNext(u: Tid, v: Ptr): State {
      if u < |th| then this.(th := th[u := th[u].(next := v)]) else this
    }

    function Grant(u: Tid): State {
      if u < |th| then this.(th := th[u := th[u].(granted := true)]) else this
    }
  }

  function Init(n: nat): State {
    State(Null, false, seq(n, _ => Thread(Outside, Null, false, 0)), [], 0, 0)
  }

  /** Thread `t` performs its next shared access; an await that fails reads and stays. */
  function Step(s: State, t: Tid): State
    requires t < |s.th|
  {
    var me := s.th[t];
    match me.pc
    case Outside => s.(th := s.th[t := me.(pc := Exchanging, next := Null, granted := false)])
    case Exchanging =>
      s.(tail := Node(t), arrived := s.arrived + [t],
      th := s.th[t := me.(ticket := |s.arrived|,
      pc := if s.tail == Null then AwaitingFree else Linking(s.tail.owner))])
    case Linking(prev) => s.StoreNext(prev, Node(t)).Goto(t, AwaitingGrant)
    case AwaitingGrant => if me.granted then s.Goto(t, AwaitingFree) else s
    case AwaitingFree => if !s.locked then s.Goto(t, SettingLocked) else s
    case SettingLocked => s.(locked := true, holder := t).Goto(t, LoadingNext)
    case LoadingNext => s.Goto(t, if me.next == Null then TryingCas else Granting(me.next.owner))
    case TryingCas =>
      if s.tail == Node(t) then s.(tail := Null, released := s.released + 1).Goto(t, Inside)
      else s.Goto(t, AwaitingNext)
    case AwaitingNext => if me.next != Null then s.Goto(t, Granting(me.next.owner)) else s
    case Granting(succ) => s.Grant(succ).Goto(t, Inside).(released := s.released + 1)
    case Inside => s.(locked := false).Goto(t, Outside)
  }

  // ---------------------------------------------------------------- invariant

  /** Between the exchange and the return from the MCS unlock: the node is in use. */
  predicate NodeInUse(p: Pc) {
    !p.Outside? && !p.Exchanging? && !p.Inside?
  }

  predicate HoldsMcs(p: Pc) {
    NodeInUse(p) && !p.Linking? && !p.AwaitingGrant?
  }

  /** After the store to `locked`, before the store that clears it. */
  predicate HoldsSpin(p: Pc) {
    p.LoadingNext? || p.TryingCas? || p.AwaitingNext? || p.Granting? || p.Inside?
  }

  /** Place `k` of the exchange order is taken by a thread still in the MCS lock. */
  predicate Waits(s: State, k: int) {
    s.released <= k < |s.arrived| && s.arrived[k] < |s.th|
  }

  /** Threads and places in the MCS queue correspond one to one. */
  ghost predicate Members(s: State) {
    && s.released <= |s.arrived|
    && (forall k :: s.released <= k < |s.arrived| ==>
          Waits(s, k) && NodeInUse(s.th[s.arrived[k]].pc) && s.th[s.arrived[k]].ticket == k)
    && (forall t :: 0 <= t < |s.th| ==> NodeInUse(s.th[t].pc) ==>
          Waits(s, s.th[t].ticket) && s.arrived[s.th[t].ticket] == t)
    && (forall t :: 0 <= t < |s.th| ==> s.th[t].pc.Exchanging? ==>
          s.th[t].next == Null && !s.th[t].granted)
  }

  /** The thread at place `k` reached its predecessor's node: about to link, or linked. */
  predicate Chained(s: State, k: int) {
    Waits(s, k) && Waits(s, k - 1) &&
    var t, p := s.arrived[k], s.arrived[k - 1];
    && !s.th[t].granted
    && ((s.th[t].pc == Linking(p) && s.th[p].next == Null)
        || (s.th[t].pc == AwaitingGrant && s.th[p].next == Node(t)))
  }

  ghost predicate Followers(s: State) {
    forall k :: s.released < k < |s.arrived| ==> Chained(s, k)
  }

  predicate Tail(s: State) {
    var last := |s.arrived| - 1;
    if last < s.released then s.tail == Null
    else Waits(s, last) && s.tail == Node(s.arrived[last]) && s.th[s.arrived[last]].next == Null
  }

  /** The front of the queue holds the MCS lock, or has been granted it. */
  predicate Head(s: State) {
    Waits(s, s.released) ==>
      var me := s.th[s.arrived[s.released]];
      match me.pc
      case AwaitingGrant => me.granted
      case AwaitingNext => Waits(s, s.released + 1)
      case Granting(succ) =>
        Waits(s, s.released + 1) && succ == s.arrived[s.released + 1] && s.th[succ].pc.AwaitingGrant?
      case _ => HoldsMcs(me.pc)
  }

  /** `locked` is set exactly while one thread, the last to set it, holds the spin lock. */
  ghost predicate Spin(s: State) {
    && (forall t :: 0 <= t < |s.th| ==> HoldsSpin(s.th[t].pc) ==> s.locked && t == s.holder)
    && (forall t :: 0 <= t < |s.th| ==> s.th[t].pc.SettingLocked? ==> !s.locked)
    && (s.locked ==> s.holder < |s.th| && HoldsSpin(s.th[s.holder].pc))
  }

  ghost predicate Inv(s: State) {
    Members(s) && Followers(s) && Tail(s) && Head(s) && Spin(s)
  }

  lemma InitInv(n: nat)
    ensures Inv(Init(n))
  {}

  /** The MCS holder is the one at the front of the exchange order. */
  lemma OwnerIsFirst(s: State, t: Tid)
    requires Inv(s) && t < |s.th| && HoldsMcs(s.th[t].pc)
    ensures Waits(s, s.released) && s.arrived[s.released] == t
  {
    var j := s.th[t].ticket;
    assert s.released < j ==> Chained(s, j);
  }

  /** Who waits in line, thread by thread, after one step. */
  lemma StepMembers(s: State, t: Tid)
    requires Inv(s) && t < |s.th| && !s.th[t].pc.Linking? && !s.th[t].pc.Granting?
    requires !s.th[t].pc.TryingCas? && !s.th[t].pc.Exchanging? && !s.th[t].pc.Outside?
    ensures Members(Step(s, t))
  {
    hide Members, Followers, Tail, Head, Spin;
    if s.th[t].pc.AwaitingFree? || s.th[t].pc.SettingLocked? || s.th[t].pc.Inside? {
      SpinStepMembers(s, t);
    } else {
      WaitStepMembers(s, t);
    }
  }

  lemma SpinStepMembers(s: State, t: Tid)
    requires Members(s) && t < |s.th| && (s.th[t].pc.AwaitingFree? || s.th[t].pc.SettingLocked? || s.th[t].pc.Inside?)
    ensures Members(Step(s, t))
  {}

  lemma WaitStepMembers(s: State, t: Tid)
    requires Members(s) && t < |s.th| && (s.th[t].pc.AwaitingGrant? || s.th[t].pc.LoadingNext? || s.th[t].pc.AwaitingNext?)
    ensures Members(Step(s, t))
  {}

  /** Only the MCS holder sets `locked`, and only the spin holder clears it. */
  lemma StepSpin(s: State, t: Tid)
    requires Inv(s) && t < |s.th|
    ensures Spin(Step(s, t))
  {
    if s.th[t].pc.AwaitingFree? || s.th[t].pc.SettingLocked? {
      SetsSpin(s, t);
    } else {
      LeavesSpin(s, t);
    }
    hide *;
  }

  lemma SetsSpin(s: State, t: Tid)
    requires Inv(s) && t < |s.th| && (s.th[t].pc.AwaitingFree? || s.th[t].pc.SettingLocked?)
    ensures Spin(Step(s, t))
  {
    OwnerIsFirst(s, t);
    forall u | 0 <= u < |s.th| && s.th[u].pc.SettingLocked?
      ensures Waits(s, s.released) && s.arrived[s.released] == u
    {
      OwnerIsFirst(s, u);
    }
    hide Members, Followers, Tail, Head;
  }

  lemma LeavesSpin(s: State, t: Tid)
    requires Spin(s) && t < |s.th| && !s.th[t].pc.AwaitingFree? && !s.th[t].pc.SettingLocked?
    ensures Spin(Step(s, t))
  {
    hide Spin;
    if s.th[t].pc.Inside? || s.th[t].pc.LoadingNext? || s.th[t].pc.TryingCas? || s.th[t].pc.AwaitingNext? || s.th[t].pc.Granting? {
      PastSpin(s, t);
    } else {
      BeforeSpin(s, t);
    }
  }

  lemma PastSpin(s: State, t: Tid)
    requires Spin(s) && t < |s.th|
    requires s.th[t].pc.Inside? || s.th[t].pc.LoadingNext? || s.th[t].pc.TryingCas? || s.th[t].pc.AwaitingNext? || s.th[t].pc.Granting?
    ensures Spin(Step(s, t))
  {}

  lemma BeforeSpin(s: State, t: Tid)
    requires Spin(s) && t < |s.th|
    requires s.th[t].pc.Outside? || s.th[t].pc.Exchanging? || s.th[t].pc.Linking? || s.th[t].pc.AwaitingGrant?
    ensures Spin(Step(s, t))
  {}

  /** The predecessor cannot leave the MCS lock before its successor has linked. */
  lemma LinkedPredecessorIsLive(s: State, t: Tid)
    requires Inv(s) && t < |s.th| && s.th[t].pc.Linking?
    ensures Chained(s, s.th[t].ticket)
    ensures NodeInUse(s.th[s.arrived[s.th[t].ticket - 1]].pc)
  {
    var k := s.th[t].ticket;
    assert Chained(s, k);
  }

  lemma OutsideInv(s: State, t: Tid)
    requires Inv(s) && t < |s.th| && s.th[t].pc.Outside?
    ensures Inv(Step(s, t))
  {
    StepSpin(s, t);
    var s' := Step(s, t);
    assert Members(s');
    forall k | s'.released < k < |s'.arrived|
      ensures Chained(s', k)
    {
      assert s.released < k < |s.arrived| ==> Chained(s, k);
    }
  }

  lemma ExchangeInv(s: State, t: Tid)
    requires Inv(s) && t < |s.th| && s.th[t].pc.Exchanging?
    ensures Inv(Step(s, t))
  {
    StepSpin(s, t);
    var s' := Step(s, t);
    assert Members(s');
    forall k | s'.released < k < |s'.arrived|
      ensures Chained(s', k)
    {
      assert s.released < k < |s.arrived| ==> Chained(s, k);
    }
  }

  lemma LinkMembers(s: State, t: Tid)
    requires Inv(s) && t < |s.th| && s.th[t].pc.Linking?
    ensures Members(Step(s, t))
  {
    LinkedPredecessorIsLive(s, t);
  }

  lemma LinkFollowers(s: State, t: Tid)
    requires Inv(s) && t < |s.th| && s.th[t].pc.Linking? && Members(Step(s, t))
    ensures Followers(Step(s, t))
  {
    LinkedPredecessorIsLive(s, t);
    var s' := Step(s, t);
    forall k | s'.released < k < |s'.arrived|
      ensures Chained(s', k)
    {
      assert Chained(s, k);
    }
  }

  lemma LinkInv(s: State, t: Tid)
    requires Inv(s) && t < |s.th| && s.th[t].pc.Linking?
    ensures Inv(Step(s, t))
  {
    LinkMembers(s, t);
    LinkFollowers(s, t);
    LinkedPredecessorIsLive(s, t);
    StepSpin(s, t);
  }

  lemma AwaitGrantInv(s: State, t: Tid)
    requires Inv(s) && t < |s.th| && s.th[t].pc.AwaitingGrant?
    ensures Inv(Step(s, t))
  {
    StepMembers(s, t);
    assert s.released < s.th[t].ticket ==> Chained(s, s.th[t].ticket);
    StepSpin(s, t);
    var s' := Step(s, t);
    forall k | s'.released < k < |s'.arrived|
      ensures Chained(s', k)
    {
      assert s.released < k < |s.arrived| ==> Chained(s, k);
    }
  }

  lemma AwaitFreeInv(s: State, t: Tid)
    requires Inv(s) && t < |s.th| && s.th[t].pc.AwaitingFree?
    ensures Inv(Step(s, t))
  {
    StepMembers(s, t);
    OwnerIsFirst(s, t);
    StepSpin(s, t);
    var s' := Step(s, t);
    forall k | s'.released < k < |s'.arrived|
      ensures Chained(s', k)
    {
      assert s.released < k < |s.arrived| ==> Chained(s, k);
    }
  }

  lemma SetLockedInv(s: State, t: Tid)
    requires Inv(s) && t < |s.th| && s.th[t].pc.SettingLocked?
    ensures Inv(Step(s, t))
  {
    StepMembers(s, t);
    OwnerIsFirst(s, t);
    StepSpin(s, t);
    var s' := Step(s, t);
    forall k | s'.released < k < |s'.arrived|
      ensures Chained(s', k)
    {
      assert s.released < k < |s.arrived| ==> Chained(s, k);
    }
  }

  lemma LoadNextInv(s: State, t: Tid)
    requires Inv(s) && t < |s.th| && s.th[t].pc.LoadingNext?
    ensures Inv(Step(s, t))
  {
    StepMembers(s, t);
    OwnerIsFirst(s, t);
    assert s.released + 1 < |s.arrived| ==> Chained(s, s.released + 1);
    StepSpin(s, t);
    var s' := Step(s, t);
    forall k | s'.released < k < |s'.arrived|
      ensures Chained(s', k)
    {
      assert s.released < k < |s.arrived| ==> Chained(s, k);
    }
  }

  lemma CasMembers(s: State, t: Tid)
    requires Inv(s) && t < |s.th| && s.th[t].pc.TryingCas?
    ensures Members(Step(s, t))
  {
    OwnerIsFirst(s, t);
    hide Followers, Spin;
  }

  lemma CasFollowers(s: State, t: Tid)
    requires Inv(s) && t < |s.th| && s.th[t].pc.TryingCas?
    ensures Followers(Step(s, t))
  {
    OwnerIsFirst(s, t);
    CasMembers(s, t);
    var s' := Step(s, t);
    forall k | s'.released < k < |s'.arrived|
      ensures Chained(s', k)
    {
      assert s.released < k < |s.arrived| ==> Chained(s, k);
    }
  }

  lemma CasEnds(s: State, t: Tid)
    requires Inv(s) && t < |s.th| && s.th[t].pc.TryingCas?
    ensures Tail(Step(s, t)) && Head(Step(s, t))
  {
    OwnerIsFirst(s, t);
    CasMembers(s, t);
  }

  lemma CasInv(s: State, t: Tid)
    requires Inv(s) && t < |s.th| && s.th[t].pc.TryingCas?
    ensures Inv(Step(s, t))
  {
    hide Members, Followers, Tail, Head, Step, Spin;
    CasMembers(s, t);
    StepSpin(s, t);
    CasFollowers(s, t);
    CasEnds(s, t);
  }

  lemma AwaitNextFollowers(s: State, t: Tid)
    requires Inv(s) && t < |s.th| && s.th[t].pc.AwaitingNext?
    ensures Followers(Step(s, t))
  {
    StepMembers(s, t);
    OwnerIsFirst(s, t);
    assert s.released + 1 < |s.arrived| ==> Chained(s, s.released + 1);
    var s' := Step(s, t);
    forall k | s'.released < k < |s'.arrived|
      ensures Chained(s', k)
    {
      assert s.released < k < |s.arrived| ==> Chained(s, k);
    }
  }

  lemma AwaitNextEnds(s: State, t: Tid)
    requires Inv(s) && t < |s.th| && s.th[t].pc.AwaitingNext?
    ensures Tail(Step(s, t)) && Head(Step(s, t))
  {
    StepMembers(s, t);
    OwnerIsFirst(s, t);
    assert s.released + 1 < |s.arrived| ==> Chained(s, s.released + 1);
  }

  lemma AwaitNextInv(s: State, t: Tid)
    requires Inv(s) && t < |s.th| && s.th[t].pc.AwaitingNext?
    ensures Inv(Step(s, t))
  {
    hide Members, Followers, Tail, Head, Step, Spin;
    StepMembers(s, t);
    StepSpin(s, t);
    AwaitNextFollowers(s, t);
    AwaitNextEnds(s, t);
  }

  lemma GrantMembers(s: State, t: Tid)
    requires Inv(s) && t < |s.th| && s.th[t].pc.Granting?
    ensures Members(Step(s, t))
  {
    OwnerIsFirst(s, t);
    hide Followers, Tail, Spin;
  }

  lemma GrantFollowers(s: State, t: Tid)
    requires Inv(s) && t < |s.th| && s.th[t].pc.Granting?
    ensures Followers(Step(s, t))
  {
    OwnerIsFirst(s, t);
    GrantMembers(s, t);
    var s' := Step(s, t);
    forall k | s'.released < k < |s'.arrived|
      ensures Chained(s', k)
    {
      assert s.released < k < |s.arrived| ==> Chained(s, k);
    }
  }

  lemma GrantEnds(s: State, t: Tid)
    requires Inv(s) && t < |s.th| && s.th[t].pc.Granting?
    ensures Tail(Step(s, t)) && Head(Step(s, t))
  {
    OwnerIsFirst(s, t);
    GrantMembers(s, t);
  }

  lemma GrantInv(s: State, t: Tid)
    requires Inv(s) && t < |s.th| && s.th[t].pc.Granting?
    ensures Inv(Step(s, t))
  {
    hide Members, Followers, Tail, Head, Step, Spin;
    GrantMembers(s, t);
    StepSpin(s, t);
    GrantFollowers(s, t);
    GrantEnds(s, t);
  }

  lemma InsideInv(s: State, t: Tid)
    requires Inv(s) && t < |s.th| && s.th[t].pc.Inside?
    ensures Inv(Step(s, t))
  {
    StepMembers(s, t);
    StepSpin(s, t);
    var s' := Step(s, t);
    forall k | s'.released < k < |s'.arrived|
      ensures Chained(s', k)
    {
      assert s.released < k < |s.arrived| ==> Chained(s, k);
    }
  }

  lemma StepInv(s: State, t: Tid)
    requires Inv(s) && t < |s.th|
    ensures Inv(Step(s, t)) && |Step(s, t).th| == |s.th|
  {
    hide Inv;
    match s.th[t].pc
    case Outside => OutsideInv(s, t);
    case Exchanging => ExchangeInv(s, t);
    case Linking(_) => LinkInv(s, t);
    case AwaitingGrant => AwaitGrantInv(s, t);
    case AwaitingFree => AwaitFreeInv(s, t);
    case SettingLocked => SetLockedInv(s, t);
    case LoadingNext => LoadNextInv(s, t);
    case TryingCas => CasInv(s, t);
    case AwaitingNext => AwaitNextInv(s, t);
    case Granting(_) => GrantInv(s, t);
    case Inside => InsideInv(s, t);
  }

  // ---------------------------------------------------------------- runs

  /** The state after the threads named in `schedule` took their steps in that order. */
  function Run(n: nat, schedule: seq<Tid>): (s: State)
    requires forall i :: 0 <= i < |schedule| ==> schedule[i] < n
    ensures |s.th| == n
  {
    if schedule == [] then Init(n) else
    Step(Run(n, schedule[..|schedule| - 1]), schedule[|schedule| - 1])
  }

  lemma {:induction false} RunInv(n: nat, schedule: seq<Tid>)
    requires forall i :: 0 <= i < |schedule| ==> schedule[i] < n
    ensures Inv(Run(n, schedule))
  {
    if schedule == [] {
      InitInv(n);
    } else {
      RunInv(n, schedule[..|schedule| - 1]);
      StepInv(Run(n, schedule[..|schedule| - 1]), schedule[|schedule| - 1]);
    }
  }

  /** The MCS lock: at most one thread is between acquiring it and releasing it, and it is
      the oldest exchange not yet released. */
  lemma McsExclusionInOrder(n: nat, schedule: seq<Tid>, t: Tid, u: Tid)
    requires forall i :: 0 <= i < |schedule| ==> schedule[i] < n
    requires t < n && u < n
    ensures
      var s := Run(n, schedule);
      && (HoldsMcs(s.th[t].pc) ==> s.released < |s.arrived| && s.arrived[s.released] == t)
      && (HoldsMcs(s.th[t].pc) && HoldsMcs(s.th[u].pc) ==> t == u)
  {
    RunInv(n, schedule);
    var s := Run(n, schedule);
    if HoldsMcs(s.th[t].pc) { OwnerIsFirst(s, t); }
    if HoldsMcs(s.th[u].pc) { OwnerIsFirst(s, u); }
  }

  /** The spin lock: the unsynchronised test and set never admits two threads, `locked`
      is true exactly while some thread is in, and a thread past the test still sees it
      clear. */
  lemma SpinExclusion(n: nat, schedule: seq<Tid>, t: Tid, u: Tid)
    requires forall i :: 0 <= i < |schedule| ==> schedule[i] < n
    requires t < n && u < n
    ensures
      var s := Run(n, schedule);
      && (HoldsSpin(s.th[t].pc) && HoldsSpin(s.th[u].pc) ==> t == u)
      && (s.locked <==> exists v :: 0 <= v < n && HoldsSpin(s.th[v].pc))
      && (s.th[t].pc.SettingLocked? ==> !s.locked)
  {
    RunInv(n, schedule);
  }

  /** A pointer to another thread's node is held only while that thread is in the MCS lock. */
  lemma PointersAreLive(n: nat, schedule: seq<Tid>, t: Tid)
    requires forall i :: 0 <= i < |schedule| ==> schedule[i] < n
    requires t < n
    ensures
      var s := Run(n, schedule);
      match s.th[t].pc {
        case Linking(prev) => prev < n && prev != t && NodeInUse(s.th[prev].pc)
        case Granting(succ) => succ < n && succ != t && NodeInUse(s.th[succ].pc)
        case _ => true
      }
  {
    RunInv(n, schedule);
    var s := Run(n, schedule);
    if s.th[t].pc.Linking? {
      LinkedPredecessorIsLive(s, t);
    } else if s.th[t].pc.Granting? {
      OwnerIsFirst(s, t);
    }
  }

  /** A node outside the MCS lock is neither read nor written by any other thread:
      whatever it holds, every other thread's step does the same. */
  lemma DeadNodesAreNotTouched(n: nat, schedule: seq<Tid>, t: Tid, u: Tid, next: Ptr, granted: bool)
    requires forall i :: 0 <= i < |schedule| ==> schedule[i] < n
    requires t < n && u < n && t != u
    requires !NodeInUse(Run(n, schedule).th[u].pc)
    ensures
      var s := Run(n, schedule);
      var scribbled := s.(th := s.th[u := s.th[u].(next := next, granted := granted)]);
      var after := Step(s, t);
      Step(scribbled, t) == after.(th := after.th[u := after.th[u].(next := next, granted := granted)])
  {
    PointersAreLive(n, schedule, t);
    var s := Run(n, schedule);
    hide Run;
    var scribbled := s.(th := s.th[u := s.th[u].(next := next, granted := granted)]);
    var after := Step(s, t);
    assert Step(scribbled, t).th == after.th[u := after.th[u].(next := next, granted := granted)];
  }

  /** No deadlock: while someone is in the MCS queue, the front thread, the one behind it
      or the holder of the spin lock has a step that changes the state. */
  lemma SomeoneProgresses(n: nat, schedule: seq<Tid>) returns (u: Tid)
    requires forall i :: 0 <= i < |schedule| ==> schedule[i] < n
    requires Run(n, schedule).released < |Run(n, schedule).arrived|
    ensures u < n && !Run(n, schedule).th[u].pc.Outside? && Step(Run(n, schedule), u) != Run(n, schedule)
  {
    RunInv(n, schedule);
    var s := Run(n, schedule);
    hide Run;
    var first := s.arrived[s.released];
    assert Waits(s, s.released);
    u := first;
    if s.th[first].pc.AwaitingNext? {
      assert Chained(s, s.released + 1);
      if s.th[s.arrived[s.released + 1]].pc.Linking? {
        u := s.arrived[s.released + 1];
      }
    } else if s.th[first].pc.AwaitingFree? && s.locked {
      u := s.holder;
      assert s.th[u].pc.Inside? by {
        if HoldsMcs(s.th[u].pc) { OwnerIsFirst(s, u); }
      }
    }
    assert Step(s, u).th[u].pc != s.th[u].pc;
  }

  // ---------------------------------------------------------------- everybody gets through

  /** At most so many steps are left to the return from unlock, steps that only wait aside. */
  function Left(p: Pc): nat {
    match p
    case Outside => 0
    case Exchanging => 10
    case Linking(_) => 9
    case AwaitingGrant => 8
    case AwaitingFree => 7
    case SettingLocked => 6
    case LoadingNext => 5
    case TryingCas => 4
    case AwaitingNext => 3
    case Granting(_) => 2
    case Inside => 1
  }

  /** No other thread's place in the code changes. */
  lemma OthersStay(s: State, t: Tid)
    requires t < |s.th|
    ensures |Step(s, t).th| == |s.th| && forall u :: 0 <= u < |s.th| ==> u != t ==> Step(s, t).th[u].pc == s.th[u].pc
  {}

  /** Every step that does anything brings its thread nearer to the return from unlock, once it
      has begun to lock. */
  lemma StepsBringNearer(s: State, t: Tid)
    requires t < |s.th|
    ensures |Step(s, t).th| == |s.th|
    ensures
      if s.th[t].pc.Outside? then Step(s, t).th[t].pc.Exchanging?
      else Step(s, t) == s || Left(Step(s, t).th[t].pc) < Left(s.th[t].pc)
  {
    var pc := s.th[t].pc;
    if pc.AwaitingGrant? || pc.AwaitingFree? || pc.AwaitingNext? {
      AwaitsBringNearer(s, t);
    }
  }

  lemma AwaitsBringNearer(s: State, t: Tid)
    requires t < |s.th| && (s.th[t].pc.AwaitingGrant? || s.th[t].pc.AwaitingFree? || s.th[t].pc.AwaitingNext?)
    ensures Step(s, t) == s || Left(Step(s, t).th[t].pc) < Left(s.th[t].pc)
  {}

  /** A thread about to exchange is the last in line after its step. */
  lemma ExchangeQueues(s: State, t: Tid)
    requires t < |s.th| && s.th[t].pc.Exchanging?
    ensures Step(s, t).arrived == s.arrived + [t] && Step(s, t).th[t].ticket == |s.arrived| && Step(s, t).released == s.released
  {}

  function Work(th: seq<Thread>): nat {
    if th == [] then 0 else Left(th[0].pc) + Work(th[1..])
  }

  lemma {:induction false} WorkLowers(th: seq<Thread>, th': seq<Thread>, t: Tid)
    requires |th'| == |th| && t < |th| && Left(th'[t].pc) < Left(th[t].pc)
    requires forall u :: 0 <= u < |th| ==> u != t ==> th'[u].pc == th[u].pc
    ensures Work(th') < Work(th)
  {
    if t == 0 {
      SameWork(th[1..], th'[1..]);
    } else {
      WorkLowers(th[1..], th'[1..], t - 1);
    }
  }

  lemma {:induction false} SameWork(th: seq<Thread>, th': seq<Thread>)
    requires |th'| == |th| && forall u :: 0 <= u < |th| ==> th'[u].pc == th[u].pc
    ensures Work(th') == Work(th)
  {
    if th != [] {
      SameWork(th[1..], th'[1..]);
    }
  }

  lemma RunOn(n: nat, schedule: seq<Tid>, t: Tid)
    requires (forall i :: 0 <= i < |schedule| ==> schedule[i] < n) && t < n
    ensures Run(n, schedule + [t]) == Step(Run(n, schedule), t)
  {
    assert (schedule + [t])[..|schedule|] == schedule;
  }

  /** Whoever is in the code, somebody in it can go on. */
  lemma Mover(n: nat, schedule: seq<Tid>, t: Tid) returns (u: Tid)
    requires forall i :: 0 <= i < |schedule| ==> schedule[i] < n
    requires t < n && !Run(n, schedule).th[t].pc.Outside?
    ensures u < n && !Run(n, schedule).th[u].pc.Outside? && Step(Run(n, schedule), u) != Run(n, schedule)
  {
    RunInv(n, schedule);
    var s := Run(n, schedule);
    u := t;
    if NodeInUse(s.th[t].pc) {
      u := SomeoneProgresses(n, schedule);
    } else {
      assert Step(s, t).th[t].pc != s.th[t].pc;
    }
    hide Run, Followers, Tail, Head, Step;
  }

  lemma OneStepOn(n: nat, schedule: seq<Tid>, t: Tid) returns (u: Tid)
    requires forall i :: 0 <= i < |schedule| ==> schedule[i] < n
    requires t < n && !Run(n, schedule).th[t].pc.Outside?
    ensures u < n && Work(Run(n, schedule + [u]).th) < Work(Run(n, schedule).th)
  {
    u := Mover(n, schedule, t);
    var s := Run(n, schedule);
    OthersStay(s, u);
    StepsBringNearer(s, u);
    WorkLowers(s.th, Step(s, u).th, u);
    RunOn(n, schedule, u);
    hide *;
  }

  /** Everybody gets through: from every reachable state there is a continuation, of at most as
      many steps as are left, after which nobody is in the code. */
  lemma {:induction false} EverybodyGetsOut(n: nat, schedule: seq<Tid>) returns (more: seq<Tid>)
    requires forall i :: 0 <= i < |schedule| ==> schedule[i] < n
    ensures forall i :: 0 <= i < |more| ==> more[i] < n
    ensures |more| <= Work(Run(n, schedule).th)
    ensures forall t :: 0 <= t < n ==> Run(n, schedule + more).th[t].pc.Outside?
    decreases Work(Run(n, schedule).th)
  {
    if t: Tid :| t < n && !Run(n, schedule).th[t].pc.Outside? {
      var u := OneStepOn(n, schedule, t);
      hide Run, Work;
      var rest := EverybodyGetsOut(n, schedule + [u]);
      more := [u] + rest;
      assert schedule + more == schedule + [u] + rest;
    } else {
      more := [];
      assert schedule + more == schedule;
    }
  }

  // ---------------------------------------------------------------- in place

  /** The lock words and the nodes as memory that each access updates in place. */
  class Memory {
    var tail: Ptr
    var locked: bool
    var th: seq<Thread>
    var arrived: seq<Tid>
    var released: nat
    var holder: Tid

    function Value(): State
      reads this
    {
      State(tail, locked, th, arrived, released, holder)
    }

    constructor (n: nat)
      ensures Value() == Init(n)
    {
      tail, locked, th := Null, false, seq(n, _ => Thread(Outside, Null, false, 0));
      arrived, released, holder := [], 0, 0;
    }

    method SetPc(t: Tid, p: Pc)
      requires t < |th|
      modifies `th
      ensures Value() == old(Value()).Goto(t, p)
    {
      th := th[t := th[t].(pc := p)];
    }

    /** One shared access of thread `t`, as the code of both locks performs it. */
    method Advance(t: Tid)
      requires t < |th|
      modifies this
      ensures Value() == Step(old(Value()), t)
    {
      var me := th[t];
      match me.pc
      case Outside =>
        th := th[t := me.(pc := Exchanging, next := Null, granted := false)];
      case Exchanging =>
        var prev := tail;
        tail := Node(t);
        th := th[t := me.(ticket := |arrived|, pc := if prev == Null then AwaitingFree else Linking(prev.owner))];
        arrived := arrived + [t];
      case Linking(prev) =>
        if prev < |th| { th := th[prev := th[prev].(next := Node(t))]; }
        SetPc(t, AwaitingGrant);
      case AwaitingGrant =>
        if me.granted { SetPc(t, AwaitingFree); }
      case AwaitingFree =>
        if !locked { SetPc(t, SettingLocked); }
      case SettingLocked =>
        locked, holder := true, t;
        SetPc(t, LoadingNext);
      case LoadingNext =>
        if me.next == Null { SetPc(t, TryingCas); } else { SetPc(t, Granting(me.next.owner)); }
      case TryingCas =>
        if tail == Node(t) {
          tail, released := Null, released + 1;
          SetPc(t, Inside);
        } else {
          SetPc(t, AwaitingNext);
        }
      case AwaitingNext =>
        if me.next != Null { SetPc(t, Granting(me.next.owner)); }
      case Granting(succ) =>
        if succ < |th| { th := th[succ := th[succ].(granted := true)]; }
        SetPc(t, Inside);
        released := released + 1;
      case Inside =>
        locked := false;
        SetPc(t, Outside);
    }

    /** Threads take their steps in the order of `schedule`, starting from a fresh lock. */
    method Execute(schedule: seq<Tid>)
      requires Value() == Init(|th|)
      requires forall i :: 0 <= i < |schedule| ==> schedule[i] < |th|
      modifies this
      ensures |th| == old(|th|) && Value() == Run(|th|, schedule) && Inv(Value())
    {
      assert schedule[..|schedule|] == schedule;
      for i := 0 to |schedule|
        invariant |th| == old(|th|) && Value() == Run(|th|, schedule[..i])
      {
        assert schedule[..i + 1][..i] == schedule[..i];
        Advance(schedule[i]);
      }
      RunInv(|th|, schedule);
    }
  }
}
