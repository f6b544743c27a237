/**
 What becomes of the calls on the channel of `Channel`: which calls a channel accepts, that
 each call comes to its end after a known number of its fiber's own turns, and with which
 status everybody who was parked or held comes back.  Other fibers may take any turns between.
 */
module ChannelCalls {
  import opened Channel

  // ------------------------------------------------------------ statuses say what happened

  /** What may be in a fiber's item and in its hands: closed only on a closed channel, and
      destroyed only on a freed one. */
  predicate StatusOk(s: State, t: Tid) {
    t < |s.fibers| ==>
      && Means(s, s.fibers[t].state)
      && (s.fibers[t].pc.Returned? ==> Means(s, s.fibers[t].pc.status))
      && (s.fibers[t].pc.Cancelling? ==> Means(s, s.fibers[t].pc.status))
  }

  predicate Means(s: State, status: int) {
    (status == CLOSED ==> s.closed) && (status == DESTROY ==> s.closed && s.freed)
  }

  predicate Shut(s: State, s': State) {
    (s.closed ==> s'.closed) && (s.freed ==> s'.freed)
  }

  lemma StatusLocked(s: State, t: Tid, u: Tid)
    requires StatusOk(s, u) && t < |s.fibers|
    ensures StatusOk(SendLocked(s, t), u) && StatusOk(ReceiveLocked(s, t), u)
    ensures Shut(s, SendLocked(s, t)) && Shut(s, ReceiveLocked(s, t))
  {}

  lemma StatusTake(s: State, t: Tid, u: Tid)
    requires StatusOk(s, u) && t < |s.fibers|
    ensures StatusOk(CloseLocked(s, t), u) && StatusOk(DestroyLocked(s, t), u)
    ensures Shut(s, CloseLocked(s, t)) && Shut(s, DestroyLocked(s, t))
  {}

  lemma StatusBegin(s: State, t: Tid, op: Op, u: Tid)
    requires StatusOk(s, u) && t < |s.fibers|
    ensures StatusOk(Begin(s, t, op), u) && Shut(s, Begin(s, t, op))
  {
    StatusLocked(s, t, u);
    StatusTake(s, t, u);
    hide ReceiveLocked, DestroyLocked, Quiet;
  }

  lemma StatusRest(s: State, t: Tid, p: Tid, u: Tid)
    requires StatusOk(s, t) && StatusOk(s, p) && StatusOk(s, u) && t < |s.fibers| && p < |s.fibers|
    ensures StatusOk(Copy(s, t, p), u) && Shut(s, Copy(s, t, p))
    ensures StatusOk(SetState(s, p, SUCCESS).Goto(t, Switching(p)), u)
    ensures Shut(s, SetState(s, p, SUCCESS).Goto(t, Switching(p)))
    ensures StatusOk(SwitchTo(s, t, p), u) && Shut(s, SwitchTo(s, t, p))
  {}

  lemma StatusList(s: State, t: Tid, u: Tid)
    requires t < |s.fibers| && forall v :: StatusOk(s, v)
    ensures s.fibers[t].pc.Cancelling? ==>
              StatusOk(CancelNext(s, t, s.fibers[t].pc), u) && Shut(s, CancelNext(s, t, s.fibers[t].pc))
    ensures s.fibers[t].pc.Waking? ==>
              StatusOk(WakeNext(s, t, s.fibers[t].pc), u) && Shut(s, WakeNext(s, t, s.fibers[t].pc))
  {
    assert StatusOk(s, t) && StatusOk(s, u);
    var pc := s.fibers[t].pc;
    if pc.Waking? && pc.done < |pc.items| {
      assert StatusOk(s, pc.items[pc.done]);
    }
  }

  lemma StatusStep(s: State, t: Tid, op: Op, u: Tid)
    requires forall v :: StatusOk(s, v)
    ensures StatusOk(Step(s, t, op), u) && Shut(s, Step(s, t, op))
  {
    assert StatusOk(s, t) && StatusOk(s, u);
    if t < |s.fibers| {
      StatusBegin(s, t, op, u);
      StatusLocked(s, t, u);
      StatusTake(s, t, u);
      StatusList(s, t, u);
      var pc := s.fibers[t].pc;
      var p := match pc case Copying(p) => p case Marking(p) => p case Switching(p) => p case _ => t;
      if p < |s.fibers| {
        assert StatusOk(s, p);
        StatusRest(s, t, p, u);
      }
    }
    hide StatusOk, Begin, SendLocked, CloseLocked, Copy, SetState, SwitchTo, CancelNext, WakeNext;
  }

  lemma {:induction false} StatusRun(n: nat, turns: seq<Turn>)
    ensures forall t :: StatusOk(Run(n, turns), t)
  {
    if turns != [] {
      var m, last := |turns| - 1, turns[|turns| - 1];
      StatusRun(n, turns[..m]);
      hide Step;
      forall t: Tid
        ensures StatusOk(Run(n, turns), t)
      {
        StatusStep(Run(n, turns[..m]), last.fiber, last.op, t);
      }
    }
  }

  /** A call comes back with "closed" only if the channel is closed, and with "destroyed" only
      if it was destroyed; no item is marked so before. */
  lemma StatusMeansWhatHappened(n: nat, turns: seq<Turn>, t: Tid)
    requires t < n
    ensures
      var s := Run(n, turns);
      && (s.fibers[t].pc == Returned(CLOSED) || s.fibers[t].state == CLOSED ==> s.closed)
      && (s.fibers[t].pc == Returned(DESTROY) || s.fibers[t].state == DESTROY ==> s.freed)
  {
    StatusRun(n, turns);
    assert StatusOk(Run(n, turns), t);
  }

  // ------------------------------------------------------------ turns of others

  predicate Others(turns: seq<Turn>, t: Tid) {
    forall i :: 0 <= i < |turns| ==> turns[i].fiber != t
  }

  /** How many of the turns are those of `t`. */
  function Own(turns: seq<Turn>, t: Tid): nat {
    if turns == [] then 0 else Own(turns[..|turns| - 1], t) + if turns[|turns| - 1].fiber == t then 1 else 0
  }

  lemma OthersInit(turns: seq<Turn>, t: Tid)
    requires Others(turns, t) && turns != []
    ensures Others(turns[..|turns| - 1], t) && turns[|turns| - 1].fiber != t
  {}

  lemma RunOn(n: nat, turns: seq<Turn>, turn: Turn)
    ensures Run(n, turns + [turn]) == Step(Run(n, turns), turn.fiber, turn.op)
  {
    assert (turns + [turn])[..|turns|] == turns;
  }

  /** In a call and not suspended. */
  predicate Busy(pc: Pc) {
    pc == Entered || pc == CloseEntered || pc.Copying? || pc.Marking? || pc.Switching? || pc.Cancelling? || pc.Waking?
  }

  /** Nobody but itself changes a fiber that is in a call and not suspended. */
  lemma BusyStays(s: State, v: Tid, op: Op, t: Tid)
    requires Inv(s) && t < |s.fibers| && Busy(s.fibers[t].pc) && v != t
    ensures Step(s, v, op).fibers[t] == s.fibers[t]
  {
    GentleStep(s, v, op, t);
    hide Inv, Step;
  }

  lemma {:induction false} BusyUntilItsTurn(n: nat, turns: seq<Turn>, others: seq<Turn>, t: Tid)
    requires t < n && Others(others, t) && Busy(Run(n, turns).fibers[t].pc)
    ensures Run(n, turns + others).fibers[t] == Run(n, turns).fibers[t]
    ensures Shut(Run(n, turns), Run(n, turns + others))
  {
    if others == [] {
      assert turns + others == turns;
    } else {
      var m, last := |others| - 1, others[|others| - 1];
      OthersInit(others, t);
      BusyUntilItsTurn(n, turns, others[..m], t);
      assert turns + others == turns + others[..m] + [last];
      RunOn(n, turns + others[..m], last);
      RunInv(n, turns + others[..m]);
      StatusRun(n, turns + others[..m]);
      hide Step, Run, Inv;
      BusyStays(Run(n, turns + others[..m]), last.fiber, last.op, t);
      StatusStep(Run(n, turns + others[..m]), last.fiber, last.op, t);
    }
  }

  // ------------------------------------------------------------ which calls are accepted

  predicate BetweenCalls(s: State, t: Tid) {
    t < |s.fibers| && (s.fibers[t].pc == Idle || s.fibers[t].pc.Returned?)
  }

  lemma StepBegins(s: State, t: Tid, op: Op)
    requires BetweenCalls(s, t) && !s.freed
    ensures op.Send? ==> Step(s, t, op) == BeginSend(s, t, op.value)
    ensures op.Receive? ==> Step(s, t, op) == ReceiveLocked(s, t)
    ensures op.Close? ==> Step(s, t, op) == BeginClose(s, t)
    ensures op.Destroy? && Quiet(s) ==> Step(s, t, op) == DestroyLocked(s, t)
  {
    hide BeginSend, ReceiveLocked, BeginClose, DestroyLocked, Quiet;
  }

  /** A send on an open channel: after the fiber's next two turns, whatever the others do before
      the second, it is the last accepted send and carries its value, unless somebody has
      closed the channel; then, or on a closed channel, it has been refused. */
  lemma SendIsAccepted(n: nat, turns: seq<Turn>, t: Tid, v: int, others: seq<Turn>, op: Op)
    requires t < n && BetweenCalls(Run(n, turns), t) && !Run(n, turns).freed && Others(others, t)
    ensures
      var s, s1 := Run(n, turns), Run(n, turns + [Turn(t, Send(v))]);
      if s.closed then s1.fibers[t].pc == Returned(CLOSED) && s1.sent == s.sent
      else
        var s2 := Run(n, turns + [Turn(t, Send(v))] + others);
        var s3 := Run(n, turns + [Turn(t, Send(v))] + others + [Turn(t, op)]);
        if s2.closed then s3.fibers[t].pc == Returned(CLOSED) && s3.sent == s2.sent
        else
          && s3.sent == s2.sent + [Sent(t, v)] && s3.fibers[t].ticket == |s2.sent|
          && s3.fibers[t].pc == if |s2.sent| < |s2.received| then Copying(s2.received[|s2.sent|]) else Parked
  {
    hide Run, Inv, Step, SendLocked, Others;
    var begun := turns + [Turn(t, Send(v))];
    RunOn(n, turns, Turn(t, Send(v)));
    RunOn(n, begun + others, Turn(t, op));
    StepBegins(Run(n, turns), t, Send(v));
    if !Run(n, turns).closed {
      BusyUntilItsTurn(n, begun, others, t);
      RunInv(n, begun + others);
      SendIsDecided(Run(n, begun + others), t, op);
    }
  }

  lemma SendIsDecided(s: State, t: Tid, op: Op)
    requires Inv(s) && t < |s.fibers| && s.fibers[t].pc == Entered
    ensures
      var s' := Step(s, t, op);
      if s.closed then s'.fibers[t].pc == Returned(CLOSED) && s'.sent == s.sent
      else
        && s'.sent == s.sent + [Sent(t, s.fibers[t].data)] && s'.fibers[t].ticket == |s.sent|
        && s'.fibers[t].pc == if |s.sent| < |s.received| then Copying(s.received[|s.sent|]) else Parked
  {
    PartnerIsOldest(s);
    hide Inv, Begin;
  }

  /** A receive is decided at its first turn: it meets the oldest accepted send without a
      receive, or else waits for the next, or finds the channel closed. */
  lemma ReceiveIsAccepted(n: nat, turns: seq<Turn>, t: Tid)
    requires t < n && BetweenCalls(Run(n, turns), t) && !Run(n, turns).freed
    ensures
      var s, s' := Run(n, turns), Run(n, turns + [Turn(t, Receive)]);
      if |s.received| < |s.sent| then
        && s'.received == s.received + [t] && s'.fibers[t].ticket == |s.received|
        && s'.fibers[t].pc == Copying(s.sent[|s.received|].sender)
      else if s.closed then s'.fibers[t].pc == Returned(CLOSED) && s'.received == s.received
      else s'.received == s.received + [t] && s'.fibers[t].ticket == |s.received| && s'.fibers[t].pc == Parked
  {
    hide Run, Inv, Step, ReceiveLocked;
    RunOn(n, turns, Turn(t, Receive));
    RunInv(n, turns);
    StepBegins(Run(n, turns), t, Receive);
    ReceiveIsDecided(Run(n, turns), t);
  }

  lemma ReceiveIsDecided(s: State, t: Tid)
    requires Inv(s) && BetweenCalls(s, t)
    ensures
      var s' := ReceiveLocked(s, t);
      if |s.received| < |s.sent| then
        && s'.received == s.received + [t] && s'.fibers[t].ticket == |s.received|
        && s'.fibers[t].pc == Copying(s.sent[|s.received|].sender)
      else if s.closed then s'.fibers[t].pc == Returned(CLOSED) && s'.received == s.received
      else s'.received == s.received + [t] && s'.fibers[t].ticket == |s.received| && s'.fibers[t].pc == Parked
  {
    PartnerIsOldest(s);
    hide Inv;
  }

  /** A close has closed the channel by its fiber's second turn, whatever the others do before. */
  lemma CloseCloses(n: nat, turns: seq<Turn>, t: Tid, others: seq<Turn>, op: Op)
    requires t < n && BetweenCalls(Run(n, turns), t) && !Run(n, turns).freed && Others(others, t)
    ensures
      var s, s1 := Run(n, turns), Run(n, turns + [Turn(t, Close)]);
      if s.closed then s1 == s.Goto(t, Idle)
      else s1.fibers[t].pc == CloseEntered && Run(n, turns + [Turn(t, Close)] + others + [Turn(t, op)]).closed
  {
    var begun := turns + [Turn(t, Close)];
    RunOn(n, turns, Turn(t, Close));
    RunOn(n, begun + others, Turn(t, op));
    if !Run(n, turns).closed {
      BusyUntilItsTurn(n, begun, others, t);
    }
    hide Run;
  }

  /** A destroy of a channel that no call uses frees it at once. */
  lemma DestroyFrees(n: nat, turns: seq<Turn>, t: Tid)
    requires t < n && BetweenCalls(Run(n, turns), t) && !Run(n, turns).freed && Quiet(Run(n, turns))
    ensures Run(n, turns + [Turn(t, Destroy)]).freed && Run(n, turns + [Turn(t, Destroy)]).closed
  {
    hide Run, Step, Quiet;
    RunOn(n, turns, Turn(t, Destroy));
    StepBegins(Run(n, turns), t, Destroy);
  }

  // ------------------------------------------------------------ who is held comes back

  /** How many turns of its own a fiber that has left the lock needs to the end of its call. */
  function Left(pc: Pc): nat {
    match pc
    case Copying(_) => 3
    case Marking(_) => 2
    case Switching(_) => 1
    case Cancelling(items, _, done, _) => if done <= |items| then 2 * |items| - done + 2 else 1
    case Waking(items, _, done) => if done <= |items| then |items| - done + 1 else 1
    case _ => 0
  }

  /** `h` holds `u` and is about to have it return `status`. */
  predicate Promises(s: State, h: Tid, u: Tid, status: int) {
    && h < |s.fibers| && u < |s.fibers| && s.fibers[u].pc == Held(h)
    && match s.fibers[h].pc {
         case Copying(p) => p == u && status == SUCCESS
         case Marking(p) => p == u && status == SUCCESS
         case Switching(p) => p == u && status == SUCCESS
         case Cancelling(_, _, _, c) => status == c
         case Waking(_, _, _) => status == s.fibers[u].state
         case _ => false
       }
  }

  lemma PromiseExchange(s: State, u: Tid, h: Tid, op: Op, status: int)
    requires Inv(s) && Promises(s, h, u, status)
    requires s.fibers[h].pc.Copying? || s.fibers[h].pc.Marking? || s.fibers[h].pc.Switching?
    ensures
      var s' := Step(s, h, op);
      && Left(s'.fibers[h].pc) + 1 == Left(s.fibers[h].pc)
      && (Promises(s', h, u, status) || (s'.fibers[u].pc == Returned(status) && s'.fibers[h].pc == Returned(SUCCESS)))
  {
    assert FiberOk(s, h);
  }

  lemma PromiseList(s: State, u: Tid, h: Tid, op: Op, status: int)
    requires Inv(s) && Promises(s, h, u, status)
    requires s.fibers[h].pc.Cancelling? || s.fibers[h].pc.Waking?
    ensures
      var s' := Step(s, h, op);
      && Left(s'.fibers[h].pc) + 1 == Left(s.fibers[h].pc)
      && (Promises(s', h, u, status) || s'.fibers[u].pc == Returned(status))
    ensures status == CLOSED || status == DESTROY
  {
    var pc := s.fibers[h].pc;
    assert FiberOk(s, u) && FiberOk(s, h);
    var j := s.fibers[u].ticket - pc.base;
    if pc.Cancelling? {
      assert CancelItemOk(s, h, pc, pc.done) && CancelItemOk(s, h, pc, j);
    } else {
      assert WakeItemOk(s, h, pc.items, pc.base, pc.done) && WakeItemOk(s, h, pc.items, pc.base, j);
    }
    hide Inv, FiberOk, CancelOk, WakeOk;
  }

  /** A promise is kept: only the holder's own turns bring the held fiber back. */
  lemma PromiseStep(s: State, u: Tid, h: Tid, v: Tid, op: Op, status: int)
    requires Inv(s) && Promises(s, h, u, status) && v != u
    ensures
      var s' := Step(s, v, op);
      if v == h then
        && Left(s'.fibers[h].pc) + 1 == Left(s.fibers[h].pc)
        && (Promises(s', h, u, status)
            || (s'.fibers[u].pc == Returned(status) && (status == SUCCESS ==> Left(s.fibers[h].pc) == 1)))
      else Promises(s', h, u, status) && s'.fibers[h] == s.fibers[h]
  {
    if v == h {
      var pc := s.fibers[h].pc;
      hide Inv, Step;
      if pc.Cancelling? || pc.Waking? {
        PromiseList(s, u, h, op, status);
      } else {
        PromiseExchange(s, u, h, op, status);
      }
    } else {
      BusyStays(s, v, op, h);
      GentleStep(s, v, op, u);
      hide Inv, Step;
    }
  }

  lemma ReturnedStays(s: State, u: Tid, v: Tid, op: Op)
    requires Inv(s) && u < |s.fibers| && s.fibers[u].pc.Returned? && v != u
    ensures Step(s, v, op).fibers[u] == s.fibers[u]
  {
    GentleStep(s, v, op, u);
    hide Inv, Step;
  }

  /** After `own` turns of `h`, which had `left` to take: the promise stands, or it was kept. */
  predicate Due(s: State, h: Tid, u: Tid, status: int, left: nat, own: nat) {
    && h < |s.fibers| && u < |s.fibers|
    && ((Promises(s, h, u, status) && Left(s.fibers[h].pc) + own == left)
        || (s.fibers[u].pc == Returned(status) && (status == SUCCESS ==> left <= own)))
  }

  lemma DueStep(s: State, h: Tid, u: Tid, status: int, left: nat, own: nat, v: Tid, op: Op)
    requires Inv(s) && Due(s, h, u, status, left, own) && v != u
    ensures Due(Step(s, v, op), h, u, status, left, own + if v == h then 1 else 0)
  {
    hide Inv, Step, Left;
    if Promises(s, h, u, status) {
      PromiseStep(s, u, h, v, op, status);
    } else {
      ReturnedStays(s, u, v, op);
    }
  }

  /** While `u` takes no turn of its own, it is held with the same promise, the holder having
      come nearer to the end of its call by its own turns, or it has returned as promised. */
  lemma {:induction false} PromiseRun(n: nat, turns: seq<Turn>, more: seq<Turn>, u: Tid, h: Tid, status: int)
    requires Promises(Run(n, turns), h, u, status) && Others(more, u)
    ensures Due(Run(n, turns + more), h, u, status, Left(Run(n, turns).fibers[h].pc), Own(more, h))
  {
    if more == [] {
      assert turns + more == turns;
      hide Run, Left;
    } else {
      var m, last := |more| - 1, more[|more| - 1];
      var left := Left(Run(n, turns).fibers[h].pc);
      hide Step, Run, Inv, Left, Others, Due;
      OthersInit(more, u);
      PromiseRun(n, turns, more[..m], u, h, status);
      assert turns + more == turns + more[..m] + [last];
      RunOn(n, turns + more[..m], last);
      RunInv(n, turns + more[..m]);
      DueStep(Run(n, turns + more[..m]), h, u, status, left, Own(more[..m], h), last.fiber, last.op);
    }
  }

  /** The status with which a held fiber will come back. */
  function Promised(s: State, u: Tid): int {
    if u >= |s.fibers| || !s.fibers[u].pc.Held? || s.fibers[u].pc.holder >= |s.fibers| then INIT else
    match s.fibers[s.fibers[u].pc.holder].pc
    case Cancelling(_, _, _, status) => status
    case Waking(_, _, _) => s.fibers[u].state
    case _ => SUCCESS
  }

  /** Whoever is held comes back: when its holder has taken as many turns as it needs to the end
      of its call, whatever the others do between, the held fiber has returned the status
      promised to it, which is success, closed or destroyed. */
  lemma HeldComesBack(n: nat, turns: seq<Turn>, more: seq<Turn>, u: Tid)
    requires u < n && Run(n, turns).fibers[u].pc.Held? && Others(more, u)
    ensures
      var s, h := Run(n, turns), Run(n, turns).fibers[u].pc.holder;
      && h < n && 0 < Left(s.fibers[h].pc)
      && Promised(s, u) in {SUCCESS, CLOSED, DESTROY}
      && (Own(more, h) >= Left(s.fibers[h].pc) ==> Run(n, turns + more).fibers[u].pc == Returned(Promised(s, u)))
  {
    hide Run, Inv, Promises, Left, Promised;
    RunInv(n, turns);
    HolderPromises(Run(n, turns), u);
    var status := Promised(Run(n, turns), u);
    PromiseRun(n, turns, more, u, Run(n, turns).fibers[u].pc.holder, status);
    PromiseIsLeft(Run(n, turns + more), u, Run(n, turns).fibers[u].pc.holder, status);
  }

  lemma HolderPromises(s: State, u: Tid)
    requires Inv(s) && u < |s.fibers| && s.fibers[u].pc.Held?
    ensures
      var h := s.fibers[u].pc.holder;
      && h < |s.fibers| && 0 < Left(s.fibers[h].pc) && Promises(s, h, u, Promised(s, u))
      && Promised(s, u) in {SUCCESS, CLOSED, DESTROY}
  {
    var h := s.fibers[u].pc.holder;
    assert FiberOk(s, u) && Holds(s, h, u) && FiberOk(s, h);
    var pc := s.fibers[h].pc;
    if pc.Waking? {
      assert WakeItemOk(s, h, pc.items, pc.base, s.fibers[u].ticket - pc.base);
    }
    hide Inv, FiberOk;
  }

  lemma PromiseIsLeft(s: State, u: Tid, h: Tid, status: int)
    ensures Promises(s, h, u, status) ==> 0 < Left(s.fibers[h].pc)
  {}

  /** An exchange completes: after the three turns of the fiber that took the other's item, both
      have returned success. */
  lemma ExchangeCompletes(n: nat, turns: seq<Turn>, t: Tid, p: Tid, more: seq<Turn>, op: Op)
    requires t < n && Run(n, turns).fibers[t].pc == Copying(p) && Others(more, p) && Own(more, t) == 2
    ensures
      var s' := Run(n, turns + more + [Turn(t, op)]);
      && s'.fibers[t].pc == Returned(SUCCESS) && p < n && s'.fibers[p].pc == Returned(SUCCESS)
  {
    RunInv(n, turns);
    assert FiberOk(Run(n, turns), t);
    PromiseRun(n, turns, more, p, t, SUCCESS);
    RunInv(n, turns + more);
    RunOn(n, turns + more, Turn(t, op));
    hide Run, Inv, FiberOk;
    var s := Run(n, turns + more);
    if s.fibers[t].pc.Cancelling? || s.fibers[t].pc.Waking? {
      PromiseList(s, p, t, op, SUCCESS);
    } else {
      PromiseExchange(s, p, t, op, SUCCESS);
    }
  }

  // ------------------------------------------------------------ close and destroy

  /** Every reader parked when a close takes the lock comes back with "closed", by the time the
      closer has taken two more turns for each and two for itself; parked writers stay. */
  lemma CloseReachesParked(n: nat, turns: seq<Turn>, t: Tid, op: Op, more: seq<Turn>, u: Tid)
    requires t < n && u < n && Others(more, u)
    requires Run(n, turns).fibers[t].pc == CloseEntered && !Run(n, turns).closed && Run(n, turns).fibers[u].pc == Parked
    ensures
      var s, s1, s2 := Run(n, turns), Run(n, turns + [Turn(t, op)]), Run(n, turns + [Turn(t, op)] + more);
      && s1.closed
      && if s.fibers[u].sends then s1.fibers[u] == s.fibers[u]
         else s1.fibers[u].pc == Held(t) && (Own(more, t) >= 2 * |s.ritems| + 2 ==> s2.fibers[u].pc == Returned(CLOSED))
  {
    var s := Run(n, turns);
    RunOn(n, turns, Turn(t, op));
    if !s.fibers[u].sends {
      assert CloseLocked(s, t).fibers[u].pc == Held(t);
      assert CloseLocked(s, t).fibers[t].pc == Cancelling(s.ritems, |s.sent|, 0, CLOSED);
      HeldComesBack(n, turns + [Turn(t, op)], more, u);
    }
    hide Run;
  }

  /** Everybody parked when a destroy runs comes back with "destroyed" in the same way. */
  lemma DestroyReachesParked(n: nat, turns: seq<Turn>, t: Tid, more: seq<Turn>, u: Tid)
    requires t < n && u < n && Others(more, u) && BetweenCalls(Run(n, turns), t)
    requires !Run(n, turns).freed && Quiet(Run(n, turns)) && Run(n, turns).fibers[u].pc == Parked
    ensures
      var s, s1 := Run(n, turns), Run(n, turns + [Turn(t, Destroy)]);
      var s2 := Run(n, turns + [Turn(t, Destroy)] + more);
      && s1.freed && s1.fibers[u].pc == Held(t)
      && (Own(more, t) >= 2 * |s.ritems + s.witems| + 2 ==> s2.fibers[u].pc == Returned(DESTROY))
  {
    hide Run, Inv, Step, DestroyLocked, Quiet, Others, Left;
    RunOn(n, turns, Turn(t, Destroy));
    StepBegins(Run(n, turns), t, Destroy);
    DestroyTakesAll(n, turns, t, u);
    DestroyerLeft(Run(n, turns), t);
    HeldComesBack(n, turns + [Turn(t, Destroy)], more, u);
  }

  lemma DestroyerLeft(s: State, t: Tid)
    requires t < |s.fibers|
    ensures DestroyLocked(s, t).freed && DestroyLocked(s, t).fibers[t].pc.Cancelling?
    ensures DestroyLocked(s, t).fibers[t].pc.status == DESTROY
    ensures Left(DestroyLocked(s, t).fibers[t].pc) <= 2 * |s.ritems + s.witems| + 2
  {}

  /** One turn nearer to the end of the call. */
  lemma OwnStep(s: State, t: Tid, op: Op)
    requires Inv(s) && t < |s.fibers| && 0 < Left(s.fibers[t].pc)
    ensures
      var s' := Step(s, t, op);
      if Left(s.fibers[t].pc) == 1 then BetweenCalls(s', t) else Left(s'.fibers[t].pc) + 1 == Left(s.fibers[t].pc)
  {
    var pc := s.fibers[t].pc;
    assert FiberOk(s, t);
    if pc.Cancelling? {
      assert CancelItemOk(s, t, pc, pc.done);
    } else if pc.Waking? {
      assert WakeItemOk(s, t, pc.items, pc.base, pc.done);
    }
  }

  lemma LeftIsBusy(pc: Pc)
    requires 0 < Left(pc)
    ensures Busy(pc)
  {}

  lemma BetweenStays(s: State, v: Tid, op: Op, t: Tid)
    requires Inv(s) && BetweenCalls(s, t) && v != t
    ensures BetweenCalls(Step(s, v, op), t)
  {
    GentleStep(s, v, op, t);
    hide Inv, Step;
  }

  /** Every call ends: a fiber that has left the lock with others to serve is between calls
      after exactly the turns of its own that are left, whatever the others do between. */
  lemma {:induction false} CallEnds(n: nat, turns: seq<Turn>, t: Tid, more: seq<Turn>)
    requires t < n && Own(more, t) <= Left(Run(n, turns).fibers[t].pc) && 0 < Left(Run(n, turns).fibers[t].pc)
    ensures
      var left, s' := Left(Run(n, turns).fibers[t].pc), Run(n, turns + more);
      if Own(more, t) == left then BetweenCalls(s', t) else Left(s'.fibers[t].pc) + Own(more, t) == left
  {
    hide Step, Run, Inv, Left;
    if more == [] {
      assert turns + more == turns;
    } else {
      var m, last := |more| - 1, more[|more| - 1];
      CallEnds(n, turns, t, more[..m]);
      assert turns + more == turns + more[..m] + [last];
      RunOn(n, turns + more[..m], last);
      RunInv(n, turns + more[..m]);
      var s := Run(n, turns + more[..m]);
      if last.fiber == t {
        OwnStep(s, t, last.op);
      } else if Own(more[..m], t) == Left(Run(n, turns).fibers[t].pc) {
        BetweenStays(s, last.fiber, last.op, t);
      } else {
        LeftIsBusy(s.fibers[t].pc);
        BusyStays(s, last.fiber, last.op, t);
      }
    }
  }
}
