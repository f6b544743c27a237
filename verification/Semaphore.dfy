/**
 The fiber semaphore (src/semaphore.c): a count with a bound, and units handed to the longest
 waiting fiber.  A state machine over its locked regions and the enqueueing that follows
 them, any number of fibers.
 */
module Semaphore {

  type Tid = nat

  const UINT_MAX: int := 0xFFFF_FFFF

  datatype Pc = Outside | Parked | Coming(giver: Tid) | Giving(next: Tid) | Waking(items: seq<Tid>)

  /** History: `arrived` is the order of the waits in the spinlock, of which the first
      `granted` have got a unit; `signals` were given, of which `dropped` at the bound; who
      destroyed it, and who waited then. */
  datatype State = State(pcs: seq<Pc>, count: int, bound: int, list: seq<Tid>,
                         arrived: seq<Tid>, granted: nat, signals: nat, dropped: nat,
                         destroyed: bool, destroyer: Tid, stranded: seq<Tid>)
  {
    function Goto(t: Tid, pc: Pc): State
      requires t < |pcs|
    {
      this.(pcs := pcs[t := pc])
    }
  }

  function Init(n: nat, count: int, bound: int): State {
    State(seq(n, i => Outside), count, bound, [], [], 0, 0, 0, false, 0, [])
  }

  function WaitCall(s: State, t: Tid): State
    requires t < |s.pcs|
  {
    var s' := s.(arrived := s.arrived + [t]);
    if s.count > 0 then s'.(count := s.count - 1, granted := s.granted + 1)
    else s'.(list := s.list + [t]).Goto(t, Parked)
  }

  function SignalCall(s: State, t: Tid): State
    requires t < |s.pcs|
  {
    var s' := s.(signals := s.signals + 1);
    if s.list != [] then
      var f := s.list[0];
      var pcs := if f < |s.pcs| then s.pcs[f := Coming(t)] else s.pcs;
      s'.(list := s.list[1..], granted := s.granted + 1, pcs := pcs[t := Giving(f)])
    else if s.count < s.bound then s'.(count := s.count + 1)
    else s'.(dropped := s.dropped + 1)
  }

  /** enqueue_fiber: the popped waiter runs on. */
  function Give(s: State, t: Tid, f: Tid): State
    requires t < |s.pcs| && f < |s.pcs|
  {
    s.Goto(f, Outside).Goto(t, Outside)
  }

  function DestroyCall(s: State, t: Tid): State
    requires t < |s.pcs|
  {
    var items := if s.count == 0 then s.list else [];
    s.(list := if s.count == 0 then [] else s.list, destroyed := true, destroyer := t, stranded := items).Goto(t, Waking(items))
  }

  function WakeAll(s: State, t: Tid, items: seq<Tid>): State
    requires t < |s.pcs|
  {
    var pcs := seq(|s.pcs|, u requires 0 <= u < |s.pcs| => if u in items then Outside else s.pcs[u]);
    s.(pcs := pcs[t := Outside])
  }

  datatype Op = Wait | Signal | Destroy

  /** After a destroy nobody uses the semaphore. */
  function Step(s: State, t: Tid, op: Op): (s': State)
    ensures |s'.pcs| == |s.pcs|
  {
    if t >= |s.pcs| then s else
    match s.pcs[t]
    case Outside =>
      if s.destroyed then s else
      (match op
       case Wait => WaitCall(s, t)
       case Signal => SignalCall(s, t)
       case Destroy => DestroyCall(s, t))
    case Giving(f) => if f < |s.pcs| then Give(s, t, f) else s
    case Waking(items) => WakeAll(s, t, items)
    case Parked => s
    case Coming(_) => s
  }

  datatype Turn = Turn(fiber: Tid, op: Op)

  function Run(n: nat, count: int, bound: int, turns: seq<Turn>): (s: State)
    ensures |s.pcs| == n
  {
    if turns == [] then Init(n, count, bound)
    else
      var last := turns[|turns| - 1];
      Step(Run(n, count, bound, turns[..|turns| - 1]), last.fiber, last.op)
  }

  // ------------------------------------------------------------ what every step keeps

  ghost predicate FiberOk(s: State, t: Tid) {
    t < |s.pcs| ==>
      && (s.pcs[t] == Parked ==> t in s.list)
      && (s.pcs[t].Coming? ==> s.pcs[t].giver < |s.pcs| && s.pcs[s.pcs[t].giver] == Giving(t))
      && (s.pcs[t].Giving? ==> s.pcs[t].next < |s.pcs| && s.pcs[s.pcs[t].next] == Coming(t))
      && !s.pcs[t].Waking?
  }

  ghost predicate WaiterAt(s: State, i: int) {
    0 <= i < |s.list| ==>
      && s.list[i] < |s.pcs| && s.pcs[s.list[i]] == Parked
      && forall j :: 0 <= j < |s.list| ==> s.list[i] == s.list[j] ==> i == j
  }

  ghost predicate Inv(s: State, initial: int) {
    && s.granted <= |s.arrived|
    && 0 <= s.count && (s.count <= initial || s.count <= s.bound)
    && initial + s.signals == s.count + s.granted + s.dropped
    && (!s.destroyed ==>
          && s.list == s.arrived[s.granted..] && (s.list != [] ==> s.count == 0)
          && (forall t :: FiberOk(s, t)) && (forall i :: WaiterAt(s, i)))
    && (s.destroyed ==> s.stranded == s.arrived[s.granted..] && s.list == [] && forall t :: AfterOk(s, t))
  }

  /** The destroyer has not yet enqueued those it took. */
  predicate WakingNow(s: State) {
    s.destroyer < |s.pcs| && s.pcs[s.destroyer].Waking?
  }

  /** After the destroy: who waited is parked until the destroyer has enqueued it. */
  ghost predicate AfterOk(s: State, t: Tid) {
    t < |s.pcs| ==>
      && (s.pcs[t] == Parked <==> t in s.stranded && WakingNow(s))
      && (s.pcs[t].Coming? ==> s.pcs[t].giver < |s.pcs| && s.pcs[s.pcs[t].giver] == Giving(t))
      && (s.pcs[t].Giving? ==> s.pcs[t].next < |s.pcs| && s.pcs[s.pcs[t].next] == Coming(t))
      && (s.pcs[t].Waking? ==> t == s.destroyer && s.pcs[t].items == s.stranded)
  }

  lemma WaitInv(s: State, t: Tid, initial: int)
    requires Inv(s, initial) && !s.destroyed && t < |s.pcs| && s.pcs[t] == Outside
    ensures Inv(WaitCall(s, t), initial)
  {
    var s' := WaitCall(s, t);
    forall u: Tid
      ensures FiberOk(s', u)
    {
      assert FiberOk(s, u) && FiberOk(s, t);
    }
    hide FiberOk;
    forall i
      ensures WaiterAt(s', i)
    {
      assert WaiterAt(s, i);
      forall j | 0 <= j < |s'.list| && 0 <= i < |s'.list| && s'.list[i] == s'.list[j]
        ensures i == j
      {
        assert WaiterAt(s, j);
      }
    }
  }

  lemma SignalFiber(s: State, t: Tid, u: Tid, initial: int)
    requires Inv(s, initial) && !s.destroyed && t < |s.pcs| && s.pcs[t] == Outside
    ensures FiberOk(SignalCall(s, t), u)
  {
    var s' := SignalCall(s, t);
    assert FiberOk(s, u) && WaiterAt(s, 0);
    if s.list != [] && u < |s.pcs| && u != s.list[0] && s.pcs[u] == Parked {
      var i :| 0 <= i < |s.list| && s.list[i] == u;
      assert s'.list[i - 1] == u;
    }
  }

  lemma SignalInv(s: State, t: Tid, initial: int)
    requires Inv(s, initial) && !s.destroyed && t < |s.pcs| && s.pcs[t] == Outside
    ensures Inv(SignalCall(s, t), initial)
  {
    var s' := SignalCall(s, t);
    forall u: Tid
      ensures FiberOk(s', u)
    {
      SignalFiber(s, t, u, initial);
    }
    hide FiberOk;
    assert WaiterAt(s, 0);
    forall i
      ensures WaiterAt(s', i)
    {
      assert WaiterAt(s, if s.list == [] then i else i + 1);
    }
  }

  lemma GiveInv(s: State, t: Tid, f: Tid, initial: int)
    requires Inv(s, initial) && !s.destroyed && t < |s.pcs| && f < |s.pcs| && s.pcs[t] == Giving(f)
    ensures Inv(Give(s, t, f), initial)
  {
    var s' := Give(s, t, f);
    assert FiberOk(s, t);
    forall u: Tid
      ensures FiberOk(s', u)
    {
      assert FiberOk(s, u) && FiberOk(s, f);
    }
    hide FiberOk;
    forall i
      ensures WaiterAt(s', i)
    {
      assert WaiterAt(s, i);
    }
  }

  lemma DestroyInv(s: State, t: Tid, initial: int)
    requires Inv(s, initial) && !s.destroyed && t < |s.pcs| && s.pcs[t] == Outside
    ensures Inv(DestroyCall(s, t), initial)
    ensures forall u: Tid :: u < |s.pcs| ==> (DestroyCall(s, t).pcs[u] == Parked <==> u in s.list)
  {
    var s' := DestroyCall(s, t);
    forall u: Tid
      ensures AfterOk(s', u)
      ensures u < |s.pcs| ==> (s'.pcs[u] == Parked <==> u in s.list)
    {
      assert FiberOk(s, u) && FiberOk(s, t);
      if u in s.list {
        var i :| 0 <= i < |s.list| && s.list[i] == u;
        assert WaiterAt(s, i);
      }
    }
  }

  lemma WakeInv(s: State, t: Tid, items: seq<Tid>, initial: int)
    requires Inv(s, initial) && s.destroyed && t < |s.pcs| && s.pcs[t] == Waking(items)
    ensures Inv(WakeAll(s, t, items), initial)
  {
    var s' := WakeAll(s, t, items);
    assert AfterOk(s, t);
    forall u: Tid
      ensures AfterOk(s', u)
    {
      assert AfterOk(s, u);
      if u < |s.pcs| && s.pcs[u].Giving? {
        assert AfterOk(s, s.pcs[u].next);
      } else if u < |s.pcs| && s.pcs[u].Coming? {
        assert AfterOk(s, s.pcs[u].giver);
      }
    }
  }

  lemma LateGiveInv(s: State, t: Tid, f: Tid, initial: int)
    requires Inv(s, initial) && s.destroyed && t < |s.pcs| && f < |s.pcs| && s.pcs[t] == Giving(f)
    ensures Inv(Give(s, t, f), initial)
  {
    var s' := Give(s, t, f);
    assert AfterOk(s, t);
    forall u: Tid
      ensures AfterOk(s', u)
    {
      assert AfterOk(s, u) && AfterOk(s, f);
    }
  }

  lemma StepInv(s: State, t: Tid, op: Op, initial: int)
    requires Inv(s, initial)
    ensures Inv(Step(s, t, op), initial) && |Step(s, t, op).pcs| == |s.pcs|
  {
    if t < |s.pcs| {
      assert if s.destroyed then AfterOk(s, t) else FiberOk(s, t);
      match s.pcs[t]
      case Outside =>
        if !s.destroyed {
          match op {
            case Wait => WaitInv(s, t, initial);
            case Signal => SignalInv(s, t, initial);
            case Destroy => DestroyInv(s, t, initial);
          }
        }
      case Giving(f) => if s.destroyed { LateGiveInv(s, t, f, initial); } else { GiveInv(s, t, f, initial); }
      case Waking(items) => WakeInv(s, t, items, initial);
      case _ =>
    }
  }

  lemma InitInv(n: nat, count: nat, bound: int)
    ensures Inv(Init(n, count, bound), count)
  {
    var s := Init(n, count, bound);
    forall t: Tid
      ensures FiberOk(s, t)
    {
      assert t < n ==> s.pcs[t] == Outside;
    }
    hide FiberOk;
    forall i
      ensures WaiterAt(s, i)
    {}
  }

  lemma {:induction false} RunInv(n: nat, count: int, bound: int, turns: seq<Turn>)
    requires 0 <= count
    ensures Inv(Run(n, count, bound, turns), count)
    ensures Run(n, count, bound, turns).bound == bound
  {
    InitInv(n, count, bound);
    if turns != [] {
      var last := turns[|turns| - 1];
      RunInv(n, count, bound, turns[..|turns| - 1]);
      StepInv(Run(n, count, bound, turns[..|turns| - 1]), last.fiber, last.op, count);
    }
  }

  // ------------------------------------------------------------ theorems over every run

  /** What was there and what was signalled is what is there, what was granted and what was
      dropped; and the count stays an unsigned int, so its increment never wraps. */
  lemma UnitsAreConserved(n: nat, count: int, bound: int, turns: seq<Turn>)
    requires 0 <= count <= UINT_MAX && 0 <= bound <= UINT_MAX
    ensures
      var s := Run(n, count, bound, turns);
      count + s.signals == s.count + s.granted + s.dropped && 0 <= s.count <= UINT_MAX
  {
    RunInv(n, count, bound, turns);
  }

  /** A signal is dropped exactly when nobody waits and the count is at the bound or beyond. */
  lemma DroppedOnlyAtTheBound(n: nat, count: int, bound: int, turns: seq<Turn>, t: Tid, op: Op)
    requires 0 <= count && t < n
    requires Run(n, count, bound, turns).pcs[t] == Outside
    ensures
      var s, s' := Run(n, count, bound, turns), Step(Run(n, count, bound, turns), t, op);
      s'.dropped > s.dropped <==> !s.destroyed && op == Signal && s.list == [] && s.count >= bound
  {
    RunInv(n, count, bound, turns);
  }

  /** Fibers wait only when there is no unit, and they are granted in the order in which they
      came: the list is the waits that are still to be granted. */
  lemma {:induction false} WaitersInOrder(n: nat, count: int, bound: int, turns: seq<Turn>)
    requires 0 <= count && !Run(n, count, bound, turns).destroyed
    ensures
      var s := Run(n, count, bound, turns);
      && s.granted <= |s.arrived| && s.list == s.arrived[s.granted..]
      && (s.count > 0 ==> s.granted == |s.arrived|)
  {
    RunInv(n, count, bound, turns);
  }

  /** Nobody is lost: until the destroy, who waits is in the list, and who was popped is about
      to be enqueued by the fiber that popped it. */
  lemma NobodyIsLost(n: nat, count: int, bound: int, turns: seq<Turn>, t: Tid)
    requires 0 <= count && t < n && !Run(n, count, bound, turns).destroyed
    ensures
      var s := Run(n, count, bound, turns);
      && (s.pcs[t] == Parked <==> t in s.list)
      && (s.pcs[t].Coming? ==> s.pcs[t].giver < n && s.pcs[s.pcs[t].giver] == Giving(t))
  {
    RunInv(n, count, bound, turns);
    var s := Run(n, count, bound, turns);
    assert FiberOk(s, t);
    if t in s.list {
      var i :| 0 <= i < |s.list| && s.list[i] == t;
      assert WaiterAt(s, i);
    }
  }

  /** A destroy loses nobody although it looks only at a count of zero: in every run, once the
      destroyer has enqueued those it took, nobody is parked, who is still coming has its
      giver, and those that return without a unit are exactly the waits never granted. */
  lemma DestroyWakesAll(n: nat, count: int, bound: int, turns: seq<Turn>, u: Tid)
    requires 0 <= count && u < n
    requires Run(n, count, bound, turns).destroyed
    requires forall t :: 0 <= t < n ==> !Run(n, count, bound, turns).pcs[t].Waking?
    ensures
      var s := Run(n, count, bound, turns);
      && s.pcs[u] != Parked && s.granted <= |s.arrived| && s.stranded == s.arrived[s.granted..]
      && (s.pcs[u].Coming? ==> s.pcs[u].giver < n && s.pcs[s.pcs[u].giver] == Giving(u))
  {
    RunInv(n, count, bound, turns);
    var s := Run(n, count, bound, turns);
    assert !WakingNow(s) && AfterOk(s, u);
  }

  // ------------------------------------------------------------ every call gets on

  /** Turns of fibers other than `t`. */
  predicate Others(turns: seq<Turn>, t: Tid) {
    forall i :: 0 <= i < |turns| ==> turns[i].fiber != t
  }

  /** `t` has others to enqueue: whatever else happens, it still has them. */
  lemma StillHas(s: State, t: Tid, v: Tid, op: Op, initial: int)
    requires Inv(s, initial) && t < |s.pcs| && v != t && (s.pcs[t].Giving? || s.pcs[t].Waking?)
    ensures Step(s, v, op).pcs[t] == s.pcs[t]
    ensures s.destroyed ==> Step(s, v, op).destroyed && Step(s, v, op).stranded == s.stranded
  {
    assert s.destroyed ==> AfterOk(s, t) && AfterOk(s, v);
    assert !s.destroyed ==> FiberOk(s, t) && FiberOk(s, v) && WaiterAt(s, 0);
    hide FiberOk, WaiterAt, AfterOk;
  }

  lemma RunOn(n: nat, count: int, bound: int, turns: seq<Turn>, turn: Turn)
    ensures Run(n, count, bound, turns + [turn]) == Step(Run(n, count, bound, turns), turn.fiber, turn.op)
  {
    assert (turns + [turn])[..|turns|] == turns;
  }

  lemma {:induction false} HasUntilItsTurn(n: nat, count: int, bound: int, turns: seq<Turn>, t: Tid, others: seq<Turn>)
    requires 0 <= count && t < n && Others(others, t)
    requires Run(n, count, bound, turns).pcs[t].Giving? || Run(n, count, bound, turns).pcs[t].Waking?
    ensures
      var s, s' := Run(n, count, bound, turns), Run(n, count, bound, turns + others);
      s'.pcs[t] == s.pcs[t] && (s.destroyed ==> s'.destroyed && s'.stranded == s.stranded)
  {
    if others == [] {
      assert turns + others == turns;
    } else {
      var m, last := |others| - 1, others[|others| - 1];
      HasUntilItsTurn(n, count, bound, turns, t, others[..m]);
      RunInv(n, count, bound, turns + others[..m]);
      assert turns + others == turns + others[..m] + [last];
      RunOn(n, count, bound, turns + others[..m], last);
      hide Step, Run, Inv;
      StillHas(Run(n, count, bound, turns + others[..m]), t, last.fiber, last.op, count);
    }
  }

  /** A handover completes: in every run, after the next turn of a fiber that has popped a
      waiter, whatever the others do before, both have returned from their calls. */
  lemma HandoverCompletes(n: nat, count: int, bound: int, turns: seq<Turn>, t: Tid, others: seq<Turn>, op: Op)
    requires 0 <= count && t < n && Run(n, count, bound, turns).pcs[t].Giving? && Others(others, t)
    ensures
      var s' := Run(n, count, bound, turns + others + [Turn(t, op)]);
      var f := Run(n, count, bound, turns).pcs[t].next;
      s'.pcs[t] == Outside && f < n && s'.pcs[f] == Outside
  {
    HasUntilItsTurn(n, count, bound, turns, t, others);
    RunInv(n, count, bound, turns + others);
    RunOn(n, count, bound, turns + others, Turn(t, op));
    var s := Run(n, count, bound, turns + others);
    assert if s.destroyed then AfterOk(s, t) else FiberOk(s, t);
  }

  /** A signal lets the longest waiting fiber return with the unit, if anybody waits, at the
      latest at the signaller's next turn; if nobody waits, the signaller has returned. */
  lemma SignalReaches(n: nat, count: int, bound: int, turns: seq<Turn>, t: Tid, others: seq<Turn>, op: Op)
    requires 0 <= count && t < n && Others(others, t)
    requires Run(n, count, bound, turns).pcs[t] == Outside && !Run(n, count, bound, turns).destroyed
    ensures
      var s, s1 := Run(n, count, bound, turns), Run(n, count, bound, turns + [Turn(t, Signal)]);
      if s.list == [] then s1.pcs == s.pcs && s1.granted == s.granted && s1.signals == s.signals + 1
      else
        var s2 := Run(n, count, bound, turns + [Turn(t, Signal)] + others + [Turn(t, op)]);
        && s1.granted == s.granted + 1 && s.granted < |s.arrived| && s.list[0] == s.arrived[s.granted]
        && s.list[0] < n && s2.pcs[s.list[0]] == Outside && s2.pcs[t] == Outside
  {
    RunInv(n, count, bound, turns);
    RunOn(n, count, bound, turns, Turn(t, Signal));
    var s := Run(n, count, bound, turns);
    if s.list != [] {
      HandoverCompletes(n, count, bound, turns + [Turn(t, Signal)], t, others, op);
    }
  }

  /** A destroy completes: after the destroyer's next turn, whatever the others do before, the
      call is over, and everybody who was parked when it took the lock has returned. */
  lemma DestroyCompletes(n: nat, count: int, bound: int, turns: seq<Turn>, t: Tid, others: seq<Turn>, op: Op, u: Tid)
    requires 0 <= count && t < n && u < n && Others(others, t)
    requires Run(n, count, bound, turns).pcs[t] == Outside && !Run(n, count, bound, turns).destroyed
    ensures
      var s' := Run(n, count, bound, turns + [Turn(t, Destroy)] + others + [Turn(t, op)]);
      s'.destroyed && s'.pcs[t] == Outside && (Run(n, count, bound, turns).pcs[u] == Parked ==> s'.pcs[u] == Outside)
  {
    var s, begun := Run(n, count, bound, turns), turns + [Turn(t, Destroy)];
    RunInv(n, count, bound, turns);
    RunInv(n, count, bound, begun);
    RunOn(n, count, bound, turns, Turn(t, Destroy));
    assert Run(n, count, bound, begun).pcs[t].Waking?;
    HasUntilItsTurn(n, count, bound, begun, t, others);
    RunInv(n, count, bound, begun + others);
    RunOn(n, count, bound, begun + others, Turn(t, op));
    assert AfterOk(Run(n, count, bound, begun), u) && AfterOk(Run(n, count, bound, begun), t)
      && AfterOk(Run(n, count, bound, begun + others), u) && AfterOk(Run(n, count, bound, begun + others), t) && FiberOk(s, u);
    hide Run;
  }

  /** A call to wait is next in line: it has a unit at once exactly if there is one, and
      otherwise is parked behind all who wait. */
  lemma WaitJoins(n: nat, count: int, bound: int, turns: seq<Turn>, t: Tid)
    requires 0 <= count && t < n
    requires Run(n, count, bound, turns).pcs[t] == Outside && !Run(n, count, bound, turns).destroyed
    ensures
      var s, s' := Run(n, count, bound, turns), Run(n, count, bound, turns + [Turn(t, Wait)]);
      && s'.arrived == s.arrived + [t] && s'.signals == s.signals
      && if s.count > 0 then s'.pcs == s.pcs && s'.granted == |s'.arrived| && s'.count == s.count - 1
         else s'.pcs[t] == Parked && s'.list == s.list + [t] && s'.granted == s.granted
  {
    RunInv(n, count, bound, turns);
    RunOn(n, count, bound, turns, Turn(t, Wait));
  }

  /** Somebody can go on: for whoever is in a call and need not wait for a signal there is a
      fiber whose next turn completes what it has to do. */
  lemma SomeoneProgresses(n: nat, count: int, bound: int, turns: seq<Turn>, t: Tid) returns (u: Tid)
    requires 0 <= count && t < n && Run(n, count, bound, turns).pcs[t] != Outside
    requires Run(n, count, bound, turns).pcs[t] == Parked ==> Run(n, count, bound, turns).destroyed
    ensures u < n && (Run(n, count, bound, turns).pcs[u].Giving? || Run(n, count, bound, turns).pcs[u].Waking?)
    ensures forall op :: Step(Run(n, count, bound, turns), u, op) != Run(n, count, bound, turns)
  {
    RunInv(n, count, bound, turns);
    var s := Run(n, count, bound, turns);
    assert if s.destroyed then AfterOk(s, t) else FiberOk(s, t);
    u := if s.pcs[t].Coming? then s.pcs[t].giver else if s.pcs[t] == Parked then s.destroyer else t;
    assert if s.destroyed then AfterOk(s, u) else FiberOk(s, u);
    forall op
      ensures Step(s, u, op) != s
    {
      assert Step(s, u, op).pcs[u] != s.pcs[u];
    }
  }

  // ------------------------------------------------------------ in place

  class FiberSemaphore {
    var count: int
    var bound: int
    var list: seq<Tid>
    var pcs: seq<Pc>
    var destroyed: bool
    ghost var arrived: seq<Tid>
    ghost var granted: nat
    ghost var signals: nat
    ghost var dropped: nat
    ghost var destroyer: Tid
    ghost var stranded: seq<Tid>
    ghost const initial: int

    ghost function Value(): State
      reads this
    {
      State(pcs, count, bound, list, arrived, granted, signals, dropped, destroyed, destroyer, stranded)
    }

    /** Units are conserved, and the list is the fibers that wait, in order. */
    ghost predicate Valid()
      reads this
    {
      Inv(Value(), initial)
    }

    constructor (count: nat, bound: int, n: nat)
      ensures Valid() && Value() == Init(n, count, bound) && initial == count
    {
      this.count, this.bound, list, initial := count, bound, [], count;
      pcs, destroyed := seq(n, i => Outside), false;
      arrived, granted, signals, dropped, destroyer, stranded := [], 0, 0, 0, 0, [];
      new;
      hide Inv;
      InitInv(n, count, bound);
    }

    /** The locked region of wait: `t` gets a unit at once, exactly if there is one. */
    method WaitUnit(t: Tid) returns (parked: bool)
      requires Valid() && t < |pcs| && pcs[t] == Outside && !destroyed
      modifies this
      ensures Valid() && Value() == WaitCall(old(Value()), t)
      ensures parked <==> old(count) == 0
      ensures if parked then pcs[t] == Parked && list == old(list) + [t] && granted == old(granted)
              else granted == old(granted) + 1 && pcs == old(pcs)
    {
      WaitInv(Value(), t, initial);
      hide FiberOk, WaiterAt, AfterOk;
      parked := !(count > 0);
      if count > 0 {
        count := count - 1;
        granted := granted + 1;
      } else {
        list := list + [t];
        pcs := pcs[t := Parked];
      }
      arrived := arrived + [t];
    }

    /** The locked region of signal: whom to enqueue, which is the longest waiting fiber.  The
        unit is granted, counted or dropped, and in this order. */
    method SignalUnit(t: Tid) returns (next: seq<Tid>)
      requires Valid() && t < |pcs| && pcs[t] == Outside && !destroyed
      modifies this
      ensures Valid() && Value() == SignalCall(old(Value()), t)
      ensures |next| == (if old(granted) < old(|arrived|) then 1 else 0) && granted == old(granted) + |next|
      ensures next == old(arrived)[old(granted)..granted]
      ensures dropped > old(dropped) <==> next == [] && old(count) >= bound
    {
      SignalInv(Value(), t, initial);
      assert WaiterAt(Value(), 0);
      hide FiberOk, WaiterAt, AfterOk;
      next := [];
      if list != [] {
        next := [list[0]];
        list := list[1..];
        pcs, granted := pcs[next[0] := Coming(t)][t := Giving(next[0])], granted + 1;
      } else if count < bound {
        count := count + 1;
      } else {
        dropped := dropped + 1;
      }
      signals := signals + 1;
    }

    /** The locked region of destroy: whom to enqueue, which is everybody who waits. */
    method DestroyUnits(t: Tid) returns (items: seq<Tid>)
      requires Valid() && t < |pcs| && pcs[t] == Outside && !destroyed
      modifies this
      ensures Valid() && Value() == DestroyCall(old(Value()), t) && pcs[t] == Waking(items)
      ensures items == old(arrived)[old(granted)..] && list == []
      ensures forall u: Tid :: u < |pcs| ==> (pcs[u] == Parked <==> u in items)
    {
      DestroyInv(Value(), t, initial);
      hide FiberOk, WaiterAt, AfterOk;
      items := [];
      if count == 0 && list != [] {
        items, list := list, [];
      }
      pcs, destroyed, destroyer, stranded := pcs[t := Waking(items)], true, t, items;
    }

    /** The next region of fiber `t`, or the enqueueing after one. */
    method Advance(t: Tid, op: Op)
      requires Valid()
      modifies this
      ensures Valid() && Value() == Step(old(Value()), t, op)
    {
      StepInv(Value(), t, op, initial);
      hide Valid, WaitCall, SignalCall, DestroyCall;
      if t < |pcs| {
        match pcs[t]
        case Outside =>
          if !destroyed {
            match op {
              case Wait =>
                var parked := WaitUnit(t);
              case Signal =>
                var next := SignalUnit(t);
              case Destroy =>
                var items := DestroyUnits(t);
            }
          }
        case Giving(f) =>
          if f < |pcs| {
            pcs := pcs[f := Outside][t := Outside];
          }
        case Waking(items) =>
          var was := pcs;
          pcs := seq(|was|, u requires 0 <= u < |was| => if u in items then Outside else was[u]);
          pcs := pcs[t := Outside];
          assert pcs == WakeAll(old(Value()), t, items).pcs;
        case _ =>
      }
    }

    /** Any turns of any fibers, from the start: what is proved of all runs holds here. */
    method Execute(turns: seq<Turn>)
      requires Valid() && Value() == Init(|pcs|, initial, bound)
      modifies this
      ensures Valid() && Value() == Run(old(|pcs|), initial, old(bound), turns)
    {
      hide Valid, Init, Step;
      for i := 0 to |turns|
        invariant Valid() && Value() == Run(old(|pcs|), initial, old(bound), turns[..i])
      {
        assert turns[..i + 1][..i] == turns[..i];
        Advance(turns[i].fiber, turns[i].op);
      }
      assert turns[..|turns|] == turns;
    }
  }
}
