/**
 The fiber mutex (src/mutex.c): ownership is handed to the longest waiting fiber.  A state
 machine over its locked regions and the enqueueing that follows them, any number of fibers.
 */
module Mutex {

  type Tid = nat

  /** What a fiber does next.  A waiter that was popped is the owner already, before the fiber
      that popped it has enqueued it. */
  datatype Pc = Outside | Parked | Coming(giver: Tid) | Holding | Giving(next: Tid) | Waking(items: seq<Tid>)

  /** History: `arrived` is the order of the calls to lock in the mutex's spinlock, of which
      the first `granted` have got the mutex; who destroyed it, and who waited then. */
  datatype State = State(pcs: seq<Pc>, hold: bool, list: seq<Tid>, arrived: seq<Tid>, granted: nat,
                         destroyed: bool, destroyer: Tid, stranded: seq<Tid>)
  {
    function Goto(t: Tid, pc: Pc): State
      requires t < |pcs|
    {
      this.(pcs := pcs[t := pc])
    }
  }

  function Init(n: nat): State {
    State(seq(n, i => Outside), false, [], [], 0, false, 0, [])
  }

  function LockCall(s: State, t: Tid): State
    requires t < |s.pcs|
  {
    var s' := s.(arrived := s.arrived + [t]);
    if !s.hold then s'.(hold := true, granted := s.granted + 1).Goto(t, Holding)
    else s'.(list := s.list + [t]).Goto(t, Parked)
  }

  function UnlockCall(s: State, t: Tid): State
    requires t < |s.pcs|
  {
    if s.list == [] then s.(hold := false).Goto(t, Outside)
    else
      var f := s.list[0];
      var pcs := if f < |s.pcs| then s.pcs[f := Coming(t)] else s.pcs;
      s.(list := s.list[1..], granted := s.granted + 1, pcs := pcs[t := Giving(f)])
  }

  /** enqueue_fiber: the popped waiter runs on. */
  function Give(s: State, t: Tid, f: Tid): State
    requires t < |s.pcs| && f < |s.pcs|
  {
    s.Goto(f, Holding).Goto(t, Outside)
  }

  /** All waiters are taken off, if the mutex is held. */
  function DestroyCall(s: State, t: Tid): State
    requires t < |s.pcs|
  {
    var items := if s.hold then s.list else [];
    s.(list := if s.hold then [] else s.list, destroyed := true, destroyer := t, stranded := items).Goto(t, Waking(items))
  }

  /** They run on as if they had got the mutex. */
  function WakeAll(s: State, t: Tid, items: seq<Tid>): State
    requires t < |s.pcs|
  {
    var pcs := seq(|s.pcs|, u requires 0 <= u < |s.pcs| => if u in items then Holding else s.pcs[u]);
    s.(pcs := pcs[t := Outside])
  }

  datatype Op = Lock | Destroy

  /** Only a fiber that has the mutex unlocks it, and after a destroy nobody uses it. */
  function Step(s: State, t: Tid, op: Op): (s': State)
    ensures |s'.pcs| == |s.pcs|
  {
    if t >= |s.pcs| then s else
    match s.pcs[t]
    case Outside => if s.destroyed then s else if op == Lock then LockCall(s, t) else DestroyCall(s, t)
    case Holding => if s.destroyed then s else UnlockCall(s, t)
    case Giving(f) => if f < |s.pcs| then Give(s, t, f) else s
    case Waking(items) => WakeAll(s, t, items)
    case Parked => s
    case Coming(_) => s
  }

  datatype Turn = Turn(fiber: Tid, op: Op)

  function Run(n: nat, turns: seq<Turn>): (s: State)
    ensures |s.pcs| == n
  {
    if turns == [] then Init(n)
    else
      var last := turns[|turns| - 1];
      Step(Run(n, turns[..|turns| - 1]), last.fiber, last.op)
  }

  // ------------------------------------------------------------ what every step keeps

  predicate Owns(s: State, t: Tid) {
    t < |s.pcs| && (s.pcs[t] == Holding || s.pcs[t].Coming?)
  }

  /** Until the destroy: who owns is the fiber whose call was granted last, and who waits has a
      place in the list. */
  ghost predicate FiberOk(s: State, t: Tid) {
    t < |s.pcs| ==>
      && (Owns(s, t) ==> s.hold && 0 < s.granted <= |s.arrived| && s.arrived[s.granted - 1] == t)
      && (s.pcs[t] == Parked ==> t in s.list)
      && (s.pcs[t].Coming? ==> s.pcs[t].giver < |s.pcs| && s.pcs[s.pcs[t].giver] == Giving(t))
      && (s.pcs[t].Giving? ==> s.pcs[t].next < |s.pcs| && s.pcs[s.pcs[t].next] == Coming(t))
      && !s.pcs[t].Waking?
  }

  ghost predicate WaiterAt(s: State, i: int) {
    0 <= i < |s.list| ==>
      && s.list[i] < |s.pcs| && s.pcs[s.list[i]] == Parked
      && forall j :: 0 <= j < |s.list| ==> s.list[i] == s.list[j] ==> i == j
  }

  ghost predicate Inv(s: State) {
    && s.granted <= |s.arrived|
    && (!s.destroyed ==>
          && s.list == s.arrived[s.granted..]
          && (s.hold ==> s.granted > 0 && s.arrived[s.granted - 1] < |s.pcs| && Owns(s, s.arrived[s.granted - 1]))
          && (!s.hold ==> s.list == [])
          && (forall t :: FiberOk(s, t)) && (forall i :: WaiterAt(s, i)))
    && (s.destroyed ==> (forall t :: AfterOk(s, t)) && (!s.hold ==> s.stranded == []))
  }

  /** The destroyer has not yet enqueued those it took. */
  predicate WakingNow(s: State) {
    s.destroyer < |s.pcs| && s.pcs[s.destroyer].Waking?
  }

  /** Granted last, and not unlocked since. */
  predicate LastOwner(s: State, t: Tid) {
    s.hold && 0 < s.granted <= |s.arrived| && t == s.arrived[s.granted - 1]
  }

  /** After the destroy: who owned goes on owning, and who waited is parked until the destroyer
      has enqueued it and then takes itself for an owner. */
  ghost predicate AfterOk(s: State, t: Tid) {
    t < |s.pcs| ==>
      && (Owns(s, t) <==> LastOwner(s, t) || (t in s.stranded && !WakingNow(s)))
      && (s.pcs[t] == Parked <==> t in s.stranded && WakingNow(s))
      && (s.pcs[t].Waking? ==> t == s.destroyer && s.pcs[t].items == s.stranded)
      && (s.pcs[t].Coming? ==> s.pcs[t].giver < |s.pcs| && s.pcs[s.pcs[t].giver] == Giving(t))
      && (s.pcs[t].Giving? ==> s.pcs[t].next < |s.pcs| && s.pcs[s.pcs[t].next] == Coming(t))
      && !(LastOwner(s, t) && t in s.stranded)
  }

  lemma LockInv(s: State, t: Tid)
    requires Inv(s) && !s.destroyed && t < |s.pcs| && s.pcs[t] == Outside
    ensures Inv(LockCall(s, t))
  {
    var s' := LockCall(s, t);
    forall u: Tid
      ensures FiberOk(s', u)
    {
      assert FiberOk(s, u) && FiberOk(s, t);
    }
    hide FiberOk;
    forall i
      ensures WaiterAt(s', i)
    {
      assert WaiterAt(s, i);
      forall j | 0 <= j < |s'.list| && 0 <= i < |s'.list| && s'.list[i] == s'.list[j]
        ensures i == j
      {
        assert WaiterAt(s, j);
      }
    }
  }

  lemma UnlockFiber(s: State, t: Tid, u: Tid)
    requires Inv(s) && !s.destroyed && t < |s.pcs| && s.pcs[t] == Holding
    ensures FiberOk(UnlockCall(s, t), u)
  {
    var s' := UnlockCall(s, t);
    assert FiberOk(s, t) && FiberOk(s, u) && WaiterAt(s, 0);
    if s.list != [] && u < |s.pcs| && u != s.list[0] && s.pcs[u] == Parked {
      var i :| 0 <= i < |s.list| && s.list[i] == u;
      assert s'.list[i - 1] == u;
    }
  }

  lemma UnlockInv(s: State, t: Tid)
    requires Inv(s) && !s.destroyed && t < |s.pcs| && s.pcs[t] == Holding
    ensures Inv(UnlockCall(s, t))
  {
    var s' := UnlockCall(s, t);
    assert FiberOk(s, t);
    forall u: Tid
      ensures FiberOk(s', u)
    {
      UnlockFiber(s, t, u);
    }
    hide FiberOk;
    assert WaiterAt(s, 0);
    forall i
      ensures WaiterAt(s', i)
    {
      assert WaiterAt(s, i + 1);
    }
  }

  lemma GiveInv(s: State, t: Tid, f: Tid)
    requires Inv(s) && !s.destroyed && t < |s.pcs| && f < |s.pcs| && s.pcs[t] == Giving(f)
    ensures Inv(Give(s, t, f))
  {
    var s' := Give(s, t, f);
    assert FiberOk(s, t);
    forall u: Tid
      ensures FiberOk(s', u)
    {
      assert FiberOk(s, u) && FiberOk(s, f);
    }
    hide FiberOk;
    forall i
      ensures WaiterAt(s', i)
    {
      assert WaiterAt(s, i);
    }
  }

  lemma DestroyInv(s: State, t: Tid)
    requires Inv(s) && !s.destroyed && t < |s.pcs| && s.pcs[t] == Outside
    ensures Inv(DestroyCall(s, t))
  {
    var s' := DestroyCall(s, t);
    forall u: Tid
      ensures AfterOk(s', u)
    {
      assert FiberOk(s, u) && FiberOk(s, t);
      if u in s.list {
        var i :| 0 <= i < |s.list| && s.list[i] == u;
        assert WaiterAt(s, i);
      }
    }
  }

  lemma WakeInv(s: State, t: Tid, items: seq<Tid>)
    requires Inv(s) && s.destroyed && t < |s.pcs| && s.pcs[t] == Waking(items)
    ensures Inv(WakeAll(s, t, items))
  {
    var s' := WakeAll(s, t, items);
    assert AfterOk(s, t);
    forall u: Tid
      ensures AfterOk(s', u)
    {
      assert AfterOk(s, u);
      if u < |s.pcs| && s.pcs[u].Giving? {
        assert AfterOk(s, s.pcs[u].next);
      } else if u < |s.pcs| && s.pcs[u].Coming? {
        assert AfterOk(s, s.pcs[u].giver);
      }
    }
  }

  lemma LateGiveInv(s: State, t: Tid, f: Tid)
    requires Inv(s) && s.destroyed && t < |s.pcs| && f < |s.pcs| && s.pcs[t] == Giving(f)
    ensures Inv(Give(s, t, f))
  {
    var s' := Give(s, t, f);
    assert AfterOk(s, t);
    forall u: Tid
      ensures AfterOk(s', u)
    {
      assert AfterOk(s, u) && AfterOk(s, f);
    }
  }

  lemma StepInv(s: State, t: Tid, op: Op)
    requires Inv(s)
    ensures Inv(Step(s, t, op)) && |Step(s, t, op).pcs| == |s.pcs|
  {
    if t < |s.pcs| {
      assert if s.destroyed then AfterOk(s, t) else FiberOk(s, t);
      match s.pcs[t]
      case Outside => if !s.destroyed { if op == Lock { LockInv(s, t); } else { DestroyInv(s, t); } }
      case Holding => if !s.destroyed { UnlockInv(s, t); }
      case Giving(f) => if s.destroyed { LateGiveInv(s, t, f); } else { GiveInv(s, t, f); }
      case Waking(items) => WakeInv(s, t, items);
      case _ =>
    }
  }

  lemma InitInv(n: nat)
    ensures Inv(Init(n))
  {
    var s := Init(n);
    forall t: Tid
      ensures FiberOk(s, t)
    {
      assert t < n ==> s.pcs[t] == Outside;
    }
    hide FiberOk;
    forall i
      ensures WaiterAt(s, i)
    {}
  }

  lemma {:induction false} RunInv(n: nat, turns: seq<Turn>)
    ensures Inv(Run(n, turns))
  {
    InitInv(n);
    if turns != [] {
      var last := turns[|turns| - 1];
      RunInv(n, turns[..|turns| - 1]);
      StepInv(Run(n, turns[..|turns| - 1]), last.fiber, last.op);
    }
  }

  // ------------------------------------------------------------ theorems over every run

  ghost predicate Exclusive(s: State) {
    forall t: Tid, u: Tid :: Owns(s, t) && Owns(s, u) ==> t == u
  }

  /** Until the destroy at most one fiber owns the mutex, and it is the one whose call was
      granted last; the calls are granted in the order in which they came, and the list is
      those that are still to be granted. */
  lemma OneOwnerInOrder(n: nat, turns: seq<Turn>)
    requires !Run(n, turns).destroyed
    ensures
      var s := Run(n, turns);
      && Exclusive(s) && s.granted <= |s.arrived| && s.list == s.arrived[s.granted..]
      && (forall t :: Owns(s, t) <==> s.hold && s.granted > 0 && t == s.arrived[s.granted - 1])
  {
    hide Run, Inv, Owns;
    RunInv(n, turns);
    OwnerIsLastGranted(Run(n, turns));
  }

  lemma OwnerIsLastGranted(s: State)
    requires Inv(s) && !s.destroyed
    ensures s.granted <= |s.arrived| && s.list == s.arrived[s.granted..]
    ensures forall t: Tid :: Owns(s, t) <==> s.hold && s.granted > 0 && t == s.arrived[s.granted - 1]
  {
    forall t: Tid
      ensures Owns(s, t) <==> s.hold && s.granted > 0 && t == s.arrived[s.granted - 1]
    {
      assert FiberOk(s, t);
    }
  }

  /** An unlock hands the mutex to the longest waiting fiber, and to nobody if nobody waits. */
  lemma UnlockHandsOver(n: nat, turns: seq<Turn>, t: Tid, op: Op, u: Tid)
    requires !Run(n, turns).destroyed && t < n && Run(n, turns).pcs[t] == Holding
    ensures
      var s, s' := Run(n, turns), Step(Run(n, turns), t, op);
      && (Owns(s', u) <==> s.list != [] && u == s.list[0])
      && (s'.hold <==> s.list != [])
  {
    RunInv(n, turns);
    var s, s' := Run(n, turns), Step(Run(n, turns), t, op);
    StepInv(s, t, op);
    assert FiberOk(s', u) && FiberOk(s, t);
    assert WaiterAt(s, 0);
  }

  /** Nobody is lost: until the destroy, who waits is in the list, and who was popped is about
      to be enqueued by the fiber that popped it. */
  lemma NobodyIsLost(n: nat, turns: seq<Turn>, t: Tid)
    requires !Run(n, turns).destroyed && t < n
    ensures
      var s := Run(n, turns);
      && (s.pcs[t] == Parked <==> t in s.list)
      && (s.pcs[t].Coming? ==> s.pcs[t].giver < n && s.pcs[s.pcs[t].giver] == Giving(t))
  {
    RunInv(n, turns);
    var s := Run(n, turns);
    assert FiberOk(s, t);
    if t in s.list {
      var i :| 0 <= i < |s.list| && s.list[i] == t;
      assert WaiterAt(s, i);
    }
  }

  /** A destroy loses nobody, but every waiter returns from its lock as if it owned the mutex.
      In every run, once the destroyer has enqueued those it took, nobody is parked, the owners
      are the fiber granted last and everybody who waited, and so exclusion has survived the
      destroy exactly when nobody waited. */
  lemma DestroyAndExclusion(n: nat, turns: seq<Turn>)
    requires Run(n, turns).destroyed && forall t :: 0 <= t < n ==> !Run(n, turns).pcs[t].Waking?
    ensures
      var s := Run(n, turns);
      && (forall t :: 0 <= t < n ==> s.pcs[t] != Parked)
      && (forall t :: 0 <= t < n ==> (Owns(s, t) <==> LastOwner(s, t) || t in s.stranded))
      && (Exclusive(s) <==> s.stranded == [])
  {
    RunInv(n, turns);
    StrandedAreFibers(n, turns);
    var s := Run(n, turns);
    hide Run;
    assert !WakingNow(s);
    forall t: Tid | t < n
      ensures s.pcs[t] != Parked && (Owns(s, t) <==> LastOwner(s, t) || t in s.stranded)
    {
      assert AfterOk(s, t);
    }
    if s.stranded != [] {
      var o, w := s.arrived[s.granted - 1], s.stranded[0];
      assert AfterOk(s, o) && AfterOk(s, w);
      assert w in s.stranded && Owns(s, w) && Owns(s, o) && o != w;
    }
  }

  /** Who waited, and who owns, is a fiber. */
  ghost predicate AreFibers(s: State) {
    && (forall i :: 0 <= i < |s.arrived| ==> s.arrived[i] < |s.pcs|)
    && (forall i :: 0 <= i < |s.list| ==> s.list[i] < |s.pcs|)
    && (forall i :: 0 <= i < |s.stranded| ==> s.stranded[i] < |s.pcs|)
    && (s.hold ==> 0 < s.granted <= |s.arrived|)
  }

  lemma {:induction false} StrandedAreFibers(n: nat, turns: seq<Turn>)
    ensures AreFibers(Run(n, turns))
  {
    if turns != [] {
      StrandedAreFibers(n, turns[..|turns| - 1]);
      RunInv(n, turns[..|turns| - 1]);
      hide FiberOk, WaiterAt, AfterOk;
    }
  }

  /** Such a run: fiber 0 owns, fiber 1 waits, fiber 2 destroys, and then 0 and 1 both own. */
  lemma DestroyCanBreakExclusion()
    ensures
      var s := Run(3, [Turn(0, Lock), Turn(1, Lock), Turn(2, Destroy), Turn(2, Destroy)]);
      s.destroyed && !WakingNow(s) && s.stranded == [1] && Owns(s, 0) && Owns(s, 1) && !Exclusive(s)
  {
    var a, b, c, d := Turn(0, Lock), Turn(1, Lock), Turn(2, Destroy), Turn(2, Destroy);
    assert [a, b, c, d][..3] == [a, b, c] && [a, b, c][..2] == [a, b] && [a, b][..1] == [a] && [a][..0] == [];
    assert Run(3, [a]).pcs == [Holding, Outside, Outside];
    assert Run(3, [a, b]).pcs == [Holding, Parked, Outside] && Run(3, [a, b]).list == [1];
    assert Run(3, [a, b, c]).pcs == [Holding, Parked, Waking([1])];
    var s := Run(3, [a, b, c, d]);
    assert s.pcs == [Holding, Holding, Outside];
    assert Owns(s, 0) && Owns(s, 1);
  }

  // ------------------------------------------------------------ every call gets on

  /** Turns of fibers other than `t`. */
  predicate Others(turns: seq<Turn>, t: Tid) {
    forall i :: 0 <= i < |turns| ==> turns[i].fiber != t
  }

  /** `t` has others to enqueue: whatever else happens, it still has them. */
  lemma StillHas(s: State, t: Tid, v: Tid, op: Op)
    requires Inv(s) && t < |s.pcs| && v != t && (s.pcs[t].Giving? || s.pcs[t].Waking?)
    ensures Step(s, v, op).pcs[t] == s.pcs[t]
    ensures s.destroyed ==> Step(s, v, op).destroyed && Step(s, v, op).stranded == s.stranded
  {
    assert s.destroyed ==> AfterOk(s, t) && AfterOk(s, v);
    assert !s.destroyed ==> FiberOk(s, t) && FiberOk(s, v) && WaiterAt(s, 0);
    hide FiberOk, WaiterAt, AfterOk;
  }

  lemma {:induction false} HasUntilItsTurn(n: nat, turns: seq<Turn>, t: Tid, others: seq<Turn>)
    requires t < n && Others(others, t) && (Run(n, turns).pcs[t].Giving? || Run(n, turns).pcs[t].Waking?)
    ensures
      var s, s' := Run(n, turns), Run(n, turns + others);
      s'.pcs[t] == s.pcs[t] && (s.destroyed ==> s'.destroyed && s'.stranded == s.stranded)
  {
    if others == [] {
      assert turns + others == turns;
    } else {
      var m, last := |others| - 1, others[|others| - 1];
      HasUntilItsTurn(n, turns, t, others[..m]);
      RunInv(n, turns + others[..m]);
      assert turns + others == turns + others[..m] + [last];
      RunOn(n, turns + others[..m], last);
      hide Step, Run, Inv;
      StillHas(Run(n, turns + others[..m]), t, last.fiber, last.op);
    }
  }

  lemma RunOn(n: nat, turns: seq<Turn>, turn: Turn)
    ensures Run(n, turns + [turn]) == Step(Run(n, turns), turn.fiber, turn.op)
  {
    assert (turns + [turn])[..|turns|] == turns;
  }

  /** An unlock completes: in every run a fiber that has popped a waiter is, after its next
      turn and whatever the others do before, outside the call, and the waiter holds the
      mutex and runs. */
  lemma HandoverCompletes(n: nat, turns: seq<Turn>, t: Tid, others: seq<Turn>, op: Op)
    requires t < n && Run(n, turns).pcs[t].Giving? && Others(others, t)
    ensures
      var s' := Run(n, turns + others + [Turn(t, op)]);
      s'.pcs[t] == Outside && Run(n, turns).pcs[t].next < n && s'.pcs[Run(n, turns).pcs[t].next] == Holding
  {
    HasUntilItsTurn(n, turns, t, others);
    RunInv(n, turns + others);
    RunOn(n, turns + others, Turn(t, op));
    var s := Run(n, turns + others);
    assert if s.destroyed then AfterOk(s, t) else FiberOk(s, t);
  }

  /** A destroy completes: after the destroyer's next turn, whatever the others do before, the
      call is over, and everybody who was parked when it took the lock holds and runs. */
  lemma DestroyCompletes(n: nat, turns: seq<Turn>, t: Tid, others: seq<Turn>, op: Op, u: Tid)
    requires t < n && u < n && Others(others, t)
    requires Run(n, turns).pcs[t] == Outside && !Run(n, turns).destroyed
    ensures
      var s' := Run(n, turns + [Turn(t, Destroy)] + others + [Turn(t, op)]);
      s'.destroyed && s'.pcs[t] == Outside && (Run(n, turns).pcs[u] == Parked ==> s'.pcs[u] == Holding)
  {
    var s, begun := Run(n, turns), turns + [Turn(t, Destroy)];
    RunInv(n, turns);
    RunInv(n, begun);
    RunOn(n, turns, Turn(t, Destroy));
    assert Run(n, begun).pcs[t].Waking?;
    HasUntilItsTurn(n, begun, t, others);
    RunInv(n, begun + others);
    RunOn(n, begun + others, Turn(t, op));
    assert AfterOk(Run(n, begun), u) && AfterOk(Run(n, begun), t) && AfterOk(Run(n, begun + others), u)
      && AfterOk(Run(n, begun + others), t) && FiberOk(s, u);
    hide Run;
  }

  /** A call to lock is next in line: it owns the mutex at once exactly if nobody does, and
      otherwise is parked behind all who wait. */
  lemma LockJoins(n: nat, turns: seq<Turn>, t: Tid)
    requires t < n && Run(n, turns).pcs[t] == Outside && !Run(n, turns).destroyed
    ensures
      var s, s' := Run(n, turns), Run(n, turns + [Turn(t, Lock)]);
      && s'.arrived == s.arrived + [t] && !s'.destroyed
      && if forall u :: !Owns(s, u) then s'.pcs[t] == Holding && s'.granted == |s'.arrived|
         else s'.pcs[t] == Parked && s'.list == s.list + [t]
  {
    RunInv(n, turns);
    RunOn(n, turns, Turn(t, Lock));
    var s := Run(n, turns);
    assert s.hold ==> Owns(s, s.arrived[s.granted - 1]);
    if u: Tid :| Owns(s, u) {
      assert FiberOk(s, u);
    }
  }

  /** Somebody can go on: whoever is in a call and cannot, there is a fiber whose next turn
      completes what it has to do, or, while somebody waits, one that has the mutex and runs. */
  lemma SomeoneProgresses(n: nat, turns: seq<Turn>, t: Tid) returns (u: Tid)
    requires t < n && Run(n, turns).pcs[t] != Outside && Run(n, turns).pcs[t] != Holding
    ensures u < n
    ensures
      var s := Run(n, turns);
      s.pcs[u].Giving? || s.pcs[u].Waking? || (s.pcs[t] == Parked && !s.destroyed && s.pcs[u] == Holding)
    ensures forall op :: Step(Run(n, turns), u, op) != Run(n, turns)
  {
    RunInv(n, turns);
    var s := Run(n, turns);
    assert if s.destroyed then AfterOk(s, t) else FiberOk(s, t);
    u := t;
    if s.pcs[t].Coming? {
      u := s.pcs[t].giver;
    } else if s.pcs[t] == Parked {
      var owner := if s.destroyed then s.destroyer else s.arrived[s.granted - 1];
      assert !s.destroyed ==> FiberOk(s, owner);
      u := if s.pcs[owner].Coming? then s.pcs[owner].giver else owner;
    }
    assert if s.destroyed then AfterOk(s, u) else FiberOk(s, u);
    forall op
      ensures Step(s, u, op) != s
    {
      assert Step(s, u, op).pcs[u] != s.pcs[u];
    }
  }

  lemma {:induction false} ArrivedGrows(n: nat, turns: seq<Turn>, more: seq<Turn>)
    ensures Run(n, turns).arrived <= Run(n, turns + more).arrived
  {
    if more == [] {
      assert turns + more == turns;
    } else {
      var m := |more| - 1;
      ArrivedGrows(n, turns, more[..m]);
      assert turns + more == turns + more[..m] + [more[m]];
      RunOn(n, turns + more[..m], more[m]);
    }
  }

  /** Who waits behind `i` others is the one that holds the mutex when `i + 1` more calls have
      been granted, whoever else comes in between. */
  lemma ServedInTurn(n: nat, turns: seq<Turn>, more: seq<Turn>, i: nat)
    requires !Run(n, turns).destroyed && !Run(n, turns + more).destroyed && i < |Run(n, turns).list|
    requires Run(n, turns + more).granted == Run(n, turns).granted + i + 1 && Run(n, turns + more).hold
    ensures Owns(Run(n, turns + more), Run(n, turns).list[i])
  {
    OneOwnerInOrder(n, turns);
    OneOwnerInOrder(n, turns + more);
    ArrivedGrows(n, turns, more);
  }

  // ------------------------------------------------------------ in place

  class FiberMutex {
    var hold: bool
    var list: seq<Tid>
    var destroyed: bool
    var pcs: seq<Pc>
    ghost var arrived: seq<Tid>
    ghost var granted: nat
    ghost var destroyer: Tid
    ghost var stranded: seq<Tid>

    ghost function Value(): State
      reads this
    {
      State(pcs, hold, list, arrived, granted, destroyed, destroyer, stranded)
    }

    /** One owner until the destroy, and the list is the fibers that wait, in order. */
    ghost predicate Valid()
      reads this
    {
      Inv(Value())
    }

    constructor (n: nat)
      ensures Valid() && Value() == Init(n)
    {
      hold, list, destroyed, pcs := false, [], false, seq(n, i => Outside);
      arrived, granted, destroyer, stranded := [], 0, 0, [];
      new;
      hide Inv;
      InitInv(n);
    }

    /** The locked region of lock: `t` owns the mutex at once, exactly if nobody does. */
    method Lock(t: Tid) returns (parked: bool)
      requires Valid() && t < |pcs| && pcs[t] == Outside && !destroyed
      modifies this
      ensures Valid() && Value() == LockCall(old(Value()), t)
      ensures parked <==> exists u :: old(Owns(Value(), u))
      ensures if parked then pcs[t] == Parked && list == old(list) + [t] else Owns(Value(), t)
    {
      LockInv(Value(), t);
      assert hold <==> exists u :: Owns(Value(), u) by {
        if hold {
          assert Owns(Value(), arrived[granted - 1]);
        } else {
          forall u: Tid
            ensures !Owns(Value(), u)
          {
            assert FiberOk(Value(), u);
          }
        }
      }
      hide FiberOk, WaiterAt, AfterOk;
      parked := hold;
      if !hold {
        hold := true;
        granted := granted + 1;
      } else {
        list := list + [t];
      }
      pcs, arrived := pcs[t := if parked then Parked else Holding], arrived + [t];
    }

    /** The locked region of unlock: whom to enqueue, who is the owner now, if anybody waits. */
    method Unlock(t: Tid) returns (next: seq<Tid>)
      requires Valid() && t < |pcs| && pcs[t] == Holding && !destroyed
      modifies this
      ensures Valid() && Value() == UnlockCall(old(Value()), t)
      ensures next == if old(list) == [] then [] else [old(list)[0]]
      ensures !Owns(Value(), t) && forall u: Tid :: Owns(Value(), u) <==> u in next
    {
      ghost var s := Value();
      UnlockInv(s, t);
      UnlockMakesOwner(s, t);
      assert WaiterAt(s, 0) && FiberOk(s, t);
      hide FiberOk, WaiterAt, AfterOk;
      if list == [] {
        hold, next := false, [];
        pcs := pcs[t := Outside];
      } else {
        next := [list[0]];
        list := list[1..];
        pcs, granted := pcs[next[0] := Coming(t)][t := Giving(next[0])], granted + 1;
      }
    }

    /** The locked region of destroy: whom to enqueue, which is everybody who waits. */
    method Close(t: Tid) returns (items: seq<Tid>)
      requires Valid() && t < |pcs| && pcs[t] == Outside && !destroyed
      modifies this
      ensures Valid() && Value() == DestroyCall(old(Value()), t)
      ensures items == old(list) && list == [] && pcs[t] == Waking(items)
      ensures forall u: Tid :: u < |pcs| ==> (pcs[u] == Parked <==> u in items)
    {
      DestroyInv(Value(), t);
      DestroyTakesWaiters(Value(), t);
      hide FiberOk, WaiterAt, AfterOk;
      items := [];
      if hold && list != [] {
        items, list := list, [];
      }
      pcs, destroyed, destroyer, stranded := pcs[t := Waking(items)], true, t, items;
    }

    /** The next region of fiber `t`, or the enqueueing after one. */
    method Advance(t: Tid, op: Op)
      requires Valid()
      modifies this
      ensures Valid() && Value() == Step(old(Value()), t, op)
    {
      StepInv(Value(), t, op);
      hide Valid, LockCall, UnlockCall, DestroyCall;
      if t < |pcs| {
        match pcs[t]
        case Outside =>
          if !destroyed {
            if op == Op.Lock {
              var parked := Lock(t);
            } else {
              var items := Close(t);
            }
          }
        case Holding =>
          if !destroyed {
            var next := Unlock(t);
          }
        case Giving(f) =>
          if f < |pcs| {
            pcs := pcs[f := Holding][t := Outside];
          }
        case Waking(items) =>
          var was := pcs;
          pcs := seq(|was|, u requires 0 <= u < |was| => if u in items then Holding else was[u]);
          pcs := pcs[t := Outside];
          assert pcs == WakeAll(old(Value()), t, items).pcs;
        case _ =>
      }
    }

    /** Any turns of any fibers, from the start: what is proved of all runs holds here. */
    method Execute(turns: seq<Turn>)
      requires Valid() && Value() == Init(|pcs|)
      modifies this
      ensures Valid() && Value() == Run(old(|pcs|), turns)
    {
      hide Valid, Init, Step;
      for i := 0 to |turns|
        invariant Valid() && Value() == Run(old(|pcs|), turns[..i])
      {
        assert turns[..i + 1][..i] == turns[..i];
        Advance(turns[i].fiber, turns[i].op);
      }
      assert turns[..|turns|] == turns;
    }
  }

  lemma UnlockMakesOwner(s: State, t: Tid)
    requires Inv(s) && !s.destroyed && t < |s.pcs| && s.pcs[t] == Holding
    ensures forall u: Tid :: Owns(UnlockCall(s, t), u) <==> s.list != [] && u == s.list[0]
  {
    UnlockInv(s, t);
    forall u: Tid
      ensures Owns(UnlockCall(s, t), u) <==> s.list != [] && u == s.list[0]
    {
      assert FiberOk(UnlockCall(s, t), u) && FiberOk(s, t) && WaiterAt(s, 0);
    }
  }

  lemma DestroyTakesWaiters(s: State, t: Tid)
    requires Inv(s) && !s.destroyed && t < |s.pcs| && s.pcs[t] == Outside
    ensures forall u: Tid :: u < |s.pcs| ==> (DestroyCall(s, t).pcs[u] == Parked <==> u in s.list)
    ensures s.hold || s.list == []
  {
    DestroyInv(s, t);
    forall u: Tid | u < |s.pcs|
      ensures DestroyCall(s, t).pcs[u] == Parked <==> u in s.list
    {
      assert AfterOk(DestroyCall(s, t), u);
    }
  }
}
