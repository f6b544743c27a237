/**
 The counting semaphore of threads made of a mutex and a condition variable
 (src/std-thread.c:81-101): a state machine over its locked regions, any number of threads.
 The count is an unsigned int and wraps around.
 */
module ThreadSemaphore {

  const WRAP: int := 0x1_0000_0000

  datatype Pc = Outside | Waiting

  /** `awoken` are the waiting threads that a signal, or a spurious wakeup, has taken off the
      condition and that have not got the mutex yet.  History: `signals`, `grants`, and the
      calls to wait that have `begun`. */
  datatype State = State(pcs: seq<Pc>, awoken: set<nat>, count: int, signals: nat, grants: nat, begun: nat)

  function Init(n: nat, count: int): State {
    State(seq(n, i => Outside), {}, count, 0, 0, 0)
  }

  predicate Asleep(s: State, t: nat) {
    t < |s.pcs| && s.pcs[t] == Waiting && t !in s.awoken
  }

  /** The calls to wait when thread `t` is about to make a pass: one more if it begins one. */
  function Begun(s: State, t: nat): nat {
    if t < |s.pcs| && s.pcs[t] == Outside then s.begun + 1 else s.begun
  }

  /** One pass through the loop of wait: through, or asleep on the condition. */
  function TryWait(s: State, t: nat): State
    requires t < |s.pcs|
  {
    if s.count == 0 then s.(pcs := s.pcs[t := Waiting], awoken := s.awoken - {t}, begun := Begun(s, t))
    else s.(pcs := s.pcs[t := Outside], awoken := s.awoken - {t}, begun := Begun(s, t),
            count := s.count - 1, grants := s.grants + 1)
  }

  /** signal: cnd_signal awakes `chosen`, somebody who is asleep, or nobody if nobody is. */
  function Signal(s: State, chosen: nat): State {
    var u := s.(count := (s.count + 1) % WRAP, signals := s.signals + 1);
    if Asleep(s, chosen) then u.(awoken := u.awoken + {chosen}) else u
  }

  datatype Turn = Wait(thread: nat) | Awake(thread: nat) | Post(chosen: nat)

  /** A signal may choose whom to awake, but not to awake nobody while somebody is asleep.  A
      waiting thread may awake at any time. */
  predicate Allowed(s: State, turn: Turn) {
    match turn
    case Wait(t) => t < |s.pcs| && s.pcs[t] == Outside
    case Awake(t) => t < |s.pcs| && s.pcs[t] == Waiting
    case Post(c) => Asleep(s, c) || forall t :: 0 <= t < |s.pcs| ==> !Asleep(s, t)
  }

  function Step(s: State, turn: Turn): State {
    if !Allowed(s, turn) then s else
    match turn
    case Wait(t) => TryWait(s, t)
    case Awake(t) => TryWait(s, t)
    case Post(c) => Signal(s, c)
  }

  function Run(n: nat, count: int, turns: seq<Turn>): State {
    if turns == [] then Init(n, count)
    else Step(Run(n, count, turns[..|turns| - 1]), turns[|turns| - 1])
  }

  /** The threads in a call to wait. */
  function Waiters(pcs: seq<Pc>): set<nat> {
    set t: nat | t < |pcs| && pcs[t] == Waiting
  }

  /** On 32 bits the count is what was there and was signalled less what was granted. */
  predicate Balanced(s: State, initial: int) {
    (initial + s.signals - s.grants - s.count) % WRAP == 0
  }

  ghost predicate Inv(s: State, initial: int) {
    && s.begun == s.grants + |Waiters(s.pcs)| && 0 <= s.count < WRAP && Balanced(s, initial)
    && (forall t :: t in s.awoken ==> t < |s.pcs| && s.pcs[t] == Waiting)
    && ((exists t: nat :: Asleep(s, t)) ==> s.count <= |s.awoken|)
  }

  lemma WaitersAfter(pcs: seq<Pc>, t: nat, pc: Pc)
    requires t < |pcs|
    ensures |Waiters(pcs[t := pc])| == |Waiters(pcs)| + (if pc == Waiting then 1 else 0) - (if pcs[t] == Waiting then 1 else 0)
  {
    var ws := Waiters(pcs) - {t};
    assert Waiters(pcs) == if pcs[t] == Waiting then ws + {t} else ws;
    assert Waiters(pcs[t := pc]) == if pc == Waiting then ws + {t} else ws;
  }

  lemma TryWaitBalanced(s: State, t: nat, initial: int)
    requires Balanced(s, initial) && t < |s.pcs|
    ensures Balanced(TryWait(s, t), initial)
  {}

  lemma SignalBalanced(s: State, c: nat, initial: int)
    requires Balanced(s, initial) && 0 <= s.count < WRAP
    ensures Balanced(Signal(s, c), initial) && 0 <= Signal(s, c).count < WRAP
  {
    hide Asleep;
  }

  lemma TryWaitInv(s: State, t: nat, initial: int)
    requires Inv(s, initial) && t < |s.pcs|
    ensures Inv(TryWait(s, t), initial)
  {
    var s' := TryWait(s, t);
    WaitersAfter(s.pcs, t, if s.count == 0 then Waiting else Outside);
    TryWaitBalanced(s, t, initial);
    hide Waiters, Balanced;
    if s.count > 0 {
      if u: nat :| Asleep(s', u) {
        assert Asleep(s, u);
      }
    }
  }

  lemma SignalInv(s: State, c: nat, initial: int)
    requires Inv(s, initial) && Allowed(s, Turn.Post(c))
    ensures Inv(Signal(s, c), initial)
  {
    SignalBalanced(s, c, initial);
    hide Waiters, Balanced;
    var s' := Signal(s, c);
    if u: nat :| Asleep(s', u) {
      assert Asleep(s, u);
    }
  }

  lemma {:induction false} RunInv(n: nat, count: int, turns: seq<Turn>)
    requires 0 <= count < WRAP
    ensures Inv(Run(n, count, turns), count)
  {
    assert Waiters(Init(n, count).pcs) == {};
    hide Waiters;
    if turns != [] {
      var s, turn := Run(n, count, turns[..|turns| - 1]), turns[|turns| - 1];
      RunInv(n, count, turns[..|turns| - 1]);
      if Allowed(s, turn) {
        match turn
        case Wait(t) => TryWaitInv(s, t, count);
        case Awake(t) => TryWaitInv(s, t, count);
        case Post(c) => SignalInv(s, c, count);
      }
    }
  }

  // ------------------------------------------------------------ theorems over every run

  /** No lost wakeup: while somebody sleeps, there are at least as many awoken threads as units
      to take, whoever barges in between. */
  lemma UnitsHaveTakers(n: nat, count: int, turns: seq<Turn>, t: nat)
    requires 0 <= count < WRAP && Asleep(Run(n, count, turns), t)
    ensures Run(n, count, turns).count <= |Run(n, count, turns).awoken|
    ensures forall u :: u in Run(n, count, turns).awoken ==>
              u < |Run(n, count, turns).pcs| && Run(n, count, turns).pcs[u] == Waiting
  {
    RunInv(n, count, turns);
  }

  /** The count is the initial value and the signals less the grants, on 32 bits; short of
      2^32 units it is exactly that. */
  lemma UnitsAreConserved(n: nat, count: int, turns: seq<Turn>)
    requires 0 <= count < WRAP
    ensures
      var s := Run(n, count, turns);
      && s.count == (count + s.signals - s.grants) % WRAP
      && (count + |turns| < WRAP ==> s.count == count + s.signals - s.grants)
  {
    hide *;
    RunInv(n, count, turns);
    CountModulo(Run(n, count, turns), count);
    if count + |turns| < WRAP {
      NoWrap(n, count, turns);
    }
  }

  lemma CountModulo(s: State, initial: int)
    requires Inv(s, initial)
    ensures s.count == (initial + s.signals - s.grants) % WRAP
  {
    ModIs(initial + s.signals - s.grants, s.count);
  }

  lemma ModIs(d: int, r: int)
    requires 0 <= r < WRAP && (d - r) % WRAP == 0
    ensures r == d % WRAP
  {
    assert d == (d - r) / WRAP * WRAP + r;
  }

  lemma {:induction false} NoWrap(n: nat, count: int, turns: seq<Turn>)
    requires 0 <= count && count + |turns| < WRAP
    ensures
      var s := Run(n, count, turns);
      s.signals <= |turns| && s.grants <= count + s.signals && s.count == count + s.signals - s.grants
  {
    if turns != [] {
      NoWrap(n, count, turns[..|turns| - 1]);
    }
  }

  /** Nobody comes out of a wait without a unit: the calls begun are the units granted and the
      threads still waiting. */
  lemma NobodyPassesWithoutAUnit(n: nat, count: int, turns: seq<Turn>)
    requires 0 <= count < WRAP
    ensures
      var s := Run(n, count, turns);
      s.begun == s.grants + |Waiters(s.pcs)| && forall t :: t in Waiters(s.pcs) <==> 0 <= t < |s.pcs| && s.pcs[t] == Waiting
  {
    RunInv(n, count, turns);
  }

  /** A call that begins is one more call, and is over at once exactly if there is a unit. */
  lemma WaitBegins(n: nat, count: int, turns: seq<Turn>, t: nat)
    requires 0 <= count < WRAP && t < |Run(n, count, turns).pcs| && Run(n, count, turns).pcs[t] == Outside
    ensures
      var s, s' := Run(n, count, turns), Run(n, count, turns + [Turn.Wait(t)]);
      && s'.begun == s.begun + 1
      && if s.count > 0 then s'.pcs == s.pcs && s'.grants == s.grants + 1 && s'.count == s.count - 1
         else Asleep(s', t) && s'.grants == s.grants && s'.count == s.count
  {
    RunInv(n, count, turns);
    assert (turns + [Turn.Wait(t)])[..|turns|] == turns;
  }

  /** A signal is one more unit, and awakes one more sleeper if there is any. */
  lemma SignalAwakens(n: nat, count: int, turns: seq<Turn>, c: nat)
    requires 0 <= count < WRAP && Allowed(Run(n, count, turns), Turn.Post(c))
    ensures
      var s, s' := Run(n, count, turns), Run(n, count, turns + [Turn.Post(c)]);
      && s'.signals == s.signals + 1 && s'.count == (s.count + 1) % WRAP && s'.pcs == s.pcs && s'.grants == s.grants
      && if forall t: nat :: !Asleep(s, t) then s'.awoken == s.awoken else c !in s.awoken && s'.awoken == s.awoken + {c}
  {
    assert (turns + [Turn.Post(c)])[..|turns|] == turns;
  }

  /** While there is a unit and anybody waits, there is an awoken thread, and its next turn
      takes a unit and comes out. */
  lemma UnitsAreTaken(n: nat, count: int, turns: seq<Turn>, t: nat) returns (u: nat)
    requires 0 <= count < WRAP && Run(n, count, turns).count > 0
    requires t < |Run(n, count, turns).pcs| && Run(n, count, turns).pcs[t] == Waiting
    ensures u in Run(n, count, turns).awoken && u < |Run(n, count, turns).pcs|
    ensures
      var s, s' := Run(n, count, turns), Run(n, count, turns + [Turn.Awake(u)]);
      s'.pcs == s.pcs[u := Outside] && s'.grants == s.grants + 1 && s'.count == s.count - 1 && s'.awoken == s.awoken - {u}
  {
    RunInv(n, count, turns);
    var s := Run(n, count, turns);
    if t in s.awoken {
      u := t;
    } else {
      assert Asleep(s, t) && s.awoken != {};
      u :| u in s.awoken;
    }
    assert (turns + [Turn.Awake(u)])[..|turns|] == turns;
  }

  // ------------------------------------------------------------ in place

  class Semaphore {
    var count: int
    var pcs: seq<Pc>
    var awoken: set<nat>
    ghost const initial: int
    ghost var signals: nat
    ghost var grants: nat
    ghost var begun: nat

    ghost function Value(): State
      reads this
    {
      State(pcs, awoken, count, signals, grants, begun)
    }

    /** The units are accounted for, and while somebody sleeps each unit has a taker. */
    ghost predicate Valid()
      reads this
    {
      Inv(Value(), initial)
    }

    constructor (count: int, n: nat)
      requires 0 <= count < WRAP
      ensures Valid() && Value() == Init(n, count) && initial == count
    {
      this.count, initial := count, count;
      pcs, awoken, signals, grants, begun := seq(n, i => Outside), {}, 0, 0, 0;
      new;
      RunInv(n, count, []);
    }

    /** One pass through the loop of wait: a unit is taken and the thread is outside, or there
        is none and the thread sleeps; nobody else moves. */
    method Wait(t: nat) returns (through: bool)
      requires Valid() && t < |pcs|
      modifies this
      ensures Valid() && Value() == TryWait(old(Value()), t)
      ensures through <==> old(count) > 0
      ensures |pcs| == old(|pcs|) && if through then pcs[t] == Outside else Asleep(Value(), t)
      ensures grants == old(grants) + (if through then 1 else 0) && signals == old(signals)
      ensures count == old(count) - (if through then 1 else 0) && begun == old(Begun(Value(), t))
      ensures forall u :: 0 <= u < |pcs| ==> u != t ==> pcs[u] == old(pcs[u]) && (u in awoken <==> u in old(awoken))
    {
      hide Waiters, Balanced;
      TryWaitInv(Value(), t, initial);
      begun := if pcs[t] == Outside then begun + 1 else begun;
      through := count != 0;
      if through {
        count := count - 1;
        grants := grants + 1;
      }
      pcs, awoken := pcs[t := if through then Outside else Waiting], awoken - {t};
    }

    /** signal: a unit more, and if anybody sleeps one sleeper, `chosen`, is awoken. */
    method Post(chosen: nat)
      requires Valid() && Allowed(Value(), Turn.Post(chosen))
      modifies this
      ensures Valid() && Value() == Signal(old(Value()), chosen)
      ensures signals == old(signals) + 1 && grants == old(grants) && pcs == old(pcs)
      ensures (exists t: nat :: old(Asleep(Value(), t))) ==> awoken == old(awoken) + {chosen} && chosen !in old(awoken)
      ensures (forall t: nat :: !old(Asleep(Value(), t))) ==> awoken == old(awoken)
    {
      hide Waiters, Balanced;
      SignalInv(Value(), chosen, initial);
      if chosen < |pcs| && pcs[chosen] == Waiting && chosen !in awoken {
        awoken := awoken + {chosen};
      }
      count := (count + 1) % WRAP;
      signals := signals + 1;
    }

    /** The next locked region of a turn, or nothing if the turn is not allowed. */
    method Advance(turn: Turn)
      requires Valid()
      modifies this
      ensures Valid() && Value() == Step(old(Value()), turn)
    {
      hide Valid, TryWait, Signal;
      match turn
      case Wait(t) =>
        if t < |pcs| && pcs[t] == Outside {
          var through := Wait(t);
        }
      case Awake(t) =>
        if t < |pcs| && pcs[t] == Waiting {
          var through := Wait(t);
        }
      case Post(c) =>
        if (c < |pcs| && pcs[c] == Waiting && c !in awoken)
          || forall t :: 0 <= t < |pcs| ==> pcs[t] != Waiting || t in awoken
        {
          Post(c);
        } else {
          ghost var t :| 0 <= t < |pcs| && pcs[t] == Waiting && t !in awoken;
          assert Asleep(Value(), t);
        }
    }

    method Execute(turns: seq<Turn>)
      requires Valid() && Value() == Init(|pcs|, initial)
      modifies this
      ensures Valid() && Value() == Run(old(|pcs|), initial, turns)
    {
      hide Valid, Init, Step;
      for i := 0 to |turns|
        invariant Valid() && Value() == Run(old(|pcs|), initial, turns[..i])
      {
        assert turns[..i + 1][..i] == turns[..i];
        Advance(turns[i]);
      }
      assert turns[..|turns|] == turns;
    }
  }
}
