/**
 The reader/writer lock made of a mutex and a condition variable (src/std-thread.c:40-74):
 a state machine over its locked regions, any number of threads.
 */
module RwLock {

  /** What a thread is doing with the lock; waiting is being asleep on the condition. */
  datatype Pc = Outside | ReadWait | Reading | WriteWait | Writing

  /** `awoken` are the threads that a broadcast, or a spurious wakeup, has taken off the
      condition and that have not got the mutex yet. */
  datatype State = State(pcs: seq<Pc>, awoken: set<nat>, waited: int, reading: int, onWrite: bool)

  function Init(n: nat): State {
    State(seq(n, i => Outside), {}, 0, 0, false)
  }

  /** One pass through the loop of lockr: in, or asleep on the condition. */
  function TryRead(s: State, t: nat): State
    requires t < |s.pcs|
  {
    if s.waited > 0 || s.onWrite then s.(pcs := s.pcs[t := ReadWait], awoken := s.awoken - {t})
    else s.(pcs := s.pcs[t := Reading], awoken := s.awoken - {t}, reading := s.reading + 1)
  }

  /** One pass through the loop of lockw. */
  function TryWrite(s: State, t: nat): State
    requires t < |s.pcs|
  {
    if s.reading > 0 || s.onWrite then s.(pcs := s.pcs[t := WriteWait], awoken := s.awoken - {t})
    else s.(pcs := s.pcs[t := Writing], awoken := s.awoken - {t}, waited := s.waited - 1, onWrite := true)
  }

  predicate Asleep(s: State, t: nat) {
    t < |s.pcs| && (s.pcs[t] == ReadWait || s.pcs[t] == WriteWait) && t !in s.awoken
  }

  /** cnd_broadcast */
  function Broadcast(s: State): State {
    s.(awoken := set t: nat | t < |s.pcs| && (s.pcs[t] == ReadWait || s.pcs[t] == WriteWait))
  }

  function UnlockRead(s: State, t: nat): State
    requires t < |s.pcs|
  {
    var u := s.(pcs := s.pcs[t := Outside], reading := s.reading - 1);
    if u.reading == 0 then Broadcast(u) else u
  }

  function UnlockWrite(s: State, t: nat): State
    requires t < |s.pcs|
  {
    Broadcast(s.(pcs := s.pcs[t := Outside], onWrite := false))
  }

  /** A locked region of thread `t`: from outside it asks for the lock (`write` says how),
      asleep or awoken it tries again, inside it unlocks. */
  function Step(s: State, t: nat, write: bool): State {
    if t >= |s.pcs| then s else
    match s.pcs[t]
    case Outside => if write then TryWrite(s.(waited := s.waited + 1), t) else TryRead(s, t)
    case ReadWait => TryRead(s, t)
    case WriteWait => TryWrite(s, t)
    case Reading => UnlockRead(s, t)
    case Writing => UnlockWrite(s, t)
  }

  datatype Turn = Turn(thread: nat, write: bool)

  function Run(n: nat, turns: seq<Turn>): State {
    if turns == [] then Init(n)
    else
      var last := turns[|turns| - 1];
      Step(Run(n, turns[..|turns| - 1]), last.thread, last.write)
  }

  // ------------------------------------------------------------ the counters count

  ghost function Count(s: State, p: Pc): nat {
    multiset(s.pcs)[p]
  }

  /** Whoever sleeps un-awoken still has a reason to. */
  ghost predicate SleepOk(s: State, t: nat) {
    Asleep(s, t) ==> s.onWrite || if s.pcs[t] == ReadWait then s.waited > 0 else s.reading > 0
  }

  ghost predicate Inv(s: State) {
    && s.reading == Count(s, Reading)
    && s.waited == Count(s, WriteWait)
    && Count(s, Writing) == (if s.onWrite then 1 else 0)
    && (s.onWrite ==> s.reading == 0)
    && forall t :: SleepOk(s, t)
  }

  lemma Moves(pcs: seq<Pc>, t: nat, p: Pc)
    requires t < |pcs|
    ensures multiset(pcs[t := p]) == multiset(pcs)[pcs[t] := multiset(pcs)[pcs[t]] - 1] + multiset{p}
    ensures multiset(pcs)[pcs[t]] > 0
  {
    assert pcs[t] in pcs;
    assert pcs == pcs[..t] + [pcs[t]] + pcs[t + 1..];
    assert pcs[t := p] == pcs[..t] + [p] + pcs[t + 1..];
  }

  lemma TryReadInv(s: State, t: nat)
    requires Inv(s) && t < |s.pcs| && (s.pcs[t] == Outside || s.pcs[t] == ReadWait)
    ensures Inv(TryRead(s, t))
  {
    Moves(s.pcs, t, TryRead(s, t).pcs[t]);
    forall u: nat
      ensures SleepOk(TryRead(s, t), u)
    {
      assert SleepOk(s, u);
    }
  }

  lemma AskWriteInv(s: State, t: nat)
    requires Inv(s) && t < |s.pcs| && s.pcs[t] == Outside
    ensures Inv(TryWrite(s.(waited := s.waited + 1), t))
  {
    var s' := TryWrite(s.(waited := s.waited + 1), t);
    Moves(s.pcs, t, s'.pcs[t]);
    forall u: nat
      ensures SleepOk(s', u)
    {
      assert SleepOk(s, u);
    }
  }

  lemma RetryWriteInv(s: State, t: nat)
    requires Inv(s) && t < |s.pcs| && s.pcs[t] == WriteWait
    ensures Inv(TryWrite(s, t))
  {
    Moves(s.pcs, t, TryWrite(s, t).pcs[t]);
    forall u: nat
      ensures SleepOk(TryWrite(s, t), u)
    {
      assert SleepOk(s, u);
    }
  }

  lemma UnlockReadInv(s: State, t: nat)
    requires Inv(s) && t < |s.pcs| && s.pcs[t] == Reading
    ensures Inv(UnlockRead(s, t))
  {
    Moves(s.pcs, t, Outside);
    forall u: nat
      ensures SleepOk(UnlockRead(s, t), u)
    {
      assert SleepOk(s, u);
    }
  }

  lemma UnlockWriteInv(s: State, t: nat)
    requires Inv(s) && t < |s.pcs| && s.pcs[t] == Writing
    ensures Inv(UnlockWrite(s, t))
  {
    Moves(s.pcs, t, Outside);
    forall u: nat
      ensures SleepOk(UnlockWrite(s, t), u)
    {}
  }

  lemma StepInv(s: State, t: nat, write: bool)
    requires Inv(s)
    ensures Inv(Step(s, t, write)) && |Step(s, t, write).pcs| == |s.pcs|
  {
    if t < |s.pcs| {
      match s.pcs[t]
      case Outside => if write { AskWriteInv(s, t); } else { TryReadInv(s, t); }
      case ReadWait => TryReadInv(s, t);
      case WriteWait => RetryWriteInv(s, t);
      case Reading => UnlockReadInv(s, t);
      case Writing => UnlockWriteInv(s, t);
    }
  }

  lemma {:induction false} RunInv(n: nat, turns: seq<Turn>)
    ensures Inv(Run(n, turns)) && |Run(n, turns).pcs| == n
  {
    if turns == [] {
      assert forall p :: p in multiset(Init(n).pcs) ==> p == Outside;
    } else {
      var last := turns[|turns| - 1];
      RunInv(n, turns[..|turns| - 1]);
      StepInv(Run(n, turns[..|turns| - 1]), last.thread, last.write);
    }
  }

  // ------------------------------------------------------------ theorems over every run

  predicate At(s: State, t: nat, p: Pc) {
    t < |s.pcs| && s.pcs[t] == p
  }

  lemma Counted(s: State, t: nat, p: Pc)
    requires At(s, t, p)
    ensures Count(s, p) > 0
  {
    assert s.pcs[t] in multiset(s.pcs);
  }

  lemma CountedTwice(s: State, t: nat, u: nat, p: Pc)
    requires At(s, t, p) && At(s, u, p) && t != u
    ensures Count(s, p) > 1
  {
    var r := s.(pcs := s.pcs[t := if p == Outside then Reading else Outside]);
    Moves(s.pcs, t, r.pcs[t]);
    Counted(r, u, p);
  }

  /** Never a writer together with a reader or with another writer. */
  lemma Exclusion(n: nat, turns: seq<Turn>, t: nat, u: nat)
    requires At(Run(n, turns), t, Writing)
    ensures !At(Run(n, turns), u, Reading)
    ensures At(Run(n, turns), u, Writing) ==> t == u
  {
    RunInv(n, turns);
    var s := Run(n, turns);
    Counted(s, t, Writing);
    if At(s, u, Reading) {
      Counted(s, u, Reading);
    }
    if At(s, u, Writing) && t != u {
      CountedTwice(s, t, u, Writing);
    }
  }

  /** The counters and the flag say who is in and how many writers wait. */
  lemma CountersAreExact(n: nat, turns: seq<Turn>)
    ensures
      var s := Run(n, turns);
      s.reading == Count(s, Reading) && s.waited == Count(s, WriteWait) && (s.onWrite <==> Count(s, Writing) > 0)
  {
    RunInv(n, turns);
  }

  /** A thread starts reading only in a step where no writer waits or writes. */
  lemma WritersGoFirst(n: nat, turns: seq<Turn>, t: nat, write: bool, u: nat)
    requires !At(Run(n, turns), t, Reading) && At(Step(Run(n, turns), t, write), t, Reading)
    ensures !At(Run(n, turns), u, WriteWait) && !At(Run(n, turns), u, Writing)
  {
    RunInv(n, turns);
    var s := Run(n, turns);
    if At(s, u, WriteWait) {
      Counted(s, u, WriteWait);
    }
    if At(s, u, Writing) {
      Counted(s, u, Writing);
    }
  }

  /** Whoever is asleep and was not awoken has a true wait guard: a reader, that a writer
      waits or writes; a writer, that somebody reads or writes. */
  lemma SleepersHaveAReason(n: nat, turns: seq<Turn>, t: nat)
    requires Asleep(Run(n, turns), t)
    ensures
      var s := Run(n, turns);
      && (At(s, t, ReadWait) ==> s.waited > 0 || s.onWrite)
      && (At(s, t, WriteWait) ==> s.reading > 0 || s.onWrite)
  {
    RunInv(n, turns);
    assert SleepOk(Run(n, turns), t);
  }

  lemma SomeoneAt(s: State, p: Pc) returns (t: nat)
    requires Count(s, p) > 0
    ensures At(s, t, p)
  {
    assert p in multiset(s.pcs);
    t :| t < |s.pcs| && s.pcs[t] == p;
  }

  /** No lost wakeup: if somebody is asleep and nobody has been awoken, somebody holds the
      lock and will broadcast. */
  lemma SleepersHaveAHolder(n: nat, turns: seq<Turn>, t: nat) returns (holder: nat)
    requires Asleep(Run(n, turns), t) && Run(n, turns).awoken == {}
    ensures At(Run(n, turns), holder, Reading) || At(Run(n, turns), holder, Writing)
  {
    RunInv(n, turns);
    var s := Run(n, turns);
    assert SleepOk(s, t);
    if !s.onWrite && s.pcs[t] == ReadWait {
      var w := SomeoneAt(s, WriteWait);
      assert SleepOk(s, w);
    }
    holder := SomeoneAt(s, if s.onWrite then Writing else Reading);
  }

  /** What unlocking gives to those asleep: the last reader and every writer awake them all. */
  lemma UnlockAwakensAll(n: nat, turns: seq<Turn>, t: nat, write: bool, u: nat)
    requires At(Run(n, turns), t, Writing) || (At(Run(n, turns), t, Reading) && Run(n, turns).reading == 1)
    ensures !Asleep(Step(Run(n, turns), t, write), u)
  {}

  /** Some thread is at `p`. */
  ghost predicate Anybody(s: State, p: Pc) {
    exists t: nat :: At(s, t, p)
  }

  lemma AnybodyCounts(s: State, p: Pc)
    ensures Anybody(s, p) <==> Count(s, p) > 0
  {
    if t: nat :| At(s, t, p) {
      Counted(s, t, p);
    }
    if Count(s, p) > 0 {
      var t := SomeoneAt(s, p);
    }
  }

  /** What a turn of thread `t` does where the answers to the three questions are these. */
  predicate Acts(s: State, s': State, t: nat, write: bool, reading: bool, waiting: bool, writing: bool) {
    && t < |s.pcs| == |s'.pcs| && (forall u :: 0 <= u < |s.pcs| ==> u != t ==> s'.pcs[u] == s.pcs[u])
    && if s.pcs[t] == ReadWait || (s.pcs[t] == Outside && !write) then
         if waiting || writing then s'.pcs[t] == ReadWait && Asleep(s', t) else s'.pcs[t] == Reading
       else if s.pcs[t] == WriteWait || s.pcs[t] == Outside then
         if reading || writing then s'.pcs[t] == WriteWait && Asleep(s', t) else s'.pcs[t] == Writing
       else s'.pcs[t] == Outside
  }

  lemma StepActs(s: State, t: nat, write: bool)
    requires t < |s.pcs|
    ensures Acts(s, Step(s, t, write), t, write, s.reading > 0, s.waited > 0, s.onWrite)
  {}

  /** What the next turn of a thread does: who asks or waits to read is in exactly if nobody
      waits to write or writes, who asks or waits to write exactly if nobody reads or writes, and
      is asleep if not; who is in comes out.  Nobody else moves. */
  lemma EveryTurnActs(n: nat, turns: seq<Turn>, t: nat, write: bool)
    requires t < |Run(n, turns).pcs|
    ensures
      var s, s' := Run(n, turns), Run(n, turns + [Turn(t, write)]);
      Acts(s, s', t, write, Anybody(s, Reading), Anybody(s, WriteWait), Anybody(s, Writing))
  {
    RunInv(n, turns);
    var s := Run(n, turns);
    assert (turns + [Turn(t, write)])[..|turns|] == turns;
    AnybodyCounts(s, WriteWait);
    AnybodyCounts(s, Writing);
    AnybodyCounts(s, Reading);
    StepActs(s, t, write);
    hide Count, Anybody, Acts, Step;
  }

  /** Somebody gets in: when nobody holds the lock and somebody waits, there is a waiting
      thread, awoken already, whose next turn brings it in. */
  lemma FreeLockIsTaken(n: nat, turns: seq<Turn>, t: nat) returns (u: nat)
    requires At(Run(n, turns), t, ReadWait) || At(Run(n, turns), t, WriteWait)
    requires !Anybody(Run(n, turns), Reading) && !Anybody(Run(n, turns), Writing)
    ensures u < |Run(n, turns).pcs| && !Asleep(Run(n, turns), u)
    ensures
      var s, s' := Run(n, turns), Run(n, turns + [Turn(u, At(Run(n, turns), u, WriteWait))]);
      (At(s, u, ReadWait) && At(s', u, Reading)) || (At(s, u, WriteWait) && At(s', u, Writing))
  {
    RunInv(n, turns);
    var s := Run(n, turns);
    AnybodyCounts(s, WriteWait);
    AnybodyCounts(s, Reading);
    AnybodyCounts(s, Writing);
    u := t;
    if Count(s, WriteWait) > 0 {
      u := SomeoneAt(s, WriteWait);
    }
    assert SleepOk(s, u);
    EveryTurnActs(n, turns, u, At(s, u, WriteWait));
  }

  // ------------------------------------------------------------ in place

  /** The lock's fields, with what its threads are doing as a ghost. */
  class Lock {
    var waited: int
    var reading: int
    var onWrite: bool
    var pcs: seq<Pc>
    ghost var awoken: set<nat>

    ghost function Value(): State
      reads this
    {
      State(pcs, awoken, waited, reading, onWrite)
    }

    /** The counters count, a writer is alone, and no sleeper is forgotten. */
    ghost predicate Valid()
      reads this
    {
      Inv(Value())
    }

    constructor (n: nat)
      ensures Valid() && Value() == Init(n)
    {
      waited, reading, onWrite := 0, 0, false;
      pcs, awoken := seq(n, i => Outside), {};
      new;
      RunInv(n, []);
    }

    /** One pass through the loop of lockr: in, exactly if no writer waits or writes. */
    method Read(t: nat) returns (entered: bool)
      requires Valid() && (At(Value(), t, Outside) || At(Value(), t, ReadWait))
      modifies this
      ensures Valid() && Value() == TryRead(old(Value()), t)
      ensures entered <==> old(Count(Value(), WriteWait)) == 0 && old(Count(Value(), Writing)) == 0
      ensures At(Value(), t, if entered then Reading else ReadWait)
    {
      TryReadInv(Value(), t);
      hide Count;
      entered := !(waited > 0 || onWrite);
      if entered {
        reading := reading + 1;
      }
      pcs, awoken := pcs[t := if entered then Reading else ReadWait], awoken - {t};
    }

    /** unlockr: the reader leaves, and when it was the last nobody sleeps any more. */
    method DoneReading(t: nat)
      requires Valid() && At(Value(), t, Reading)
      modifies this
      ensures Valid() && Value() == UnlockRead(old(Value()), t)
      ensures reading == old(reading) - 1 && waited == old(waited) && !onWrite && !old(onWrite)
      ensures At(Value(), t, Outside) && forall u: nat :: u != t ==> u < |pcs| ==> pcs[u] == old(pcs)[u]
      ensures reading == 0 ==> forall u: nat :: !Asleep(Value(), u)
    {
      UnlockReadInv(Value(), t);
      Counted(Value(), t, Reading);
      hide Count;
      reading := reading - 1;
      pcs := pcs[t := Outside];
      if reading == 0 {
        awoken := Broadcast(Value()).awoken;
      }
    }

    /** One pass through the loop of lockw: in, exactly if nobody reads or writes. */
    method Write(t: nat, again: bool) returns (entered: bool)
      requires Valid() && At(Value(), t, if again then WriteWait else Outside)
      modifies this
      ensures Valid() && Value() == Step(old(Value()), t, true)
      ensures entered <==> old(Count(Value(), Reading)) == 0 && old(Count(Value(), Writing)) == 0
      ensures At(Value(), t, if entered then Writing else WriteWait)
    {
      StepInv(Value(), t, true);
      hide Count;
      if !again {
        waited := waited + 1;
      }
      entered := !(reading > 0 || onWrite);
      if entered {
        waited := waited - 1;
        onWrite := true;
      }
      pcs, awoken := pcs[t := if entered then Writing else WriteWait], awoken - {t};
    }

    /** unlockw: the writer leaves, the lock is free, and nobody sleeps any more. */
    method DoneWriting(t: nat)
      requires Valid() && At(Value(), t, Writing)
      modifies this
      ensures Valid() && Value() == UnlockWrite(old(Value()), t)
      ensures reading == old(reading) == 0 && waited == old(waited) && !onWrite && old(onWrite)
      ensures At(Value(), t, Outside) && forall u: nat :: u != t ==> u < |pcs| ==> pcs[u] == old(pcs)[u]
      ensures forall u: nat :: !Asleep(Value(), u)
    {
      UnlockWriteInv(Value(), t);
      Counted(Value(), t, Writing);
      hide Count;
      onWrite := false;
      pcs := pcs[t := Outside];
      awoken := Broadcast(Value()).awoken;
    }

    /** The next locked region of thread `t`, as the code has it. */
    method Advance(t: nat, write: bool)
      requires Valid()
      modifies this
      ensures Valid() && Value() == Step(old(Value()), t, write)
    {
      hide Valid, TryRead, UnlockRead, UnlockWrite;
      if t < |pcs| {
        match pcs[t]
        case Outside =>
          if write {
            var entered := Write(t, false);
          } else {
            var entered := Read(t);
          }
        case ReadWait =>
          var entered := Read(t);
        case WriteWait =>
          var entered := Write(t, true);
        case Reading => DoneReading(t);
        case Writing => DoneWriting(t);
      }
    }

    /** Any turns of any threads, from the start: what is proved of all runs holds here. */
    method Execute(turns: seq<Turn>)
      requires Valid() && Value() == Init(|pcs|)
      modifies this
      ensures Valid() && Value() == Run(old(|pcs|), turns)
    {
      hide Valid, Init, Step;
      for i := 0 to |turns|
        invariant Valid() && Value() == Run(old(|pcs|), turns[..i])
      {
        assert turns[..i + 1][..i] == turns[..i];
        Advance(turns[i].thread, turns[i].write);
      }
      assert turns[..|turns|] == turns;
    }
  }
}
