/**
 The timer thread against the fibers that add themselves: the condition variable protocol of
 src/timer.c:98-197 as a state machine over its locked regions, and what sleepers get from it.
 The clock may show any time at any reading.
 */
module TimerThread {
  import opened Circles
  import opened IntrusiveTree
  import opened IntrusiveList
  import opened Timespec
  import opened Timer

  /** Where the timer thread is between two locked regions: about to take the lock, or waiting
      on the condition variable, without bound or until a deadline. */
  datatype Wait = Running | Unbounded(signalled: bool) | Until(deadline: Time, signalled: bool)

  datatype Woken = Woken(node: TNode, at: Time)

  /** The timer's nodes and, as a history, every node that was added and every one woken. */
  datatype State = State(queue: seq<TNode>, wait: Wait, added: seq<TNode>, woken: seq<Woken>)

  /** cnd_signal: it is lost when nobody waits. */
  function Signalled(w: Wait): Wait {
    match w
    case Running => Running
    case Unbounded(_) => Unbounded(true)
    case Until(d, _) => Until(d, true)
  }

  ghost predicate IsEarliest(queue: seq<TNode>, x: TNode) {
    queue == [] || Before(x.item, queue[0].item)
  }

  /** timer_add_fiber */
  ghost function AddFiber(s: State, x: TNode): State {
    State(Insert(s.queue, Due(s.queue, x.item), x),
          if IsEarliest(s.queue, x) then Signalled(s.wait) else s.wait,
          s.added + [x], s.woken)
  }

  ghost function WokenAt(ns: seq<TNode>, cur: Time): seq<Woken> {
    seq(|ns|, i requires 0 <= i < |ns| => Woken(ns[i], cur))
  }

  ghost function Expired(s: State, cur: Time): State {
    var k := Due(s.queue, cur);
    State(s.queue[k..], Running, s.added, s.woken + WokenAt(s.queue[..k], cur))
  }

  /** The timer thread takes the lock, at the loop's top or because its wait ended for whatever
      reason, reads `cur` on the clock, and runs until it gives the lock up. */
  ghost function Turn(s: State, cur: Time): State {
    if s.queue == [] then s.(wait := Unbounded(false))
    else if s.wait.Unbounded? then s.(wait := Running)
    else if Before(cur, s.queue[0].item) then s.(wait := Until(s.queue[0].item, false))
    else Expired(s, cur)
  }

  datatype Event = Add(node: TNode) | Take(cur: Time)

  ghost function Step(s: State, e: Event): State {
    match e
    case Add(x) => AddFiber(s, x)
    case Take(cur) => Turn(s, cur)
  }

  ghost function Run(events: seq<Event>): State {
    if events == [] then State([], Running, [], [])
    else Step(Run(events[..|events| - 1]), events[|events| - 1])
  }

  // ------------------------------------------------------------ what every step keeps

  /** What an unsignalled wait means, and that a bounded wait has something to wait for. */
  ghost predicate WaitOk(queue: seq<TNode>, w: Wait) {
    match w
    case Running => true
    case Unbounded(signalled) => !signalled ==> queue == []
    case Until(d, signalled) => queue != [] && (!signalled ==> d == queue[0].item)
  }

  ghost function AddedFor(ns: seq<TNode>, t: Time): seq<TNode> {
    if ns == [] then [] else AddedFor(ns[..|ns| - 1], t) + if ns[|ns| - 1].item == t then [ns[|ns| - 1]] else []
  }

  ghost function Nodes(ws: seq<Woken>): seq<TNode> {
    seq(|ws|, i requires 0 <= i < |ws| => ws[i].node)
  }

  ghost predicate WokenInTime(ws: seq<Woken>) {
    forall i :: 0 <= i < |ws| ==> !Before(ws[i].at, ws[i].node.item)
  }

  ghost predicate Inv(s: State) {
    && Sorted(s.queue) && WaitOk(s.queue, s.wait) && WokenInTime(s.woken)
    && forall t :: AddedFor(Nodes(s.woken) + s.queue, t) == AddedFor(s.added, t)
  }

  lemma {:induction false} AddedForSplits(a: seq<TNode>, b: seq<TNode>, t: Time)
    ensures AddedFor(a + b, t) == AddedFor(a, t) + AddedFor(b, t)
  {
    if b == [] {
      assert a + b == a;
    } else {
      AddedForSplits(a, b[..|b| - 1], t);
      assert (a + b)[..|a + b| - 1] == a + b[..|b| - 1];
    }
  }

  lemma {:induction false} NoneFor(ns: seq<TNode>, t: Time)
    requires forall i :: 0 <= i < |ns| ==> ns[i].item != t
    ensures AddedFor(ns, t) == []
  {
    if ns != [] {
      NoneFor(ns[..|ns| - 1], t);
    }
  }

  lemma NoEqualsBehind(ns: seq<TNode>, x: TNode)
    requires Sorted(ns)
    ensures AddedFor(ns[Due(ns, x.item)..], x.item) == []
  {
    DueSplits(ns, x.item);
    NoneFor(ns[Due(ns, x.item)..], x.item);
  }

  lemma Passing(a: seq<TNode>, b: seq<TNode>, x: TNode, t: Time)
    requires x.item == t ==> AddedFor(b, t) == []
    ensures AddedFor(a + ([x] + b), t) == AddedFor(a + (b + [x]), t)
  {
    AddedForSplits(a, [x] + b, t);
    AddedForSplits(a, b + [x], t);
    AddedForSplits([x], b, t);
    AddedForSplits(b, [x], t);
    if x.item != t {
      NoneFor([x], t);
    }
  }

  /** The place after the nodes that are due keeps the order of arrival among equals. */
  lemma InsertedLast(done: seq<TNode>, ns: seq<TNode>, x: TNode, t: Time)
    requires Sorted(ns)
    ensures AddedFor(done + Insert(ns, Due(ns, x.item), x), t) == AddedFor(done + ns + [x], t)
  {
    NoEqualsBehind(ns, x);
    hide AddedFor, Sorted, Due;
    var k := Due(ns, x.item);
    var a, b := done + ns[..k], ns[k..];
    assert done + Insert(ns, k, x) == a + ([x] + b);
    assert done + ns + [x] == a + (b + [x]);
    Passing(a, b, x, t);
  }

  lemma AddKeepsInv(s: State, x: TNode)
    requires Inv(s)
    ensures Inv(AddFiber(s, x))
  {
    InsertSorted(s.queue, x);
    AddKeepsWait(s, x);
    forall t
      ensures AddedFor(Nodes(s.woken) + AddFiber(s, x).queue, t) == AddedFor(s.added + [x], t)
    {
      InsertedLast(Nodes(s.woken), s.queue, x, t);
      AddedForSplits(Nodes(s.woken) + s.queue, [x], t);
      AddedForSplits(s.added, [x], t);
    }
  }

  /** A node that is not the new earliest leaves the earliest deadline where it was. */
  lemma AddKeepsWait(s: State, x: TNode)
    requires Sorted(s.queue) && WaitOk(s.queue, s.wait)
    ensures WaitOk(AddFiber(s, x).queue, AddFiber(s, x).wait)
  {
    if s.queue != [] {
      DueAtEnds(s.queue, x.item);
    }
  }

  lemma SliceSorted(ns: seq<TNode>, k: nat)
    requires Sorted(ns) && k <= |ns|
    ensures Sorted(ns[k..])
  {}

  lemma ExpiredKeepsInv(s: State, cur: Time)
    requires Inv(s)
    ensures Inv(Expired(s, cur))
  {
    var k := Due(s.queue, cur);
    DueSplits(s.queue, cur);
    SliceSorted(s.queue, k);
    assert Nodes(s.woken + WokenAt(s.queue[..k], cur)) == Nodes(s.woken) + s.queue[..k];
    assert Nodes(s.woken) + s.queue[..k] + s.queue[k..] == Nodes(s.woken) + s.queue;
  }

  lemma {:induction false} RunInv(events: seq<Event>)
    ensures Inv(Run(events))
  {
    if events != [] {
      var s := Run(events[..|events| - 1]);
      RunInv(events[..|events| - 1]);
      match events[|events| - 1]
      case Add(x) => AddKeepsInv(s, x);
      case Take(cur) => ExpiredKeepsInv(s, cur);
    }
  }

  // ------------------------------------------------------------ theorems over every run

  /** While the thread waits with no signal pending, its deadline is that of the first node,
      the earliest there is, or it waits without bound and the timer is empty; a bounded wait
      always has a node to wait for. */
  lemma WaitsForTheEarliest(events: seq<Event>)
    ensures
      var s := Run(events);
      && (s.wait == Unbounded(false) ==> s.queue == [])
      && (s.wait.Until? ==> s.queue != [])
      && (s.wait.Until? && !s.wait.signalled ==> s.wait.deadline == s.queue[0].item)
      && forall i :: 0 <= i < |s.queue| ==> !Before(s.queue[i].item, s.queue[0].item)
  {
    RunInv(events);
    var s := Run(events);
    forall i | 0 <= i < |s.queue|
      ensures !Before(s.queue[i].item, s.queue[0].item)
    {}
  }

  /** For every deadline, the nodes added for it are those woken followed by those still in
      the timer, in the order they were added: nobody is lost or woken twice, and equals are
      served first in, first out. */
  lemma NobodyIsLost(events: seq<Event>, t: Time)
    ensures
      var s := Run(events);
      AddedFor(Nodes(s.woken), t) + AddedFor(s.queue, t) == AddedFor(s.added, t)
  {
    RunInv(events);
    var s := Run(events);
    AddedForSplits(Nodes(s.woken), s.queue, t);
  }

  /** Nobody is woken at a time before its deadline, and a turn that wakes anybody leaves
      nobody behind who was due. */
  lemma NobodyWakesEarlyOrIsPassedOver(events: seq<Event>, cur: Time)
    ensures WokenInTime(Run(events).woken)
    ensures
      var s, s' := Run(events), Turn(Run(events), cur);
      s'.woken != s.woken ==> forall i :: 0 <= i < |s'.queue| ==> Before(cur, s'.queue[i].item)
  {
    RunInv(events);
    DueSplits(Run(events).queue, cur);
  }

  /** A thread that is not in the unbounded wait and takes a turn when the earliest node is
      due wakes it; from the unbounded wait it takes two turns. */
  lemma {:induction false} DueMeansWoken(events: seq<Event>, cur: Time, later: Time)
    requires Run(events).queue != [] && !Before(cur, Run(events).queue[0].item)
    requires !Before(later, Run(events).queue[0].item)
    ensures
      var s := Run(events);
      var s' := if s.wait.Unbounded? then Turn(Turn(s, cur), later) else Turn(s, cur);
      |s'.woken| > |s.woken| && s'.woken[|s.woken|].node == s.queue[0]
  {
    RunInv(events);
    var s := Run(events);
    DueAtEnds(s.queue, cur);
    DueAtEnds(s.queue, later);
  }

  /** How a turn ends.  If it wakes nobody it takes nobody: over an empty timer the thread waits
      without bound; with a node it waits until that node's deadline, unless it comes from the
      unbounded wait, which goes back to the loop's top; no signal is pending.  If it wakes
      anybody it goes back to the loop's top. */
  lemma {:induction false} TurnSettles(events: seq<Event>, cur: Time)
    ensures
      var s, s' := Run(events), Run(events + [Take(cur)]);
      && s'.added == s.added
      && if s'.woken == s.woken then
           s'.queue == s.queue
           && s'.wait == (if s.queue == [] then Unbounded(false)
                          else if s.wait.Unbounded? then Running
                          else Until(s.queue[0].item, false))
         else s'.wait == Running && s.queue != [] && !Before(cur, s.queue[0].item)
  {
    RunInv(events);
    var s := Run(events);
    assert (events + [Take(cur)])[..|events|] == events;
    DueSplits(s.queue, cur);
    if s.queue != [] {
      DueAtEnds(s.queue, cur);
    }
  }

  /** A waiting thread is signalled exactly when the node added is the new earliest. */
  lemma AddSignals(events: seq<Event>, x: TNode)
    requires x !in Run(events).queue
    ensures
      var s, s' := Run(events), Run(events + [Add(x)]);
      && s'.queue != []
      && s'.wait == (if s'.queue[0] == x then Signalled(s.wait) else s.wait)
      && (s'.queue[0] == x <==> forall i :: 0 <= i < |s.queue| ==> Before(x.item, s.queue[i].item))
  {
    RunInv(events);
    var s := Run(events);
    assert (events + [Add(x)])[..|events|] == events;
    if s.queue != [] {
      DueAtEnds(s.queue, x.item);
    }
  }

  // ------------------------------------------------------------ fiber_sleep

  /** Whatever the inputs, a sleeper that goes on at a time `at` not before its deadline has
      slept for its duration. */
  lemma SleepIsLongEnough(start: Time, duration: Time, at: Time)
    requires Normal(at) && !Before(at, SleepUntil(start, duration))
    ensures Total(at) >= Total(start) + Total(duration)
  {
    var t := SleepUntil(start, duration);
    SleepUntilIsExact(start, duration);
    if at.sec > t.sec {
      assert (at.sec - t.sec) * GIGA >= GIGA;
    }
  }

  /** In every run a fiber that slept for `duration` from `start` was woken, if at all, at a
      time when that much had passed. */
  lemma SleepersSleepLongEnough(events: seq<Event>, i: nat, start: Time, duration: Time)
    requires i < |Run(events).woken| && Normal(Run(events).woken[i].at)
    requires Run(events).woken[i].node.item == SleepUntil(start, duration)
    ensures Total(Run(events).woken[i].at) >= Total(start) + Total(duration)
  {
    RunInv(events);
    SleepIsLongEnough(start, duration, Run(events).woken[i].at);
  }

  /** A sleeper is let go as soon as its time has come. */
  ghost predicate OnTime(start: Time, duration: Time) {
    forall at :: Normal(at) && Total(at) >= Total(start) + Total(duration) ==>
                   !Before(at, SleepUntil(start, duration))
  }

  /** It is let go as soon as that time is reached exactly when the deadline came out normal,
      that is, when the added nanoseconds are not negative or are whole seconds. */
  lemma SleepIsNotTooLong(start: Time, duration: Time)
    ensures
      start.nsec + duration.nsec >= 0 || (start.nsec + duration.nsec) % GIGA == 0 <==> OnTime(start, duration)
  {
    var t := SleepUntil(start, duration);
    SleepUntilIsExact(start, duration);
    if Normal(t) {
      forall at | Normal(at) && Total(at) >= Total(start) + Total(duration)
        ensures !Before(at, t)
      {
        BeforeComparesTotals(at, t);
      }
    } else {
      var at := Time(t.sec - 1, t.nsec + GIGA);
      assert Total(at) == Total(t) && Normal(at) && Before(at, t);
    }
  }

  /** In the caller's terms: whatever the clock shows at the call, the sleeper is let go on
      time, exactly when the nanoseconds of the duration are not negative. */
  lemma OnTimeForEveryStart(duration: Time)
    ensures duration.nsec >= 0 <==> forall start :: Normal(start) ==> OnTime(start, duration)
  {
    if duration.nsec >= 0 {
      forall start | Normal(start)
        ensures OnTime(start, duration)
      {
        SleepIsNotTooLong(start, duration);
      }
    } else {
      var start := Time(0, if duration.nsec % GIGA == 0 then 1 else 0);
      var sum := start.nsec + duration.nsec;
      assert sum < 0 && sum % GIGA != 0;
      SleepIsNotTooLong(start, duration);
      assert Normal(start) && !OnTime(start, duration);
    }
  }

  // ------------------------------------------------------------ the protocol over the real indexes

  /** The timer with its condition variable, and the list the timer thread wakes from. */
  class Service {
    const timer: Timers
    const awake: TNode
    var wait: Wait
    ghost var added: seq<TNode>
    ghost var woken: seq<Woken>

    ghost function Value(): State
      reads this, timer
    {
      State(timer.nodes, wait, added, woken)
    }

    ghost predicate Valid()
      reads this, timer, timer.list, timer.nodes, awake
    {
      && timer.Valid() && awake != timer.list && awake !in timer.nodes
      && (!wait.Running? ==> Ring(awake, []))
      && (wait.Until? ==> timer.nodes != [])
    }

    constructor ()
      ensures Valid() && Value() == Run([]) && fresh(timer) && fresh(timer.list) && fresh(awake)
    {
      timer := new Timers();
      awake := new Node(Time(0, 0));
      wait, added, woken := Running, [], [];
    }

    /** timer_add_fiber: signal if and only if the earliest deadline changed. */
    method Add(x: TNode)
      requires Valid() && x !in timer.nodes && x != timer.list && x != awake
      modifies this, timer, timer.list, timer.nodes, x
      ensures Valid() && Value() == AddFiber(old(Value()), x)
    {
      hide Agrees, Ring, Insert;
      ghost var ns := timer.nodes;
      var earliest := timer.InsertNode(x);
      InsertHolds(ns, Due(ns, x.item), x);
      if earliest {
        wait := Signalled(wait);
      }
      added := added + [x];
    }

    /** The part of timer_thread between taking the lock, or waking with it, and giving it up;
        what it took off the timer is on the list `awake`. */
    method Take(cur: Time) returns (ghost batch: seq<TNode>)
      requires Valid()
      modifies this, timer, timer.list, timer.nodes, awake
      ensures Valid() && Value() == Turn(old(Value()), cur)
      ensures Ring(awake, batch) && woken == old(woken) + WokenAt(batch, cur)
    {
      hide Agrees, Ring, Insert, Due, WokenAt;
      ghost var ns := timer.nodes;
      EmptyRoot(timer.list, timer.root, timer.minTime, timer.maxTime, timer.tree, ns);
      if wait.Running? {
        InitList(awake);
      }
      batch := [];
      NoneWoken(woken, cur);
      if wait.Unbounded? || (wait.Running? && timer.root == null) {
        wait := if timer.root == null then Unbounded(false) else Running;
      } else if Before(cur, timer.minTime.item) {
        wait := Until(timer.minTime.item, false);
      } else {
        timer.Expire(cur, awake);
        wait := Running;
        batch := ns[..Due(ns, cur)];
        woken := woken + WokenAt(batch, cur);
      }
    }
  }

  lemma NoneWoken(ws: seq<Woken>, cur: Time)
    ensures ws + WokenAt([], cur) == ws
  {}

  lemma InsertHolds(ns: seq<TNode>, k: nat, x: TNode)
    requires k <= |ns|
    ensures forall n :: n in Insert(ns, k, x) <==> n in ns || n == x
    ensures Insert(ns, k, x) != []
  {
    MembersInsert(ns, k, x);
    assert forall n :: n in Members(Insert(ns, k, x)) <==> n in Members(ns) + {x};
  }
}
