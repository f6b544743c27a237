/**
 The scheduler's queue operations in the form the code has them (src/scheduler.c:52-66,
 141-227): circular lists through the nodes inside the fibers' records and the threads, and
 slots, updated in place, with other threads free to change whatever this thread does not
 hold.

 `script` is what the other threads do: its i-th entry is what they have made of the two
 shared lists by the i-th time this thread takes the lock.  A run whose script is used up,
 or goes on with lists that have a node which this thread holds, is cut off at that lock
 acquisition, so every statement about all scripts is a statement about every prefix of
 every run.  Besides, from the moment a thread has been signalled its node and that of its
 fiber may hold anything: the fiber runs on that memory, and the thread may park again.
 */
module BatchEnqueue {
  import opened Circles
  import opened IntrusiveTree
  import opened IntrusiveList

  /** What the queue lock protects. */
  datatype Shared<T> = Shared(queue: seq<T>, idle: seq<T>)

  /** One write of a fiber's stack pointer into a thread's slot. */
  datatype Gift<T> = Gift(th: T, f: T)

  function Zip<T>(ths: seq<T>, fs: seq<T>): (g: seq<Gift<T>>)
    requires |ths| == |fs|
    ensures |g| == |fs|
    ensures forall i :: 0 <= i < |g| ==> g[i] == Gift(ths[i], fs[i])
  {
    seq(|fs|, i requires 0 <= i < |fs| => Gift(ths[i], fs[i]))
  }

  function Fibers<T>(g: seq<Gift<T>>): (fs: seq<T>)
    ensures |fs| == |g| && forall i :: 0 <= i < |g| ==> fs[i] == g[i].f
  {
    seq(|g|, i requires 0 <= i < |g| => g[i].f)
  }

  function Threads<T>(g: seq<Gift<T>>): (ths: seq<T>)
    ensures |ths| == |g| && forall i :: 0 <= i < |g| ==> ths[i] == g[i].th
  {
    seq(|g|, i requires 0 <= i < |g| => g[i].th)
  }

  lemma ZipSplits<T>(g: seq<Gift<T>>, ths: seq<T>, fs: seq<T>)
    requires |ths| == |fs|
    ensures Fibers(g + Zip(ths, fs)) == Fibers(g) + fs
    ensures Threads(g + Zip(ths, fs)) == Threads(g) + ths
  {}

  lemma Balanced<T>(before: seq<T>, part: seq<T>, rest: seq<T>, all: seq<T>)
    requires before + [] + (part + rest) == all
    ensures (before + part) + [] + rest == all
  {
    assert before + [] == before && (before + part) + [] == before + part;
  }

  /** The slots after the writes of `g`, in order. */
  function Written<T(==)>(slot: map<T, T>, g: seq<Gift<T>>): map<T, T> {
    if g == [] then slot else Written(slot, g[..|g| - 1])[g[|g| - 1].th := g[|g| - 1].f]
  }

  lemma WrittenAppend<T>(slot: map<T, T>, g: seq<Gift<T>>, x: Gift<T>)
    ensures Written(slot, g + [x]) == Written(slot, g)[x.th := x.f]
  {
    assert (g + [x])[..|g|] == g;
  }

  /** When no thread is written twice, each thread's slot ends up with its own fiber. */
  lemma {:induction false} EachThreadKeepsItsFiber<T>(slot: map<T, T>, g: seq<Gift<T>>, i: nat)
    requires i < |g|
    requires forall j, k :: 0 <= j < k < |g| ==> g[j].th != g[k].th
    ensures g[i].th in Written(slot, g) && Written(slot, g)[g[i].th] == g[i].f
  {
    if i < |g| - 1 {
      EachThreadKeepsItsFiber(slot, g[..|g| - 1], i);
    }
  }

  /** Ready fibers and idle threads do not coexist. */
  predicate Conserves<T(==)>(s: Shared<T>) {
    s.queue == [] || s.idle == []
  }

  /** What one region under the lock may do to the shared lists: append to the queue when
      no thread is idle, take all idle threads, take the whole queue, or put threads back
      in front of the idle ones when the queue is empty. */
  predicate Region<T(==)>(before: Shared<T>, after: Shared<T>) {
    || (before.idle == [] && after.idle == [] && before.queue <= after.queue)
    || (before.idle != [] && after == Shared(before.queue, []))
    || (before.queue != [] && after == Shared([], before.idle))
    || (before.queue == [] && after.queue == [] && |before.idle| <= |after.idle|
        && after.idle[|after.idle| - |before.idle|..] == before.idle)
  }

  /** Work conservation: a region that finds no fiber waiting beside an idle thread leaves
      none; for giving threads back, and only there, this rests on the re-check. */
  lemma RegionConserves<T>(before: Shared<T>, after: Shared<T>)
    requires Region(before, after) && Conserves(before)
    ensures Conserves(after)
  {}

  /** The node in a fiber's record, or in a thread. */
  type Link = Node<nat>

  /** What this thread has done so far: slots written and threads signalled. */
  datatype Work = Work(gifts: seq<Gift<Link>>, signals: seq<Link>, slot: map<Link, Link>)

  /** The i-th thread gets the i-th fiber in its slot and then its signal. */
  ghost function Paired(d: Work, ths: seq<Link>, fs: seq<Link>): Work
    requires |ths| == |fs|
  {
    Work(d.gifts + Zip(ths, fs), d.signals + ths, Written(d.slot, Zip(ths, fs)))
  }

  ghost predicate Balances(d: Work, appended: seq<Link>, returned: seq<Link>, got: seq<Link>, stolen: seq<Link>,
                           fs: seq<Link>, ths: seq<Link>) {
    && Fibers(d.gifts) + appended + fs == got
    && Threads(d.gifts) + returned + ths == stolen
    && d.signals == Threads(d.gifts)
  }

  /** A thread holds the fibers `fs` and the threads `ths`, and nothing else. */
  ghost predicate Holds(held: set<Link>, fs: seq<Link>, ths: seq<Link>) {
    Distinct(fs) && Distinct(ths) && Members(fs) !! Members(ths) && held == Members(fs) + Members(ths)
  }

  class Dispatcher {
    const queueHead: Link
    const idleHead: Link
    const world: set<Link>          // the nodes of all fibers and threads
    var slot: map<Link, Link>
    var held: set<Link>             // history: the nodes that this thread holds
    ghost var queue: seq<Link>      // the shared lists, as long as the lock is held
    ghost var idle: seq<Link>

    // history of this thread's calls
    ghost var gifts: seq<Gift<Link>>    // slot writes, in order
    ghost var signals: seq<Link>        // semaphore signals, in order
    ghost var taken: seq<Link>          // fibers taken from the queue inside enqueue_fiber_list
    ghost var appended: seq<Link>       // fibers put on the queue
    ghost var stolen: seq<Link>         // threads taken from the idle list
    ghost var returned: seq<Link>       // threads put back on the idle list
    ghost var left: seq<Shared<Link>>   // the shared lists at each release inside enqueue_fiber_list

    ghost function Value(): Shared<Link>
      reads this
    {
      Shared(queue, idle)
    }

    ghost function Done(): Work
      reads this
    {
      Work(gifts, signals, slot)
    }

    /** The sentinels of the shared lists are no fiber's and no thread's. */
    ghost predicate Valid()
      reads this
    {
      queueHead != idleHead && queueHead !in world && idleHead !in world && held <= world
    }

    /** The lock is held: the lists are circles through nodes that nobody else holds. */
    ghost predicate Locked()
      reads this, queueHead, idleHead, queue, idle
    {
      && Ring(queueHead, queue) && Ring(idleHead, idle)
      && Members(queue) + Members(idle) <= world - held && Members(queue) !! Members(idle)
    }

    /** Sentinels on this thread's own stack. */
    ghost predicate Own(fiberHead: Link, threadHead: Link)
      reads this
    {
      && fiberHead != threadHead && {fiberHead, threadHead} !! world + {queueHead, idleHead}
    }

    /** Every fiber received or taken was handed to a thread, put on the queue, or is still
        held, in order; every thread stolen was handed a fiber, put back, or is still held. */
    ghost predicate Accounted(received: seq<Link>, fs: seq<Link>, ths: seq<Link>)
      reads this
    {
      Balances(Done(), appended, returned, received + taken, stolen, fs, ths)
    }

    constructor (queueHead: Link, idleHead: Link, world: set<Link>)
      requires queueHead != idleHead && queueHead !in world && idleHead !in world
      ensures this.queueHead == queueHead && this.idleHead == idleHead && this.world == world
      ensures Valid() && held == {} && slot == map[] && Accounted([], [], [])
    {
      this.queueHead, this.idleHead, this.world, slot, held := queueHead, idleHead, world, map[], {};
      queue, idle := [], [];
      gifts, signals, taken, appended, stolen, returned, left := [], [], [], [], [], [], [];
      new;
      assert Fibers<Link>([]) == [] && Threads<Link>([]) == [];
    }

    /** What another thread may find when it takes the lock. */
    predicate Fits(env: Shared<Link>)
      reads this
    {
      && (forall i, j :: 0 <= i < j < |env.queue| ==> env.queue[i] != env.queue[j])
      && (forall i, j :: 0 <= i < j < |env.idle| ==> env.idle[i] != env.idle[j])
      && (forall i, j :: 0 <= i < |env.queue| && 0 <= j < |env.idle| ==> env.queue[i] != env.idle[j])
      && (forall i :: 0 <= i < |env.queue| ==> env.queue[i] in world && env.queue[i] !in held)
      && (forall i :: 0 <= i < |env.idle| ==> env.idle[i] in world && env.idle[i] !in held)
    }

    /** The other threads' doing at any moment: anything to the links of anything not held. */
    method Others()
      modifies (world - held)`next, (world - held)`prev, queueHead`next, queueHead`prev, idleHead`next, idleHead`prev
    {
      modify (world - held)`next, (world - held)`prev, queueHead`next, queueHead`prev, idleHead`next, idleHead`prev;
    }

    method Rebuild(head: Link, ns: seq<Link>)
      requires Distinct(ns) && head !in ns
      modifies head`next, head`prev, ns`next, ns`prev
      ensures Ring(head, ns)
    {
      hide Ring, Circle;
      InitList(head);
      for i := 0 to |ns|
        invariant Ring(head, ns[..i])
      {
        AddBefore(head, ns[i], head, ns[..i], i);
        assert Insert(ns[..i], i, ns[i]) == ns[..i + 1];
      }
      assert ns[..|ns|] == ns;
    }

    /** Anything up to the moment the lock is obtained, when the two lists are as `env` says. */
    method Acquire(env: Shared<Link>)
      requires Valid() && Fits(env)
      modifies `queue, `idle
      modifies (world - held)`next, (world - held)`prev, queueHead`next, queueHead`prev, idleHead`next, idleHead`prev
      ensures Locked() && Value() == env
    {
      hide Ring, Circle;
      Others();
      Rebuild(queueHead, env.queue);
      Rebuild(idleHead, env.idle);
      queue, idle := env.queue, env.idle;
    }

    /** get_available_fiber: the head of the queue, or nothing. */
    method GetAvailableFiber(env: Shared<Link>) returns (none: bool, f: Link)
      requires Valid() && held == {} && Fits(env)
      modifies `queue, `idle, `held, world`next, world`prev, queueHead`next, queueHead`prev, idleHead`next, idleHead`prev
      ensures Valid() && Locked()
      ensures none <==> env.queue == []
      ensures none ==> Value() == env && held == {}
      ensures !none ==> f == env.queue[0] && Value() == env.(queue := env.queue[1..]) && held == {f}
      ensures Conserves(env) ==> Conserves(Value())
    {
      hide Ring, Circle;
      Acquire(env);
      EmptyRing(queueHead, queue);
      none, f := true, queueHead;
      if queueHead.next != queueHead {
        f := PopHead(queueHead, queue);
        FirstIsOut(queue);
        none, held, queue := false, held + {f}, queue[1..];
      }
    }

    /** enqueue_fiber: wake the first idle thread with it, or append it. */
    method EnqueueFiber(env: Shared<Link>, f: Link)
      requires Valid() && held == {f} && Fits(env)
      modifies this, world`next, world`prev, queueHead`next, queueHead`prev, idleHead`next, idleHead`prev
      ensures Valid() && held == {}
      ensures Conserves(env) ==> Conserves(Value())
      ensures env.idle == [] ==>
                && Value() == env.(queue := env.queue + [f]) && Locked()
                && slot == old(slot) && gifts == old(gifts) && signals == old(signals)
      ensures env.idle != [] ==>
                && Value() == env.(idle := env.idle[1..])
                && slot == old(slot)[env.idle[0] := f]
                && gifts == old(gifts) + [Gift(env.idle[0], f)]
                && signals == old(signals) + [env.idle[0]]
    {
      hide Ring, Circle;
      Acquire(env);
      EmptyRing(idleHead, idle);
      if idleHead.next != idleHead {
        var th := PopHead(idleHead, idle);
        idle := idle[1..];
        held := held + {th};
        Give(th, f);
      } else {
        AddBefore(queueHead, f, queueHead, queue, |queue|);
        AppendedLast(queue, f);
        queue := queue + [f];
        held, appended := {}, appended + [f];
      }
    }

    /** Write the slot, then signal: from then on neither is this thread's any more. */
    method Give(th: Link, f: Link)
      requires Valid()
      modifies `slot, `gifts, `signals, `held
      modifies (world - held + {th, f})`next, (world - held + {th, f})`prev
      modifies queueHead`next, queueHead`prev, idleHead`next, idleHead`prev
      ensures Valid() && held == old(held) - {th, f}
      ensures slot == old(slot)[th := f]
      ensures gifts == old(gifts) + [Gift(th, f)] && signals == old(signals) + [th]
    {
      slot := slot[th := f];
      gifts := gifts + [Gift(th, f)];
      signals := signals + [th];
      held := held - {th, f};
      Others();
    }

    /** One turn of the innermost loop.  Both nodes' links are read before the signal. */
    method ServeNext(fiberHead: Link, threadHead: Link, ghost fs: seq<Link>, ghost ths: seq<Link>, ghost n: nat,
                     ix: Link, iy: Link)
      returns (tix: Link, tiy: Link)
      requires Valid() && Own(fiberHead, threadHead) && n < |fs| && n < |ths|
      requires Rest(fiberHead, fs, n) && Rest(threadHead, ths, n) && ix == fs[n] && iy == ths[n]
      requires Holds(held, fs[n..], ths[n..])
      modifies `slot, `gifts, `signals, `held, world`next, world`prev
      modifies queueHead`next, queueHead`prev, idleHead`next, idleHead`prev
      ensures Valid() && Holds(held, fs[n + 1..], ths[n + 1..])
      ensures tix == Stop(fiberHead, fs, n + 2) && tiy == Stop(threadHead, ths, n + 2)
      ensures Rest(fiberHead, fs, n + 1) && Rest(threadHead, ths, n + 1)
      ensures gifts == old(gifts) + [Gift(iy, ix)] && signals == old(signals) + [iy] && slot == old(slot)[iy := ix]
    {
      RestJoins(fiberHead, fs, n);
      RestJoins(threadHead, ths, n);
      HoldsNext(held, fs, ths, n);
      hide Chained, Joined, Holds;
      tix, tiy := ix.next, iy.next;
      ghost var fm, tm := Sides(Members(fs) + {fiberHead}), Sides(Members(ths) + {threadHead});
      Give(iy, ix);
      RestGoesOn(fm, fiberHead, fs, n);
      RestGoesOn(tm, threadHead, ths, n);
    }

    /** The innermost loop: pair fibers and threads until one list ends.  The walk goes on to
        the right nodes whatever becomes of those handed over, and what it leaves of the lists
        is still linked. */
    method MatchPairs(fiberHead: Link, threadHead: Link, ghost fs: seq<Link>, ghost ths: seq<Link>)
      returns (ix: Link, iy: Link, ghost n: nat)
      requires Valid() && Own(fiberHead, threadHead) && Holds(held, fs, ths)
      requires Ring(fiberHead, fs) && Ring(threadHead, ths)
      modifies `slot, `gifts, `signals, `held, world`next, world`prev
      modifies queueHead`next, queueHead`prev, idleHead`next, idleHead`prev
      ensures n == if |fs| <= |ths| then |fs| else |ths|
      ensures Valid() && Holds(held, fs[n..], ths[n..])
      ensures ix == Stop(fiberHead, fs, n + 1) && iy == Stop(threadHead, ths, n + 1)
      ensures Rest(fiberHead, fs, n) && Rest(threadHead, ths, n)
      ensures Done() == Paired(old(Done()), ths[..n], fs[..n])
    {
      hide Ring, Circle;
      RingJoins(fiberHead, fs, 0);
      RingJoins(threadHead, ths, 0);
      RingHasRest(fiberHead, fs);
      RingHasRest(threadHead, ths);
      assert fs[0..] == fs && ths[0..] == ths;
      hide Rest, Holds, Paired;
      NonePaired(Done(), fs, ths);
      n, ix, iy := 0, fiberHead.next, threadHead.next;
      while ix != fiberHead && iy != threadHead
        invariant n <= |fs| && n <= |ths|
        invariant Valid() && Holds(held, fs[n..], ths[n..])
        invariant ix == Stop(fiberHead, fs, n + 1) && iy == Stop(threadHead, ths, n + 1)
        invariant Rest(fiberHead, fs, n) && Rest(threadHead, ths, n)
        invariant Done() == Paired(old(Done()), ths[..n], fs[..n])
        decreases |fs| - n
      {
        OneMorePaired(old(Done()), fs, ths, n);
        ix, iy := ServeNext(fiberHead, threadHead, fs, ths, n, ix, iy);
        n := n + 1;
      }
    }

    /** What the innermost loop left of one of the lists is linked to its sentinel again. */
    method Relink(fiberHead: Link, threadHead: Link, ghost fs: seq<Link>, ghost ths: seq<Link>, ghost n: nat, ix: Link, iy: Link)
      returns (fibersLeft: bool, threadsLeft: bool)
      requires Distinct(fs) && Distinct(ths) && fiberHead !in fs && threadHead !in ths
      requires n == if |fs| <= |ths| then |fs| else |ths|
      requires ix == Stop(fiberHead, fs, n + 1) && iy == Stop(threadHead, ths, n + 1)
      requires Rest(fiberHead, fs, n) && Rest(threadHead, ths, n)
      modifies fiberHead`next, threadHead`next, fs[n..]`prev, ths[n..]`prev
      ensures (fibersLeft <==> fs[n..] != []) && (threadsLeft <==> ths[n..] != [])
      ensures (fibersLeft ==> Ring(fiberHead, fs[n..])) && (threadsLeft ==> Ring(threadHead, ths[n..]))
      ensures unchanged(this)
    {
      hide Ring, Rest;
      fibersLeft, threadsLeft := ix != fiberHead, ix == fiberHead && iy != threadHead;
      if fibersLeft {
        LinkRest(fiberHead, ix, fs, n);
      } else if threadsLeft {
        LinkRest(threadHead, iy, ths, n);
      }
    }

    /** One pass of the innermost loop, and what it does to the account. */
    method Dispatch(fiberHead: Link, threadHead: Link, ghost received: seq<Link>, ghost fs: seq<Link>, ghost ths: seq<Link>)
      returns (fibersLeft: bool, threadsLeft: bool, ghost n: nat)
      requires Valid() && Own(fiberHead, threadHead) && Holds(held, fs, ths)
      requires Ring(fiberHead, fs) && Ring(threadHead, ths)
      requires appended == [] && returned == [] && Accounted(received, fs, ths)
      modifies `slot, `gifts, `signals, `held, world`next, world`prev
      modifies queueHead`next, queueHead`prev, idleHead`next, idleHead`prev
      modifies fiberHead`next, threadHead`next
      ensures n == if |fs| <= |ths| then |fs| else |ths|
      ensures Valid() && Holds(held, fs[n..], ths[n..]) && Accounted(received, fs[n..], ths[n..])
      ensures (fibersLeft <==> fs[n..] != []) && (threadsLeft <==> ths[n..] != [])
      ensures (fibersLeft ==> Ring(fiberHead, fs[n..])) && (threadsLeft ==> Ring(threadHead, ths[n..]))
      ensures Done() == Paired(old(Done()), ths[..n], fs[..n])
    {
      var ix, iy;
      RingIsDistinct(fiberHead, fs);
      RingIsDistinct(threadHead, ths);
      hide Ring, Circle, Rest, Paired, Balances;
      ix, iy, n := MatchPairs(fiberHead, threadHead, fs, ths);
      PairedAccount(old(Done()), received + taken, stolen, fs, ths, n);
      HeldAreOurs(held, fs[n..], ths[n..]);
      hide *;
      fibersLeft, threadsLeft := Relink(fiberHead, threadHead, fs, ths, n, ix, iy);
    }

    /** The lock is taken while this thread holds the list at `head`. */
    method AcquireHolding(env: Shared<Link>, ghost head: Link, ghost ns: seq<Link>)
      requires Valid() && Fits(env) && Ring(head, ns)
      requires head !in world && head != queueHead && head != idleHead && forall n :: n in ns ==> n in held
      modifies `queue, `idle
      modifies (world - held)`next, (world - held)`prev, queueHead`next, queueHead`prev, idleHead`next, idleHead`prev
      ensures Locked() && Value() == env && Ring(head, ns)
      ensures queueHead.next == queueHead <==> queue == []
      ensures idleHead.next == idleHead <==> idle == []
    {
      hide Ring, Circle;
      assert forall i :: 0 <= i < |ns| ==> ns[i] in held;
      Acquire(env);
      EmptyRing(queueHead, queue);
      EmptyRing(idleHead, idle);
    }

    /** The queue is empty: the unused threads go back in front of those that are idle now. */
    method GiveBack(threadHead: Link, ghost ths: seq<Link>)
      requires Valid() && Locked() && queue == [] && ths != [] && Members(ths) == held
      requires Ring(threadHead, ths) && threadHead !in world && threadHead != queueHead && threadHead != idleHead
      modifies `idle, `held, `returned, `left, idleHead`next, idleHead`prev, world`next, world`prev
      ensures Valid() && Locked() && Value() == Shared([], ths + old(idle)) && held == {}
      ensures returned == ths && left == old(left) + [Value()]
    {
      hide Ring, Circle;
      MembersAre(idle);
      MembersAre(ths);
      assert forall n :: n in idle || n in ths ==> n in world;
      AddList(idleHead, idle, threadHead, ths);
      MembersSum(ths, idle);
      idle, held, returned := ths + idle, {}, ths;
      left := left + [Value()];
    }

    /** The queue is not empty: this thread takes it all. */
    method TakeQueue(fiberHead: Link, fs: seq<Link>, ghost threadHead: Link, ghost ths: seq<Link>)
      requires Valid() && Locked() && queue == fs != [] && Own(fiberHead, threadHead)
      requires Ring(threadHead, ths) && forall n :: n in ths ==> n in held
      modifies `queue, `held, `taken, `left, fiberHead`next, fiberHead`prev, queueHead`next, queueHead`prev, fs`next, fs`prev
      ensures Valid() && Value() == Shared([], old(idle)) && held == old(held) + Members(fs)
      ensures Ring(fiberHead, fs) && Ring(threadHead, ths)
      ensures taken == old(taken) + fs && left == old(left) + [Value()] && Done() == old(Done())
    {
      hide Ring, Circle;
      MembersAre(fs);
      assert threadHead !in fs;
      assert forall i :: 0 <= i < |ths| ==> ths[i] !in fs && ths[i] != fiberHead && ths[i] != queueHead;
      ReplaceInit(queueHead, fiberHead, fs);
      held := held + (set f | f in fs);
      queue, taken := [], taken + fs;
      left := left + [Value()];
    }

    /** All idle threads are taken. */
    method TakeIdle(threadHead: Link, ths: seq<Link>, ghost fiberHead: Link, ghost fs: seq<Link>)
      requires Valid() && Locked() && idle == ths != [] && Own(fiberHead, threadHead)
      requires Ring(fiberHead, fs) && forall n :: n in fs ==> n in held
      modifies `idle, `held, `stolen, `left, threadHead`next, threadHead`prev, idleHead`next, idleHead`prev, ths`next, ths`prev
      ensures Valid() && Value() == Shared(old(queue), []) && held == old(held) + Members(ths)
      ensures Ring(threadHead, ths) && Ring(fiberHead, fs)
      ensures stolen == old(stolen) + ths && left == old(left) + [Value()] && Done() == old(Done())
    {
      hide Ring, Circle;
      MembersAre(ths);
      assert fiberHead !in ths;
      assert forall i :: 0 <= i < |fs| ==> fs[i] !in ths && fs[i] != threadHead && fs[i] != idleHead;
      ReplaceInit(idleHead, threadHead, ths);
      held := held + (set th | th in ths);
      idle, stolen := [], stolen + ths;
      left := left + [Value()];
    }

    /** No thread is idle: the fibers go to the end of the queue. */
    method AppendFibers(fiberHead: Link, ghost fs: seq<Link>)
      requires Valid() && Locked() && idle == [] && fs != [] && Members(fs) == held
      requires Ring(fiberHead, fs) && fiberHead !in world && fiberHead != queueHead && fiberHead != idleHead
      modifies `queue, `held, `appended, `left, queueHead`next, queueHead`prev, world`next, world`prev
      ensures Valid() && Locked() && Value() == Shared(old(queue) + fs, []) && held == {}
      ensures appended == fs && left == old(left) + [Value()]
    {
      hide Ring, Circle;
      MembersAre(queue);
      MembersAre(fs);
      assert forall n :: n in queue || n in fs ==> n in world;
      AddListTail(queueHead, queue, fiberHead, fs);
      MembersSum(queue, fs);
      queue, held, appended := queue + fs, {}, fs;
      left := left + [Value()];
    }

    /** The run is cut off when the lock is to be taken for the next time. */
    predicate CutOff(script: seq<Shared<Link>>, locks: nat)
      reads this
    {
      locks >= |script| || !Fits(script[locks])
    }

    /** That, and what it does to the account. */
    method ReturnThreads(threadHead: Link, ghost batch: seq<Link>, ghost ths: seq<Link>)
      requires Valid() && Locked() && queue == [] && ths != [] && Holds(held, [], ths)
      requires Ring(threadHead, ths) && threadHead !in world && threadHead != queueHead && threadHead != idleHead
      requires returned == [] && Accounted(batch, [], ths)
      modifies `idle, `held, `returned, `left, idleHead`next, idleHead`prev, world`next, world`prev
      ensures Valid() && Locked() && Value() == Shared([], ths + old(idle)) && Holds(held, [], [])
      ensures returned == ths && left == old(left) + [Value()] && Accounted(batch, [], [])
    {
      HoldsOnly(held, ths);
      HoldsNone();
      Returned(Done(), appended, batch + taken, stolen, ths);
      hide Ring, Circle, Holds, Balances, Locked;
      GiveBack(threadHead, ths);
    }

    method RefillFibers(fiberHead: Link, fs: seq<Link>, ghost threadHead: Link, ghost batch: seq<Link>, ghost ths: seq<Link>)
      requires Valid() && Locked() && queue == fs != [] && Holds(held, [], ths) && Own(fiberHead, threadHead)
      requires Ring(threadHead, ths)
      requires appended == [] && returned == [] && Accounted(batch, [], ths)
      modifies `queue, `held, `taken, `left, fiberHead`next, fiberHead`prev, queueHead`next, queueHead`prev, fs`next, fs`prev
      ensures Valid() && Value() == Shared([], old(idle)) && Holds(held, fs, ths)
      ensures Ring(fiberHead, fs) && Ring(threadHead, ths) && left == old(left) + [Value()] && Accounted(batch, fs, ths)
    {
      HeldAreOurs(held, [], ths);
      QueueIsFree(fs, ths);
      Refill(Done(), batch + taken, stolen, fs, ths);
      assert batch + taken + fs == batch + (taken + fs);
      hide Ring, Circle, Holds, Balances, Locked;
      TakeQueue(fiberHead, fs, threadHead, ths);
    }

    lemma QueueIsFree(fs: seq<Link>, ths: seq<Link>)
      requires Locked() && queue == fs && Holds(held, [], ths)
      ensures Holds(held + Members(fs), fs, ths)
    {
      RingIsDistinct(queueHead, queue);
      HoldsMore(held, queue, ths);
    }

    /** The region after the last fiber was handed over with threads left: they go back, if
        the queue is empty now, or the queue is taken and the work goes on. */
    method Recheck(fiberHead: Link, threadHead: Link, ghost batch: seq<Link>, ghost ths: seq<Link>, env: Shared<Link>)
      returns (done: bool, ghost fs': seq<Link>, ghost ths': seq<Link>)
      requires Valid() && Own(fiberHead, threadHead) && Holds(held, [], ths) && Fits(env)
      requires Ring(threadHead, ths) && ths != []
      requires appended == [] && returned == [] && Accounted(batch, [], ths)
      modifies this, world`next, world`prev, queueHead`next, queueHead`prev, idleHead`next, idleHead`prev
      modifies fiberHead`next, fiberHead`prev
      ensures Valid() && Holds(held, fs', ths') && Accounted(batch, fs', ths') && appended == []
      ensures left == old(left) + [Value()] && Region(env, Value())
      ensures done ==> fs' == [] && ths' == [] && returned == ths && Locked() && Value() == Shared([], returned + env.idle)
      ensures !done ==> fs' != [] && ths' == ths && returned == [] && Ring(fiberHead, fs') && Ring(threadHead, ths)
    {
      HeldAreOurs(held, [], ths);
      hide Ring, Circle, Holds, Balances, Region, Locked;
      AcquireHolding(env, threadHead, ths);
      done := queueHead.next == queueHead;
      if done {
        FrontRegion(idle, ths);
        ReturnThreads(threadHead, batch, ths);
        fs', ths' := [], [];
      } else {
        TakenRegion(env);
        fs', ths' := queue, ths;
        RefillFibers(fiberHead, env.queue, threadHead, batch, ths);
      }
    }

    /** The loop that starts with stolen threads in hand (src/scheduler.c:190-224): it ends
        with the threads used up and fibers left, or with no fiber left and the unused
        threads put back.  It terminates on the number of stolen, unused threads, whatever
        the other threads do. */
    method ServeThreads(fiberHead: Link, threadHead: Link, ghost batch: seq<Link>, ghost fs0: seq<Link>,
                        ghost ths0: seq<Link>, script: seq<Shared<Link>>, locks0: nat)
      returns (done: bool, fibersLeft: bool, ghost fs: seq<Link>, ghost ths: seq<Link>, locks: nat)
      requires Valid() && Own(fiberHead, threadHead) && Holds(held, fs0, ths0)
      requires Ring(fiberHead, fs0) && Ring(threadHead, ths0) && fs0 != [] && ths0 != []
      requires locks0 == |left| <= |script|
      requires appended == [] && returned == [] && Accounted(batch, fs0, ths0)
      modifies this, world`next, world`prev, queueHead`next, queueHead`prev, idleHead`next, idleHead`prev
      modifies fiberHead`next, fiberHead`prev, threadHead`next
      ensures Valid() && Holds(held, fs, ths) && (fibersLeft <==> fs != [])
      ensures locks0 <= locks <= locks0 + |ths0| && locks == |left| <= |script|
      ensures Accounted(batch, fs, ths) && appended == []
      ensures if done then fs == [] && ths == [] else fs == [] ==> ths != [] && CutOff(script, locks)
      ensures fs != [] ==> ths == [] && returned == [] && Ring(fiberHead, fs)
      ensures returned != [] ==>
                done && locks0 < locks && Locked() && Value() == left[locks - 1] == Shared([], returned + script[locks - 1].idle)
      ensures left[..locks0] == old(left)
      ensures forall i :: locks0 <= i < locks ==> Region(script[i], left[i])
    {
      hide Ring, Circle, Holds, Balances, Paired;
      done, fibersLeft, fs, ths, locks := false, true, fs0, ths0, locks0;
      while true
        invariant Valid() && Holds(held, fs, ths) && fibersLeft
        invariant Ring(fiberHead, fs) && Ring(threadHead, ths)
        invariant locks0 <= locks == |left| <= |script| && fs != [] && ths != []
        invariant locks + |ths| <= locks0 + |ths0|
        invariant appended == [] && returned == [] && Accounted(batch, fs, ths)
        invariant left[..locks0] == old(left)
        invariant forall i :: locks0 <= i < locks ==> Region(script[i], left[i])
        decreases |ths|
      {
        var threadsLeft;
        ghost var n;
        fibersLeft, threadsLeft, n := Dispatch(fiberHead, threadHead, batch, fs, ths);
        fs, ths := fs[n..], ths[n..];
        if fibersLeft { return; }
        if !threadsLeft { done := true; return; }
        if CutOff(script, locks) { return; }
        done, fs, ths := Recheck(fiberHead, threadHead, batch, ths, script[locks]);
        locks, fibersLeft := locks + 1, !done;
        if done { return; }
      }
    }

    /** The first region of a round: with no thread idle all fibers are appended, otherwise all
        idle threads are taken. */
    method Begin(fiberHead: Link, threadHead: Link, ghost batch: seq<Link>, ghost fs: seq<Link>, env: Shared<Link>)
      returns (done: bool, ghost ths: seq<Link>)
      requires Valid() && Own(fiberHead, threadHead) && Holds(held, fs, []) && Fits(env)
      requires Ring(fiberHead, fs) && fs != []
      requires appended == [] && returned == [] && Accounted(batch, fs, [])
      modifies this, world`next, world`prev, queueHead`next, queueHead`prev, idleHead`next, idleHead`prev
      modifies threadHead`next, threadHead`prev
      ensures Valid() && returned == [] && left == old(left) + [Value()] && Region(env, Value())
      ensures done ==> Holds(held, [], []) && Accounted(batch, [], []) && appended == fs
      ensures done ==> Locked() && Value() == Shared(env.queue + appended, [])
      ensures !done ==> ths != [] && Holds(held, fs, ths) && Accounted(batch, fs, ths) && appended == []
      ensures !done ==> Ring(fiberHead, fs) && Ring(threadHead, ths)
    {
      HeldAreOurs(held, fs, []);
      hide Ring, Circle, Holds, Balances, Region, Locked;
      AcquireHolding(env, fiberHead, fs);
      done := idleHead.next == idleHead;
      BeginRegion(env, fs);
      if done {
        AppendAll(fiberHead, batch, fs);
        ths := [];
      } else {
        ths := idle;
        StealThreads(fiberHead, threadHead, env.idle, batch, fs);
      }
    }

    method AppendAll(fiberHead: Link, ghost batch: seq<Link>, ghost fs: seq<Link>)
      requires Valid() && Locked() && idle == [] && fs != [] && Holds(held, fs, [])
      requires Ring(fiberHead, fs) && fiberHead !in world && fiberHead != queueHead && fiberHead != idleHead
      requires appended == [] && Accounted(batch, fs, [])
      modifies `queue, `held, `appended, `left, queueHead`next, queueHead`prev, world`next, world`prev
      ensures Valid() && Locked() && Value() == Shared(old(queue) + fs, []) && Holds(held, [], [])
      ensures appended == fs && left == old(left) + [Value()] && Accounted(batch, [], [])
    {
      HoldsOnly(held, fs);
      HoldsNone();
      Appended(Done(), returned, batch + taken, stolen, fs);
      hide Ring, Circle, Holds, Balances, Locked;
      AppendFibers(fiberHead, fs);
    }

    method StealThreads(ghost fiberHead: Link, threadHead: Link, ths: seq<Link>, ghost batch: seq<Link>, ghost fs: seq<Link>)
      requires Valid() && Locked() && idle == ths != [] && Holds(held, fs, []) && Own(fiberHead, threadHead)
      requires Ring(fiberHead, fs)
      requires appended == [] && returned == [] && Accounted(batch, fs, [])
      modifies `idle, `held, `stolen, `left, threadHead`next, threadHead`prev, idleHead`next, idleHead`prev, ths`next, ths`prev
      ensures Valid() && Value() == Shared(old(queue), []) && Holds(held, fs, ths)
      ensures Ring(fiberHead, fs) && Ring(threadHead, ths) && left == old(left) + [Value()] && Accounted(batch, fs, ths)
    {
      HeldAreOurs(held, fs, []);
      IdleAreFree(fs, ths);
      Stolen(Done(), batch + taken, stolen, fs, ths);
      hide Ring, Circle, Holds, Balances, Locked;
      TakeIdle(threadHead, ths, fiberHead, fs);
    }

    lemma IdleAreFree(fs: seq<Link>, ths: seq<Link>)
      requires Locked() && idle == ths && Holds(held, fs, [])
      ensures Holds(held + Members(ths), fs, ths)
    {
      RingIsDistinct(idleHead, idle);
      HoldsMore(held, ths, fs);
    }

    /** Every region so far was one of the four. */
    ghost predicate Logged(script: seq<Shared<Link>>)
      reads this
    {
      |left| <= |script| && forall i :: 0 <= i < |left| ==> Region(script[i], left[i])
    }

    /** What was put on the queue, or back on the idle list, is there when the lock is
        released for the last time. */
    ghost predicate Delivered(script: seq<Shared<Link>>)
      reads this, queueHead, idleHead, queue, idle
    {
      && (appended == [] || returned == [])
      && (appended != [] || returned != [] ==>
            && 0 < |left| <= |script| && Locked() && Value() == left[|left| - 1]
            && var env := script[|left| - 1];
               Value() == if appended != [] then Shared(env.queue + appended, []) else Shared([], returned + env.idle))
    }

    /** One round of the outer loop. */
    method Round(fiberHead: Link, threadHead: Link, ghost batch: seq<Link>, ghost fs0: seq<Link>,
                 script: seq<Shared<Link>>, locks0: nat)
      returns (done: bool, fibersLeft: bool, ghost fs: seq<Link>, ghost ths: seq<Link>, locks: nat)
      requires Valid() && Own(fiberHead, threadHead) && Holds(held, fs0, []) && Ring(fiberHead, fs0) && fs0 != []
      requires !CutOff(script, locks0) && locks0 == |left| && Logged(script)
      requires appended == [] && returned == [] && Accounted(batch, fs0, [])
      modifies this, world`next, world`prev, queueHead`next, queueHead`prev, idleHead`next, idleHead`prev
      modifies fiberHead`next, fiberHead`prev, threadHead`next, threadHead`prev
      ensures Valid() && Holds(held, fs, ths) && Accounted(batch, fs, ths) && (fibersLeft <==> fs != [])
      ensures Logged(script) && locks0 < locks == |left|
      ensures if done then fs == [] && ths == [] else fs == [] ==> ths != [] && CutOff(script, locks)
      ensures fibersLeft ==> ths == [] && appended == [] && returned == [] && Ring(fiberHead, fs)
      ensures Delivered(script)
    {
      hide Ring, Circle, Holds, Balances, Region, Fits, Locked;
      done, ths := Begin(fiberHead, threadHead, batch, fs0, script[locks0]);
      fs, fibersLeft, locks := fs0, true, locks0 + 1;
      if done {
        fs, ths, fibersLeft := [], [], false;
      } else {
        done, fibersLeft, fs, ths, locks := ServeThreads(fiberHead, threadHead, batch, fs, ths, script, locks);
        LogGrows(script, left, locks0 + 1);
      }
    }

    /** enqueue_fiber_list.  Nothing is lost, duplicated or reordered: the fibers received
        and re-taken, in that order, are those handed to threads followed by those put on
        the queue; the threads stolen, in order, are those handed a fiber and signalled
        followed by those put back idle.  `done` is false only when the script is cut off,
        and then the account still balances with what is held, and that is what the two
        private lists are the circles of. */
    method EnqueueFiberList(fiberHead: Link, threadHead: Link, ghost batch: seq<Link>, script: seq<Shared<Link>>)
      returns (done: bool, ghost fs: seq<Link>, ghost ths: seq<Link>, locks: nat)
      requires Valid() && Own(fiberHead, threadHead) && Holds(held, batch, []) && Ring(fiberHead, batch)
      requires gifts == [] && signals == [] && taken == [] && appended == []
      requires stolen == [] && returned == [] && left == []
      modifies this, world`next, world`prev, queueHead`next, queueHead`prev, idleHead`next, idleHead`prev
      modifies fiberHead`next, fiberHead`prev, threadHead`next, threadHead`prev
      ensures Valid() && Holds(held, fs, ths) && locks == |left|
      ensures if done then fs == [] && ths == [] else CutOff(script, locks) && (fs == [] <==> ths != [])
      ensures Accounted(batch, fs, ths)
      ensures Logged(script) && Delivered(script)
      ensures !done && fs != [] ==> Ring(fiberHead, fs)
    {
      StartBalanced(batch);
      EmptyRing(fiberHead, batch);
      hide Ring, Circle, Holds, Balances, Region, Fits, Locked;
      done, fs, ths, locks := false, batch, [], 0;
      var fibersLeft := fiberHead.next != fiberHead;
      while fibersLeft
        invariant Valid() && Holds(held, fs, []) && (fibersLeft <==> fs != []) && (fs != [] ==> Ring(fiberHead, fs))
        invariant !done && locks == |left| && ths == [] && Logged(script)
        invariant appended == [] && returned == [] && Accounted(batch, fs, [])
        decreases |script| - locks
      {
        if CutOff(script, locks) { return; }
        done, fibersLeft, fs, ths, locks := Round(fiberHead, threadHead, batch, fs, script, locks);
        if !fibersLeft { return; }
        assert !done;
      }
      done := true;
    }
  }

  lemma LogGrows(script: seq<Shared<Link>>, left: seq<Shared<Link>>, n: nat)
    requires n <= |left| <= |script| && forall i :: 0 <= i < n ==> Region(script[i], left[..n][i])
    requires forall i :: n <= i < |left| ==> Region(script[i], left[i])
    ensures forall i :: 0 <= i < |left| ==> Region(script[i], left[i])
  {
    assert forall i :: 0 <= i < n ==> left[..n][i] == left[i];
  }

  lemma BeginRegion(env: Shared<Link>, fs: seq<Link>)
    ensures env.idle == [] ==> Region(env, Shared(env.queue + fs, []))
    ensures env.idle != [] ==> Region(env, Shared(env.queue, []))
  {}

  lemma StartBalanced(batch: seq<Link>)
    ensures Balances(Work([], [], map[]), [], [], batch + [], [], batch, [])
    ensures forall slot :: Balances(Work([], [], slot), [], [], batch + [], [], batch, [])
  {
    assert Fibers<Link>([]) == [] && Threads<Link>([]) == [];
  }

  lemma Appended(d: Work, returned: seq<Link>, got: seq<Link>, stolen: seq<Link>, fs: seq<Link>)
    requires Balances(d, [], returned, got, stolen, fs, [])
    ensures Balances(d, fs, returned, got, stolen, [], [])
  {
    assert Fibers(d.gifts) + [] + fs == Fibers(d.gifts) + fs + [];
  }

  lemma Stolen(d: Work, got: seq<Link>, stolen: seq<Link>, fs: seq<Link>, ths: seq<Link>)
    requires Balances(d, [], [], got, stolen, fs, [])
    ensures Balances(d, [], [], got, stolen + ths, fs, ths)
  {
    assert Threads(d.gifts) + [] + [] == Threads(d.gifts) && Threads(d.gifts) + [] == Threads(d.gifts);
  }

  lemma TakenRegion(env: Shared<Link>)
    requires env.queue != []
    ensures Region(env, Shared([], env.idle))
  {}

  lemma FrontRegion(idle: seq<Link>, ths: seq<Link>)
    ensures Region(Shared([], idle), Shared([], ths + idle))
  {
    assert (ths + idle)[|ths + idle| - |idle|..] == idle;
  }

  lemma HoldsNone()
    ensures Holds({}, [], [])
  {}

  lemma HoldsOnly(held: set<Link>, ths: seq<Link>)
    requires Holds(held, [], ths) || Holds(held, ths, [])
    ensures Members(ths) == held
  {}

  lemma HoldsMore(held: set<Link>, fs: seq<Link>, ths: seq<Link>)
    requires Distinct(fs) && Members(fs) !! held
    ensures Holds(held, [], ths) ==> Holds(held + Members(fs), fs, ths)
    ensures Holds(held, ths, []) ==> Holds(held + Members(fs), ths, fs)
  {}

  /** The threads that were still held are put back. */
  lemma Returned(d: Work, appended: seq<Link>, got: seq<Link>, stolen: seq<Link>, ths: seq<Link>)
    requires Balances(d, appended, [], got, stolen, [], ths)
    ensures Balances(d, appended, ths, got, stolen, [], [])
  {
    assert Threads(d.gifts) + [] + ths == Threads(d.gifts) + ths + [];
  }

  /** Taking the queue over keeps the account balanced. */
  lemma Refill(d: Work, got: seq<Link>, stolen: seq<Link>, more: seq<Link>, ths: seq<Link>)
    requires Balances(d, [], [], got, stolen, [], ths)
    ensures Balances(d, [], [], got + more, stolen, more, ths)
  {
    assert Fibers(d.gifts) + [] + [] == Fibers(d.gifts) && Fibers(d.gifts) + [] == Fibers(d.gifts);
  }

  lemma MembersAre(ns: seq<Link>)
    ensures forall n :: n in ns <==> n in Members(ns)
  {}

  lemma MembersSum(a: seq<Link>, b: seq<Link>)
    ensures Members(a + b) == Members(a) + Members(b)
  {}

  lemma HeldAreOurs(held: set<Link>, fs: seq<Link>, ths: seq<Link>)
    requires Holds(held, fs, ths)
    ensures forall n :: n in fs || n in ths ==> n in held
  {}

  /** Pairing keeps the account. */
  lemma PairedAccount(d: Work, got: seq<Link>, stolen: seq<Link>, fs: seq<Link>, ths: seq<Link>, n: nat)
    requires n <= |fs| && n <= |ths| && Balances(d, [], [], got, stolen, fs, ths)
    ensures Balances(Paired(d, ths[..n], fs[..n]), [], [], got, stolen, fs[n..], ths[n..])
  {
    ZipSplits(d.gifts, ths[..n], fs[..n]);
    assert fs[..n] + fs[n..] == fs && ths[..n] + ths[n..] == ths;
    Balanced(Fibers(d.gifts), fs[..n], fs[n..], got);
    Balanced(Threads(d.gifts), ths[..n], ths[n..], stolen);
  }

  lemma NonePaired(d: Work, fs: seq<Link>, ths: seq<Link>)
    ensures Paired(d, ths[..0], fs[..0]) == d
  {}

  lemma OneMorePaired(d: Work, fs: seq<Link>, ths: seq<Link>, n: nat)
    requires n < |fs| && n < |ths|
    ensures
      var e := Paired(d, ths[..n], fs[..n]);
      Paired(d, ths[..n + 1], fs[..n + 1])
      == Work(e.gifts + [Gift(ths[n], fs[n])], e.signals + [ths[n]], e.slot[ths[n] := fs[n]])
  {
    assert Zip(ths[..n + 1], fs[..n + 1]) == Zip(ths[..n], fs[..n]) + [Gift(ths[n], fs[n])];
    WrittenAppend(d.slot, Zip(ths[..n], fs[..n]), Gift(ths[n], fs[n]));
  }

  lemma HoldsNext(held: set<Link>, fs: seq<Link>, ths: seq<Link>, n: nat)
    requires n < |fs| && n < |ths| && Holds(held, fs[n..], ths[n..])
    ensures fs[n] in held && ths[n] in held && Holds(held - {ths[n], fs[n]}, fs[n + 1..], ths[n + 1..])
    ensures forall i :: n < i < |fs| ==> fs[i] in held - {ths[n], fs[n]}
    ensures forall i :: n < i < |ths| ==> ths[i] in held - {ths[n], fs[n]}
  {
    assert fs[n..][1..] == fs[n + 1..] && ths[n..][1..] == ths[n + 1..] && fs[n..][0] == fs[n] && ths[n..][0] == ths[n];
    FirstIsOut(fs[n..]);
    FirstIsOut(ths[n..]);
    forall i | n < i < |fs|
      ensures fs[i] in Members(fs[n + 1..])
    {
      assert fs[i] == fs[n + 1..][i - n - 1];
    }
    forall i | n < i < |ths|
      ensures ths[i] in Members(ths[n + 1..])
    {
      assert ths[i] == ths[n + 1..][i - n - 1];
    }
  }

  lemma EmptyRing(head: Link, ns: seq<Link>)
    requires Ring(head, ns)
    ensures head.next == head <==> ns == []
  {
    RingJoins(head, ns, 0);
  }

  lemma FirstIsOut(ns: seq<Link>)
    requires Distinct(ns) && ns != []
    ensures Members(ns[1..]) == Members(ns) - {ns[0]}
  {}

  lemma AppendedLast(ns: seq<Link>, x: Link)
    ensures Insert(ns, |ns|, x) == ns + [x] && Members(ns + [x]) == Members(ns) + {x}
  {}
}
