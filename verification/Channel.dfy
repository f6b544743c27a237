/**
 The rendezvous channel (src/channel.c): any number of fibers sending, receiving and closing,
 one access to the channel or to another fiber's item per step.  A value is copied straight
 between the stacks of the two fibers that meet.
 */
module Channel {

  type Tid = nat

  const INIT: int := -1
  const SUCCESS: int := 0
  const CLOSED: int := 1
  const DESTROY: int := 2

  /** What a fiber does next.  A suspended fiber is parked, its item in one of the channel's
      lists, or held by the fiber that took the item off.  The fiber that took an item copies
      the value, sets the item's state and switches; one that closes or destroys marks all the
      items it took and wakes their fibers. */
  datatype Pc =
    | Idle
    | Entered
    | CloseEntered
    | Parked
    | Held(holder: Tid)
    | Copying(partner: Tid)
    | Marking(partner: Tid)
    | Switching(partner: Tid)
    | Cancelling(items: seq<Tid>, base: nat, done: nat, status: int)
    | Waking(items: seq<Tid>, base: nat, done: nat)
    | Returned(status: int)

  /** A fiber with the item of its current call: the buffer and the state.  History: the call's
      place among the accepted sends or receives. */
  datatype Fiber = Fiber(pc: Pc, sends: bool, data: int, state: int, ticket: nat)

  datatype Sent = Sent(sender: Tid, value: int)

  /** The channel and the fibers.  History: the accepted sends and receives in the order of the
      lock, less those that a close or a destroy cancelled, and the values copied. */
  datatype State = State(fibers: seq<Fiber>, ritems: seq<Tid>, witems: seq<Tid>, closed: bool, freed: bool,
                         sent: seq<Sent>, received: seq<Tid>, got: map<nat, int>)
  {
    function Goto(t: Tid, pc: Pc): State
      requires t < |fibers|
    {
      this.(fibers := fibers[t := fibers[t].(pc := pc)])
    }
  }

  function Init(n: nat): State {
    State(seq(n, i => Fiber(Idle, false, 0, INIT, 0)), [], [], false, false, [], [], map[])
  }

  // ------------------------------------------------------------ the steps

  /** `t` has taken the item of `p` off the channel, as the two sides of exchange `k`. */
  function Meet(fs: seq<Fiber>, t: Tid, p: Tid, k: nat): seq<Fiber>
    requires t < |fs|
  {
    var gs := if p < |fs| then fs[p := fs[p].(pc := Held(t))] else fs;
    gs[t := gs[t].(pc := Copying(p), ticket := k)]
  }

  function Park(fs: seq<Fiber>, t: Tid, k: nat): seq<Fiber>
    requires t < |fs|
  {
    fs[t := fs[t].(pc := Parked, ticket := k)]
  }

  /** The unlocked look at `closed`. */
  function BeginSend(s: State, t: Tid, v: int): (s': State)
    requires t < |s.fibers|
    ensures |s'.fibers| == |s.fibers|
  {
    s.(fibers := s.fibers[t := Fiber(if s.closed then Returned(CLOSED) else Entered, true, v, INIT, 0)])
  }

  function SendLocked(s: State, t: Tid): (s': State)
    requires t < |s.fibers|
    ensures |s'.fibers| == |s.fibers|
  {
    if s.closed then s.Goto(t, Returned(CLOSED))
    else
      var k, s' := |s.sent|, s.(sent := s.sent + [Sent(t, s.fibers[t].data)]);
      if s.ritems != [] then s'.(ritems := s.ritems[1..], fibers := Meet(s.fibers, t, s.ritems[0], k))
      else s'.(witems := s.witems + [t], fibers := Park(s.fibers, t, k))
  }

  function ReceiveLocked(s: State, t: Tid): (s': State)
    requires t < |s.fibers|
    ensures |s'.fibers| == |s.fibers|
  {
    var k, fs := |s.received|, s.fibers[t := s.fibers[t].(sends := false, state := INIT)];
    if s.witems == [] then
      if !s.closed then s.(ritems := s.ritems + [t], received := s.received + [t], fibers := Park(fs, t, k))
      else s.(fibers := fs[t := fs[t].(pc := Returned(CLOSED))])
    else
      s.(witems := s.witems[1..], received := s.received + [t], fibers := Meet(fs, t, s.witems[0], k))
  }

  function BeginClose(s: State, t: Tid): (s': State)
    requires t < |s.fibers|
    ensures |s'.fibers| == |s.fibers|
  {
    s.Goto(t, if s.closed then Idle else CloseEntered)
  }

  /** `t` holds whoever is parked on one side. */
  function HoldParked(fs: seq<Fiber>, t: Tid, senders: bool): seq<Fiber> {
    seq(|fs|, u requires 0 <= u < |fs| =>
      if fs[u].pc == Parked && fs[u].sends == senders then fs[u].(pc := Held(t)) else fs[u])
  }

  /** All parked readers are taken off; the receives they had begun are off the record. */
  function TakeReaders(s: State, t: Tid, status: int, freed: bool): (s': State)
    requires t < |s.fibers|
    ensures |s'.fibers| == |s.fibers|
  {
    var fs := HoldParked(s.fibers, t, false);
    s.(ritems := [], closed := true, freed := freed,
       received := if |s.sent| < |s.received| then s.received[..|s.sent|] else s.received,
       fibers := fs[t := fs[t].(pc := Cancelling(s.ritems, |s.sent|, 0, status))])
  }

  function TakeWriters(s: State, t: Tid, status: int, freed: bool): (s': State)
    requires t < |s.fibers|
    ensures |s'.fibers| == |s.fibers|
  {
    var fs := HoldParked(s.fibers, t, true);
    s.(witems := [], closed := true, freed := freed,
       sent := if |s.received| < |s.sent| then s.sent[..|s.received|] else s.sent,
       fibers := fs[t := fs[t].(pc := Cancelling(s.witems, |s.received|, 0, status))])
  }

  function CloseLocked(s: State, t: Tid): (s': State)
    requires t < |s.fibers|
    ensures |s'.fibers| == |s.fibers|
  {
    if s.closed then s.Goto(t, Idle) else TakeReaders(s, t, CLOSED, s.freed)
  }

  /** Readers if there are any, otherwise writers. */
  function DestroyLocked(s: State, t: Tid): (s': State)
    requires t < |s.fibers|
    ensures |s'.fibers| == |s.fibers|
  {
    if s.ritems != [] then TakeReaders(s, t, DESTROY, true)
    else if s.witems != [] then TakeWriters(s, t, DESTROY, true)
    else s.(closed := true, freed := true).Goto(t, Cancelling([], 0, 0, DESTROY))
  }

  /** memcpy from the sender's buffer to the receiver's. */
  function Copy(s: State, t: Tid, p: Tid): (s': State)
    requires t < |s.fibers| && p < |s.fibers|
    ensures |s'.fibers| == |s.fibers|
  {
    var v := if s.fibers[t].sends then s.fibers[t].data else s.fibers[p].data;
    var fs := if s.fibers[t].sends then s.fibers[p := s.fibers[p].(data := v)] else s.fibers[t := s.fibers[t].(data := v)];
    s.(fibers := fs[t := fs[t].(pc := Marking(p))], got := s.got[s.fibers[t].ticket := v])
  }

  function SetState(s: State, p: Tid, status: int): (s': State)
    requires p < |s.fibers|
    ensures |s'.fibers| == |s.fibers|
  {
    s.(fibers := s.fibers[p := s.fibers[p].(state := status)])
  }

  /** The switch to the partner, which returns its item's state; the deferred call that runs
      there first has made `t` itself runnable. */
  function SwitchTo(s: State, t: Tid, p: Tid): (s': State)
    requires t < |s.fibers| && p < |s.fibers|
    ensures |s'.fibers| == |s.fibers|
  {
    s.Goto(p, Returned(s.fibers[p].state)).Goto(t, Returned(SUCCESS))
  }

  function CancelNext(s: State, t: Tid, pc: Pc): (s': State)
    requires t < |s.fibers| && pc.Cancelling?
    ensures |s'.fibers| == |s.fibers|
  {
    if pc.done < |pc.items| && pc.items[pc.done] < |s.fibers| then
      SetState(s, pc.items[pc.done], pc.status).Goto(t, Cancelling(pc.items, pc.base, pc.done + 1, pc.status))
    else s.Goto(t, Waking(pc.items, pc.base, 0))
  }

  function WakeNext(s: State, t: Tid, pc: Pc): (s': State)
    requires t < |s.fibers| && pc.Waking?
    ensures |s'.fibers| == |s.fibers|
  {
    if pc.done < |pc.items| && pc.items[pc.done] < |s.fibers| then
      var u := pc.items[pc.done];
      s.Goto(u, Returned(s.fibers[u].state)).Goto(t, Waking(pc.items, pc.base, pc.done + 1))
    else s.Goto(t, Idle)
  }

  datatype Op = Send(value: int) | Receive | Close | Destroy

  /** Fiber `u` is in a call that still uses the channel: before its locked region, or, having
      left that, copying as many bytes as the channel says an item has. */
  predicate Uses(s: State, u: Tid) {
    u < |s.fibers| && (s.fibers[u].pc == Entered || s.fibers[u].pc == CloseEntered || s.fibers[u].pc.Copying?)
  }

  predicate Quiet(s: State) {
    forall u :: 0 <= u < |s.fibers| ==> !Uses(s, u)
  }

  /** A fiber between calls starts `op`.  A channel that is freed is not used any more, and
      it is destroyed when no call uses it. */
  function Begin(s: State, t: Tid, op: Op): (s': State)
    requires t < |s.fibers|
    ensures |s'.fibers| == |s.fibers|
  {
    if s.freed then s else
    match op
    case Send(v) => BeginSend(s, t, v)
    case Receive => ReceiveLocked(s, t)
    case Close => BeginClose(s, t)
    case Destroy => if Quiet(s) then DestroyLocked(s, t) else s
  }

  function Step(s: State, t: Tid, op: Op): (s': State)
    ensures |s'.fibers| == |s.fibers|
  {
    if t >= |s.fibers| then s else
    var pc := s.fibers[t].pc;
    match pc
    case Idle => Begin(s, t, op)
    case Returned(_) => Begin(s, t, op)
    case Entered => SendLocked(s, t)
    case CloseEntered => CloseLocked(s, t)
    case Parked => s
    case Held(_) => s
    case Copying(p) => if p < |s.fibers| then Copy(s, t, p) else s
    case Marking(p) => if p < |s.fibers| then SetState(s, p, SUCCESS).Goto(t, Switching(p)) else s
    case Switching(p) => if p < |s.fibers| then SwitchTo(s, t, p) else s
    case Cancelling(_, _, _, _) => CancelNext(s, t, pc)
    case Waking(_, _, _) => WakeNext(s, t, pc)
  }

  datatype Turn = Turn(fiber: Tid, op: Op)

  function Run(n: nat, turns: seq<Turn>): (s: State)
    ensures |s.fibers| == n
  {
    if turns == [] then Init(n)
    else
      var last := turns[|turns| - 1];
      Step(Run(n, turns[..|turns| - 1]), last.fiber, last.op)
  }

  // ------------------------------------------------------------ what every step keeps

  ghost predicate IsSend(s: State, k: nat, t: Tid) {
    k < |s.sent| && t < |s.fibers| && s.sent[k] == Sent(t, s.fibers[t].data)
  }

  ghost predicate IsReceive(s: State, k: nat, t: Tid) {
    k < |s.received| && s.received[k] == t
  }

  /** Exchange `k` has put its value in the buffer of `r`. */
  ghost predicate Delivered(s: State, k: nat, r: Tid) {
    && k < |s.sent| && r < |s.fibers| && s.fibers[r].data == s.sent[k].value
    && k in s.got && s.got[k] == s.sent[k].value
  }

  /** `t` holds `p`, and they are the two sides of one exchange. */
  ghost predicate PairOk(s: State, t: Tid, p: Tid) {
    && t < |s.fibers| && p < |s.fibers|
    && var f, g := s.fibers[t], s.fibers[p];
    && g.pc == Held(t) && g.ticket == f.ticket && g.sends != f.sends
    && (if f.sends then IsSend(s, f.ticket, t) && IsReceive(s, f.ticket, p)
        else IsSend(s, f.ticket, p) && IsReceive(s, f.ticket, t))
  }

  ghost function Receiver(s: State, t: Tid, p: Tid): Tid
    requires t < |s.fibers|
  {
    if s.fibers[t].sends then p else t
  }

  ghost predicate ItemOk(s: State, t: Tid, items: seq<Tid>, base: nat, j: int, state: int) {
    0 <= j < |items| ==>
      && items[j] < |s.fibers|
      && s.fibers[items[j]].pc == Held(t) && s.fibers[items[j]].state == state
      && s.fibers[items[j]].ticket == base + j
  }

  ghost predicate CancelItemOk(s: State, t: Tid, pc: Pc, j: int)
    requires pc.Cancelling?
  {
    ItemOk(s, t, pc.items, pc.base, j, if j < pc.done then pc.status else INIT)
  }

  ghost predicate CancelOk(s: State, t: Tid, pc: Pc)
    requires pc.Cancelling?
  {
    && (pc.status == CLOSED || pc.status == DESTROY) && pc.done <= |pc.items|
    && forall j :: CancelItemOk(s, t, pc, j)
  }

  ghost predicate WakeItemOk(s: State, t: Tid, items: seq<Tid>, base: nat, j: int) {
    ItemOk(s, t, items, base, j, CLOSED) || ItemOk(s, t, items, base, j, DESTROY)
  }

  ghost predicate WakeOk(s: State, t: Tid, pc: Pc)
    requires pc.Waking?
  {
    pc.done <= |pc.items| && forall j :: pc.done <= j ==> WakeItemOk(s, t, pc.items, pc.base, j)
  }

  /** `h` is about to resume the held fiber `u`. */
  ghost predicate Holds(s: State, h: Tid, u: Tid) {
    && h < |s.fibers| && u < |s.fibers|
    && var k := s.fibers[u].ticket;
    match s.fibers[h].pc
    case Copying(p) => p == u
    case Marking(p) => p == u
    case Switching(p) => p == u
    case Cancelling(items, base, done, _) => base <= k < base + |items| && items[k - base] == u
    case Waking(items, base, done) => base + done <= k < base + |items| && items[k - base] == u
    case _ => false
  }

  ghost predicate ParkedOk(s: State, t: Tid) {
    && t < |s.fibers|
    && var f := s.fibers[t];
    && f.state == INIT
    && (if f.sends then |s.received| <= f.ticket && IsSend(s, f.ticket, t)
        else |s.sent| <= f.ticket && IsReceive(s, f.ticket, t))
  }

  ghost predicate ReturnedOk(s: State, t: Tid, status: int) {
    && t < |s.fibers|
    && var f := s.fibers[t];
    && (status == SUCCESS || status == CLOSED || status == DESTROY)
    && (status == SUCCESS && f.sends ==>
          IsSend(s, f.ticket, t) && f.ticket < |s.received| && f.ticket in s.got && s.got[f.ticket] == f.data)
    && (status == SUCCESS && !f.sends ==> IsReceive(s, f.ticket, t) && Delivered(s, f.ticket, t))
  }

  ghost predicate FiberOk(s: State, t: Tid) {
    t < |s.fibers| ==>
    match s.fibers[t].pc
    case Idle => true
    case Entered => s.fibers[t].sends && s.fibers[t].state == INIT && !s.freed
    case CloseEntered => !s.freed
    case Parked => ParkedOk(s, t)
    case Held(h) => Holds(s, h, t)
    case Copying(p) => PairOk(s, t, p) && s.fibers[p].state == INIT && !s.freed
    case Marking(p) =>
      PairOk(s, t, p) && s.fibers[p].state == INIT && Delivered(s, s.fibers[t].ticket, Receiver(s, t, p))
    case Switching(p) =>
      PairOk(s, t, p) && s.fibers[p].state == SUCCESS && Delivered(s, s.fibers[t].ticket, Receiver(s, t, p))
    case Cancelling(_, _, _, _) => CancelOk(s, t, s.fibers[t].pc)
    case Waking(_, _, _) => WakeOk(s, t, s.fibers[t].pc)
    case Returned(status) => ReturnedOk(s, t, status)
  }

  /** Fiber `t` is parked with place `k`. */
  ghost predicate ParkedAt(s: State, t: Tid, k: nat, sends: bool) {
    t < |s.fibers| && s.fibers[t].pc == Parked && s.fibers[t].ticket == k && s.fibers[t].sends == sends
  }

  /** The lists are the accepted calls without a partner, in order. */
  ghost predicate ReaderAt(s: State, k: int) {
    |s.sent| <= k < |s.received| ==>
      k - |s.sent| < |s.ritems| && s.ritems[k - |s.sent|] == s.received[k] && ParkedAt(s, s.received[k], k, false)
  }

  ghost predicate WriterAt(s: State, k: int) {
    |s.received| <= k < |s.sent| ==>
      && k - |s.received| < |s.witems| && s.witems[k - |s.received|] == s.sent[k].sender
      && ParkedAt(s, s.sent[k].sender, k, true)
  }

  ghost predicate ListsOk(s: State) {
    && |s.ritems| == (if |s.sent| < |s.received| then |s.received| - |s.sent| else 0)
    && |s.witems| == (if |s.received| < |s.sent| then |s.sent| - |s.received| else 0)
    && (forall k :: ReaderAt(s, k))
    && (forall k :: WriterAt(s, k))
  }

  ghost predicate GotOk(s: State, k: nat) {
    k in s.got ==> k < |s.sent| && k < |s.received| && s.got[k] == s.sent[k].value
  }

  ghost predicate Inv(s: State) {
    && ListsOk(s) && (forall k :: GotOk(s, k)) && (forall t :: FiberOk(s, t))
    && (s.closed ==> |s.received| <= |s.sent|)
    && (s.freed ==> s.closed && |s.received| == |s.sent|)
  }

  // ------------------------------------------------------------ fibers a step does not concern

  /** The exchanges that have both sides stay. */
  ghost predicate KeptAt(s: State, s': State, k: nat) {
    && (k < |s.sent| && k < |s.received| ==>
          k < |s'.sent| && k < |s'.received| && s'.sent[k] == s.sent[k] && s'.received[k] == s.received[k])
    && (k in s.got ==> k in s'.got && s'.got[k] == s.got[k])
  }

  ghost predicate Kept(s: State, s': State) {
    |s'.fibers| == |s.fibers| && forall k :: KeptAt(s, s', k)
  }

  /** Fiber `v`, if `u` holds it, is as it was. */
  ghost predicate SameIfHeld(s: State, s': State, u: Tid, v: Tid) {
    v < |s.fibers| && v < |s'.fibers| && s.fibers[v].pc == Held(u) ==> s'.fibers[v] == s.fibers[v]
  }

  ghost predicate Untouched(s: State, s': State, u: Tid) {
    && u < |s.fibers| && u < |s'.fibers| && s'.fibers[u] == s.fibers[u]
    && (forall v :: SameIfHeld(s, s', u, v))
    && (s.fibers[u].pc.Held? ==> Holds(s', s.fibers[u].pc.holder, u))
    && (s.fibers[u].pc == Parked ==> ParkedOk(s', u))
    && (Uses(s, u) ==> s'.freed == s.freed)
  }

  lemma StillPair(s: State, s': State, u: Tid, p: Tid)
    requires PairOk(s, u, p) && Kept(s, s') && Untouched(s, s', u)
    ensures PairOk(s', u, p) && s'.fibers[p] == s.fibers[p]
  {
    assert SameIfHeld(s, s', u, p) && KeptAt(s, s', s.fibers[u].ticket);
  }

  lemma StillDelivered(s: State, s': State, k: nat, r: Tid)
    requires Delivered(s, k, r) && IsReceive(s, k, r) && Kept(s, s') && s'.fibers[r] == s.fibers[r]
    ensures Delivered(s', k, r)
  {
    assert KeptAt(s, s', k);
  }

  lemma StillReturned(s: State, s': State, u: Tid, status: int)
    requires ReturnedOk(s, u, status) && Kept(s, s') && s'.fibers[u] == s.fibers[u]
    ensures ReturnedOk(s', u, status)
  {
    assert KeptAt(s, s', s.fibers[u].ticket);
  }

  lemma StillItem(s: State, s': State, u: Tid, items: seq<Tid>, base: nat, j: int, state: int)
    requires ItemOk(s, u, items, base, j, state) && Kept(s, s') && Untouched(s, s', u)
    ensures ItemOk(s', u, items, base, j, state)
  {
    if 0 <= j < |items| {
      assert SameIfHeld(s, s', u, items[j]);
    }
  }

  lemma StillCancelling(s: State, s': State, u: Tid, pc: Pc)
    requires pc.Cancelling? && CancelOk(s, u, pc) && Kept(s, s') && Untouched(s, s', u)
    ensures CancelOk(s', u, pc)
  {
    forall j
      ensures CancelItemOk(s', u, pc, j)
    {
      assert CancelItemOk(s, u, pc, j);
      StillItem(s, s', u, pc.items, pc.base, j, if j < pc.done then pc.status else INIT);
    }
  }

  lemma StillWaking(s: State, s': State, u: Tid, pc: Pc)
    requires pc.Waking? && WakeOk(s, u, pc) && Kept(s, s') && Untouched(s, s', u)
    ensures WakeOk(s', u, pc)
  {
    forall j | pc.done <= j
      ensures WakeItemOk(s', u, pc.items, pc.base, j)
    {
      assert WakeItemOk(s, u, pc.items, pc.base, j);
      StillItem(s, s', u, pc.items, pc.base, j, if ItemOk(s, u, pc.items, pc.base, j, CLOSED) then CLOSED else DESTROY);
    }
  }

  lemma StillOk(s: State, s': State, u: Tid)
    requires FiberOk(s, u) && Kept(s, s') && Untouched(s, s', u)
    ensures FiberOk(s', u)
  {
    hide PairOk, Delivered, ReturnedOk, CancelOk, WakeOk, Kept;
    match s.fibers[u].pc
    case Copying(p) => StillPair(s, s', u, p);
    case Marking(p) => StillExchange(s, s', u, p);
    case Switching(p) => StillExchange(s, s', u, p);
    case Cancelling(_, _, _, _) => StillCancelling(s, s', u, s.fibers[u].pc);
    case Waking(_, _, _) => StillWaking(s, s', u, s.fibers[u].pc);
    case Returned(status) => StillReturned(s, s', u, status);
    case _ =>
  }

  lemma StillExchange(s: State, s': State, u: Tid, p: Tid)
    requires PairOk(s, u, p) && Delivered(s, s.fibers[u].ticket, Receiver(s, u, p)) && Kept(s, s') && Untouched(s, s', u)
    ensures PairOk(s', u, p) && s'.fibers[p] == s.fibers[p]
    ensures Delivered(s', s.fibers[u].ticket, Receiver(s, u, p))
  {
    StillPair(s, s', u, p);
    StillDelivered(s, s', s.fibers[u].ticket, Receiver(s, u, p));
  }

  // ------------------------------------------------------------ steps that concern one fiber

  /** Neither suspended nor holding anybody. */
  predicate Alone(s: State, t: Tid) {
    t < |s.fibers| && var pc := s.fibers[t].pc;
    pc == Idle || pc == Entered || pc == CloseEntered || pc.Returned?
  }

  /** An uninvolved fiber while only alone or parked fibers, and those held by others, change. */
  ghost predicate SameUnless(s: State, s': State, t: Tid, p: Tid, v: Tid) {
    v < |s.fibers| ==> v < |s'.fibers| && (v == t || v == p || s'.fibers[v] == s.fibers[v])
  }

  lemma SoloInv(s: State, t: Tid, f: Fiber)
    requires Inv(s) && Alone(s, t)
    requires s.freed ==> f.pc != CloseEntered && f.pc != Entered
    requires f.pc == Idle || f.pc == CloseEntered || f.pc == Returned(CLOSED) || (f.pc == Entered && f.sends && f.state == INIT)
    ensures Inv(s.(fibers := s.fibers[t := f]))
  {
    var s' := s.(fibers := s.fibers[t := f]);
    forall u: nat
      ensures FiberOk(s', u)
    {
      if u < |s.fibers| && u != t {
        AloneUntouched(s, s', t, t, u);
        StillOk(s, s', u);
      }
    }
    hide FiberOk;
    forall k
      ensures ReaderAt(s', k) && WriterAt(s', k)
    {
      assert ReaderAt(s, k) && WriterAt(s, k);
    }
    forall k
      ensures GotOk(s', k)
    {
      assert GotOk(s, k);
    }
  }

  /** When `t`, alone, acts on nobody or on a parked `p`. */
  lemma AloneUntouched(s: State, s': State, t: Tid, p: Tid, u: Tid)
    requires Alone(s, t) && (p == t || (p < |s.fibers| && s.fibers[p].pc == Parked))
    requires u < |s.fibers| == |s'.fibers| && u != t && u != p && FiberOk(s, u)
    requires forall v :: SameUnless(s, s', t, p, v)
    requires s.fibers[u].pc == Parked ==> ParkedOk(s', u)
    requires s'.freed == s.freed
    ensures Untouched(s, s', u)
  {
    forall v
      ensures SameIfHeld(s, s', u, v)
    {
      assert SameUnless(s, s', t, p, v);
    }
    assert SameUnless(s, s', t, p, u);
    if s.fibers[u].pc.Held? {
      assert SameUnless(s, s', t, p, s.fibers[u].pc.holder);
    }
  }

  // ------------------------------------------------------------ parking

  lemma ParkSendInv(s: State, t: Tid)
    requires Inv(s) && Alone(s, t) && s.fibers[t].pc == Entered && !s.closed && s.ritems == []
    ensures Inv(SendLocked(s, t))
  {
    var s' := SendLocked(s, t);
    assert FiberOk(s, t);
    forall u: nat
      ensures FiberOk(s', u)
    {
      if u < |s.fibers| && u != t {
        AloneUntouched(s, s', t, t, u);
        StillOk(s, s', u);
      }
    }
    hide FiberOk;
    forall k
      ensures ReaderAt(s', k) && WriterAt(s', k)
    {
      assert ReaderAt(s, k) && WriterAt(s, k);
    }
    forall k
      ensures GotOk(s', k)
    {
      assert GotOk(s, k);
    }
  }

  lemma ParkReceiveInv(s: State, t: Tid)
    requires Inv(s) && Alone(s, t) && !s.closed && s.witems == []
    ensures Inv(ReceiveLocked(s, t))
  {
    var s' := ReceiveLocked(s, t);
    forall u: nat
      ensures FiberOk(s', u)
    {
      if u < |s.fibers| && u != t {
        AloneUntouched(s, s', t, t, u);
        StillOk(s, s', u);
      }
    }
    hide FiberOk;
    forall k
      ensures ReaderAt(s', k) && WriterAt(s', k)
    {
      assert ReaderAt(s, k) && WriterAt(s, k);
    }
    forall k
      ensures GotOk(s', k)
    {
      assert GotOk(s, k);
    }
  }

  // ------------------------------------------------------------ meeting

  /** A parked fiber other than the first keeps its place. */
  lemma StillReading(s: State, t: Tid, u: Tid)
    requires Inv(s) && Alone(s, t) && s.ritems != [] && u < |s.fibers| && s.fibers[u].pc == Parked
    requires u != s.ritems[0] && !s.closed && u != t
    ensures ParkedOk(SendLocked(s, t), u)
  {
    assert FiberOk(s, u) && ReaderAt(s, |s.sent|);
  }

  lemma MeetSendFiber(s: State, t: Tid, u: Tid)
    requires Inv(s) && Alone(s, t) && s.fibers[t].pc == Entered && !s.closed && s.ritems != []
    ensures FiberOk(SendLocked(s, t), u)
  {
    var s', p := SendLocked(s, t), s.ritems[0];
    assert ReaderAt(s, |s.sent|) && FiberOk(s, t) && FiberOk(s, p) && FiberOk(s, u);
    if u < |s.fibers| && u != t && u != p {
      if s.fibers[u].pc == Parked {
        StillReading(s, t, u);
      }
      AloneUntouched(s, s', t, p, u);
      StillOk(s, s', u);
    }
  }

  lemma MeetSendInv(s: State, t: Tid)
    requires Inv(s) && Alone(s, t) && s.fibers[t].pc == Entered && !s.closed && s.ritems != []
    ensures Inv(SendLocked(s, t))
  {
    var s' := SendLocked(s, t);
    forall u: nat
      ensures FiberOk(s', u)
    {
      MeetSendFiber(s, t, u);
    }
    hide FiberOk;
    assert ReaderAt(s, |s.sent|);
    forall k
      ensures ReaderAt(s', k) && WriterAt(s', k)
    {
      assert ReaderAt(s, k) && WriterAt(s, k);
    }
    forall k
      ensures GotOk(s', k)
    {
      assert GotOk(s, k);
    }
  }

  lemma StillWriting(s: State, t: Tid, u: Tid)
    requires Inv(s) && Alone(s, t) && s.witems != [] && u < |s.fibers| && s.fibers[u].pc == Parked
    requires u != s.witems[0] && u != t
    ensures ParkedOk(ReceiveLocked(s, t), u)
  {
    assert FiberOk(s, u) && WriterAt(s, |s.received|);
  }

  lemma MeetReceiveFiber(s: State, t: Tid, u: Tid)
    requires Inv(s) && Alone(s, t) && s.witems != []
    ensures FiberOk(ReceiveLocked(s, t), u)
  {
    var s', p := ReceiveLocked(s, t), s.witems[0];
    assert WriterAt(s, |s.received|) && FiberOk(s, p) && FiberOk(s, u);
    if u < |s.fibers| && u != t && u != p {
      if s.fibers[u].pc == Parked {
        StillWriting(s, t, u);
      }
      AloneUntouched(s, s', t, p, u);
      StillOk(s, s', u);
    }
  }

  lemma MeetReceiveInv(s: State, t: Tid)
    requires Inv(s) && Alone(s, t) && s.witems != []
    ensures Inv(ReceiveLocked(s, t))
  {
    var s' := ReceiveLocked(s, t);
    forall u: nat
      ensures FiberOk(s', u)
    {
      MeetReceiveFiber(s, t, u);
    }
    hide FiberOk;
    assert WriterAt(s, |s.received|);
    forall k
      ensures ReaderAt(s', k) && WriterAt(s', k)
    {
      assert ReaderAt(s, k) && WriterAt(s, k);
    }
    forall k
      ensures GotOk(s', k)
    {
      assert GotOk(s, k);
    }
  }

  // ------------------------------------------------------------ the exchange

  /** When `t` acts on nobody but `p`, whom it holds and goes on holding. */
  lemma HolderUntouched(s: State, s': State, t: Tid, p: Tid, u: Tid)
    requires t < |s.fibers| && p < |s.fibers| == |s'.fibers| && !s.fibers[t].pc.Held?
    requires p == t || s.fibers[p].pc == Held(t)
    requires s'.freed == s.freed
    requires u < |s.fibers| && u != t && u != p && FiberOk(s, u) && s.sent == s'.sent && s.received == s'.received
    requires forall v :: SameUnless(s, s', t, p, v)
    requires s.fibers[u].pc == Held(t) ==> Holds(s', t, u)
    ensures Untouched(s, s', u)
  {
    forall v
      ensures SameIfHeld(s, s', u, v)
    {
      assert SameUnless(s, s', t, p, v);
    }
    assert SameUnless(s, s', t, p, u);
    if s.fibers[u].pc.Held? {
      assert SameUnless(s, s', t, p, s.fibers[u].pc.holder);
    }
  }

  /** The lists do not see what happens to fibers that are not parked. */
  lemma SameLists(s: State, s': State)
    requires ListsOk(s) && |s'.fibers| == |s.fibers|
    requires s'.ritems == s.ritems && s'.witems == s.witems && s'.sent == s.sent && s'.received == s.received
    requires forall v :: 0 <= v < |s.fibers| ==> s.fibers[v].pc == Parked ==> s'.fibers[v] == s.fibers[v]
    ensures ListsOk(s')
  {
    forall k
      ensures ReaderAt(s', k) && WriterAt(s', k)
    {
      assert ReaderAt(s, k) && WriterAt(s, k);
    }
  }

  /** `t` is in an exchange with `p`. */
  predicate Exchanging(s: State, t: Tid, p: Tid) {
    && t < |s.fibers| && p < |s.fibers|
    && (s.fibers[t].pc == Copying(p) || s.fibers[t].pc == Marking(p) || s.fibers[t].pc == Switching(p))
  }

  lemma ExchangeFibers(s: State, s': State, t: Tid, p: Tid)
    requires Inv(s) && Exchanging(s, t, p) && Kept(s, s') && s.sent == s'.sent && s.received == s'.received
    requires s'.freed == s.freed
    requires forall v :: SameUnless(s, s', t, p, v)
    requires FiberOk(s', t) && FiberOk(s', p)
    ensures forall u: nat :: FiberOk(s', u)
  {
    forall u: nat
      ensures FiberOk(s', u)
    {
      assert FiberOk(s, t) && FiberOk(s, u);
      if u < |s.fibers| && u != t && u != p {
        HolderUntouched(s, s', t, p, u);
        StillOk(s, s', u);
      }
    }
  }

  lemma CopyInv(s: State, t: Tid, p: Tid)
    requires Inv(s) && t < |s.fibers| && p < |s.fibers| && s.fibers[t].pc == Copying(p)
    ensures Inv(Copy(s, t, p))
  {
    var s' := Copy(s, t, p);
    assert FiberOk(s, t);
    forall k
      ensures GotOk(s', k) && KeptAt(s, s', k)
    {
      assert GotOk(s, k);
    }
    ExchangeFibers(s, s', t, p);
    hide FiberOk;
    SameLists(s, s');
  }

  lemma MarkInv(s: State, t: Tid, p: Tid)
    requires Inv(s) && t < |s.fibers| && p < |s.fibers| && s.fibers[t].pc == Marking(p)
    ensures Inv(SetState(s, p, SUCCESS).Goto(t, Switching(p)))
  {
    var s' := SetState(s, p, SUCCESS).Goto(t, Switching(p));
    assert FiberOk(s, t);
    forall k
      ensures GotOk(s', k) && KeptAt(s, s', k)
    {
      assert GotOk(s, k);
    }
    ExchangeFibers(s, s', t, p);
    hide FiberOk;
    SameLists(s, s');
  }

  lemma SwitchInv(s: State, t: Tid, p: Tid)
    requires Inv(s) && t < |s.fibers| && p < |s.fibers| && s.fibers[t].pc == Switching(p)
    ensures Inv(SwitchTo(s, t, p))
  {
    var s' := SwitchTo(s, t, p);
    assert FiberOk(s, t);
    forall k
      ensures GotOk(s', k) && KeptAt(s, s', k)
    {
      assert GotOk(s, k);
    }
    ExchangeFibers(s, s', t, p);
    hide FiberOk;
    SameLists(s, s');
  }

  // ------------------------------------------------------------ cancelling

  /** An uninvolved fiber, when the histories stay. */
  lemma BystanderOk(s: State, s': State, t: Tid, p: Tid, u: Tid)
    requires t < |s.fibers| && p < |s.fibers| == |s'.fibers| && !s.fibers[t].pc.Held?
    requires p == t || s.fibers[p].pc == Held(t)
    requires s'.freed == s.freed && s'.sent == s.sent && s'.received == s.received && s'.got == s.got
    requires u < |s.fibers| && u != t && u != p && FiberOk(s, u)
    requires forall v :: SameUnless(s, s', t, p, v)
    requires s.fibers[u].pc == Held(t) ==> Holds(s', t, u)
    ensures FiberOk(s', u)
  {
    HolderUntouched(s, s', t, p, u);
    forall k
      ensures KeptAt(s, s', k)
    {}
    StillOk(s, s', u);
  }

  lemma CancelNextFiber(s: State, t: Tid, u: Tid)
    requires Inv(s) && t < |s.fibers| && s.fibers[t].pc.Cancelling? && u < |s.fibers|
    ensures u != t ==> FiberOk(CancelNext(s, t, s.fibers[t].pc), u)
  {
    var pc := s.fibers[t].pc;
    var s' := CancelNext(s, t, pc);
    assert FiberOk(s, t) && FiberOk(s, u) && CancelItemOk(s, t, pc, pc.done);
    var p := if pc.done < |pc.items| then pc.items[pc.done] else t;
    if u != t && u != p {
      BystanderOk(s, s', t, p, u);
    }
  }

  lemma CancelNextSelf(s: State, t: Tid)
    requires Inv(s) && t < |s.fibers| && s.fibers[t].pc.Cancelling?
    ensures FiberOk(CancelNext(s, t, s.fibers[t].pc), t)
  {
    var pc := s.fibers[t].pc;
    var s' := CancelNext(s, t, pc);
    assert FiberOk(s, t) && CancelItemOk(s, t, pc, pc.done);
    if pc.done < |pc.items| {
      forall j
        ensures CancelItemOk(s', t, s'.fibers[t].pc, j)
      {
        assert CancelItemOk(s, t, pc, j);
      }
    } else {
      forall j | 0 <= j
        ensures WakeItemOk(s', t, pc.items, pc.base, j)
      {
        assert CancelItemOk(s, t, pc, j);
      }
    }
  }

  lemma CancelNextInv(s: State, t: Tid)
    requires Inv(s) && t < |s.fibers| && s.fibers[t].pc.Cancelling?
    ensures Inv(CancelNext(s, t, s.fibers[t].pc))
  {
    var pc := s.fibers[t].pc;
    var s' := CancelNext(s, t, pc);
    assert FiberOk(s, t) && CancelItemOk(s, t, pc, pc.done);
    forall u: nat
      ensures FiberOk(s', u)
    {
      if u < |s.fibers| {
        CancelNextFiber(s, t, u);
      }
      CancelNextSelf(s, t);
    }
    hide FiberOk;
    forall k
      ensures GotOk(s', k)
    {
      assert GotOk(s, k);
    }
    SameLists(s, s');
  }

  lemma WakeNextFiber(s: State, t: Tid, u: Tid)
    requires Inv(s) && t < |s.fibers| && s.fibers[t].pc.Waking? && u < |s.fibers|
    ensures u != t ==> FiberOk(WakeNext(s, t, s.fibers[t].pc), u)
  {
    var pc := s.fibers[t].pc;
    var s' := WakeNext(s, t, pc);
    assert FiberOk(s, t) && FiberOk(s, u) && WakeItemOk(s, t, pc.items, pc.base, pc.done);
    var p := if pc.done < |pc.items| then pc.items[pc.done] else t;
    if u != t && u != p {
      BystanderOk(s, s', t, p, u);
    }
  }

  lemma WakeNextInv(s: State, t: Tid)
    requires Inv(s) && t < |s.fibers| && s.fibers[t].pc.Waking?
    ensures Inv(WakeNext(s, t, s.fibers[t].pc))
  {
    var pc := s.fibers[t].pc;
    var s' := WakeNext(s, t, pc);
    assert FiberOk(s, t) && WakeItemOk(s, t, pc.items, pc.base, pc.done);
    if pc.done < |pc.items| {
      forall j | pc.done + 1 <= j
        ensures WakeItemOk(s', t, pc.items, pc.base, j)
      {
        assert WakeItemOk(s, t, pc.items, pc.base, j);
      }
    }
    forall u: nat
      ensures FiberOk(s', u)
    {
      if u < |s.fibers| {
        WakeNextFiber(s, t, u);
      }
    }
    hide FiberOk;
    forall k
      ensures GotOk(s', k)
    {
      assert GotOk(s, k);
    }
    SameLists(s, s');
  }

  lemma TakeReadersFiber(s: State, t: Tid, status: int, freed: bool, u: Tid)
    requires Inv(s) && Alone(s, t) && u < |s.fibers| && u != t
    requires freed == s.freed || Quiet(s)
    ensures FiberOk(TakeReaders(s, t, status, freed), u)
  {
    var s' := TakeReaders(s, t, status, freed);
    assert FiberOk(s, u);
    if s.fibers[u].pc == Parked {
      assert ReaderAt(s, s.fibers[u].ticket);
    } else {
      forall v
        ensures SameIfHeld(s, s', u, v)
      {}
      assert Kept(s, s') by {
        assert forall k :: KeptAt(s, s', k);
      }
      StillOk(s, s', u);
    }
  }

  lemma TakeReadersSelf(s: State, t: Tid, status: int, freed: bool)
    requires Inv(s) && Alone(s, t) && (status == CLOSED || status == DESTROY)
    ensures FiberOk(TakeReaders(s, t, status, freed), t)
  {
    var s' := TakeReaders(s, t, status, freed);
    forall j
      ensures CancelItemOk(s', t, s'.fibers[t].pc, j)
    {
      if 0 <= j < |s.ritems| {
        assert ReaderAt(s, |s.sent| + j) && FiberOk(s, s.ritems[j]);
      }
    }
  }

  lemma TakeReadersInv(s: State, t: Tid, status: int, freed: bool)
    requires Inv(s) && Alone(s, t) && (status == CLOSED || status == DESTROY)
    requires freed == s.freed || (s.ritems != [] && Quiet(s))
    ensures Inv(TakeReaders(s, t, status, freed))
  {
    var s' := TakeReaders(s, t, status, freed);
    TakeReadersSelf(s, t, status, freed);
    forall u: nat
      ensures FiberOk(s', u)
    {
      if u < |s.fibers| && u != t {
        TakeReadersFiber(s, t, status, freed, u);
      }
    }
    hide FiberOk;
    forall k
      ensures ReaderAt(s', k) && WriterAt(s', k)
    {
      assert ReaderAt(s, k) && WriterAt(s, k);
    }
    forall k
      ensures GotOk(s', k)
    {
      assert GotOk(s, k);
    }
  }

  lemma TakeWritersFiber(s: State, t: Tid, status: int, u: Tid)
    requires Inv(s) && Alone(s, t) && u < |s.fibers| && u != t && Quiet(s)
    ensures FiberOk(TakeWriters(s, t, status, true), u)
  {
    var s' := TakeWriters(s, t, status, true);
    assert FiberOk(s, u);
    if s.fibers[u].pc == Parked {
      assert WriterAt(s, s.fibers[u].ticket) && ReaderAt(s, s.fibers[u].ticket);
    } else {
      forall v
        ensures SameIfHeld(s, s', u, v)
      {}
      assert Kept(s, s') by {
        assert forall k :: KeptAt(s, s', k);
      }
      StillOk(s, s', u);
    }
  }

  lemma TakeWritersSelf(s: State, t: Tid, status: int)
    requires Inv(s) && Alone(s, t) && (status == CLOSED || status == DESTROY)
    ensures FiberOk(TakeWriters(s, t, status, true), t)
  {
    var s' := TakeWriters(s, t, status, true);
    forall j
      ensures CancelItemOk(s', t, s'.fibers[t].pc, j)
    {
      if 0 <= j < |s.witems| {
        assert WriterAt(s, |s.received| + j) && FiberOk(s, s.witems[j]);
      }
    }
  }

  lemma TakeWritersInv(s: State, t: Tid, status: int)
    requires Inv(s) && Alone(s, t) && (status == CLOSED || status == DESTROY) && s.witems != [] && Quiet(s)
    ensures Inv(TakeWriters(s, t, status, true))
  {
    var s' := TakeWriters(s, t, status, true);
    TakeWritersSelf(s, t, status);
    forall u: nat
      ensures FiberOk(s', u)
    {
      if u < |s.fibers| && u != t {
        TakeWritersFiber(s, t, status, u);
      }
    }
    hide FiberOk;
    forall k
      ensures ReaderAt(s', k) && WriterAt(s', k)
    {
      assert ReaderAt(s, k) && WriterAt(s, k);
    }
    forall k
      ensures GotOk(s', k)
    {
      assert GotOk(s, k);
    }
  }

  /** Nobody is parked, and nobody is on the way to the lock. */
  lemma FreeEmptyInv(s: State, t: Tid)
    requires Inv(s) && Alone(s, t) && s.ritems == [] && s.witems == [] && Quiet(s)
    ensures Inv(s.(closed := true, freed := true).Goto(t, Cancelling([], 0, 0, DESTROY)))
  {
    var s' := s.(closed := true, freed := true).Goto(t, Cancelling([], 0, 0, DESTROY));
    assert FiberOk(s', t) by {
      assert forall j :: CancelItemOk(s', t, s'.fibers[t].pc, j);
    }
    forall u: nat
      ensures FiberOk(s', u)
    {
      assert FiberOk(s, u);
      if u < |s.fibers| && u != t {
        forall v
          ensures SameIfHeld(s, s', u, v)
        {}
        assert Kept(s, s') by {
          assert forall k :: KeptAt(s, s', k);
        }
        StillOk(s, s', u);
      }
    }
    hide FiberOk;
    forall k
      ensures GotOk(s', k)
    {
      assert GotOk(s, k);
    }
    SameLists(s, s');
  }

  lemma DestroyInv(s: State, t: Tid)
    requires Inv(s) && Alone(s, t) && Quiet(s)
    ensures Inv(DestroyLocked(s, t))
  {
    hide Inv, TakeReaders, TakeWriters;
    if s.ritems != [] {
      TakeReadersInv(s, t, DESTROY, true);
    } else if s.witems != [] {
      TakeWritersInv(s, t, DESTROY);
    } else {
      FreeEmptyInv(s, t);
    }
  }

  lemma SendLockedInv(s: State, t: Tid)
    requires Inv(s) && t < |s.fibers| && s.fibers[t].pc == Entered
    ensures Inv(SendLocked(s, t))
  {
    hide Inv;
    if s.closed {
      SoloInv(s, t, s.fibers[t].(pc := Returned(CLOSED)));
    } else if s.ritems != [] {
      MeetSendInv(s, t);
    } else {
      ParkSendInv(s, t);
    }
  }

  lemma ReceiveInv(s: State, t: Tid)
    requires Inv(s) && Alone(s, t)
    ensures Inv(ReceiveLocked(s, t))
  {
    hide Inv;
    if s.witems != [] {
      MeetReceiveInv(s, t);
    } else if s.closed {
      var f := s.fibers[t].(sends := false, state := INIT, pc := Returned(CLOSED));
      SoloInv(s, t, f);
      assert ReceiveLocked(s, t) == s.(fibers := s.fibers[t := f]);
    } else {
      ParkReceiveInv(s, t);
    }
  }

  lemma BeginInv(s: State, t: Tid, op: Op)
    requires Inv(s) && t < |s.fibers| && (s.fibers[t].pc == Idle || s.fibers[t].pc.Returned?)
    ensures Inv(Begin(s, t, op))
  {
    hide Inv, Quiet;
    if !s.freed {
      match op
      case Send(v) => SoloInv(s, t, BeginSend(s, t, v).fibers[t]);
      case Receive => ReceiveInv(s, t);
      case Close => SoloInv(s, t, BeginClose(s, t).fibers[t]);
      case Destroy => if Quiet(s) { DestroyInv(s, t); }
    }
  }

  lemma CloseLockedInv(s: State, t: Tid)
    requires Inv(s) && t < |s.fibers| && s.fibers[t].pc == CloseEntered
    ensures Inv(CloseLocked(s, t))
  {
    hide Inv;
    if s.closed {
      SoloInv(s, t, s.fibers[t].(pc := Idle));
    } else {
      TakeReadersInv(s, t, CLOSED, s.freed);
    }
  }

  lemma StepInv(s: State, t: Tid, op: Op)
    requires Inv(s)
    ensures Inv(Step(s, t, op)) && |Step(s, t, op).fibers| == |s.fibers|
  {
    hide Inv, Begin, SendLocked, CloseLocked, Copy, SwitchTo, CancelNext, WakeNext;
    if t < |s.fibers| {
      var pc := s.fibers[t].pc;
      match pc
      case Idle => BeginInv(s, t, op);
      case Returned(_) => BeginInv(s, t, op);
      case Entered => SendLockedInv(s, t);
      case CloseEntered => CloseLockedInv(s, t);
      case Parked =>
      case Held(_) =>
      case Copying(p) => if p < |s.fibers| { CopyInv(s, t, p); }
      case Marking(p) => if p < |s.fibers| { MarkInv(s, t, p); }
      case Switching(p) => if p < |s.fibers| { SwitchInv(s, t, p); }
      case Cancelling(_, _, _, _) => CancelNextInv(s, t);
      case Waking(_, _, _) => WakeNextInv(s, t);
    }
  }

  lemma {:induction false} RunInv(n: nat, turns: seq<Turn>)
    ensures Inv(Run(n, turns))
  {
    if turns != [] {
      var last := turns[|turns| - 1];
      RunInv(n, turns[..|turns| - 1]);
      StepInv(Run(n, turns[..|turns| - 1]), last.fiber, last.op);
    }
  }

  // ------------------------------------------------------------ theorems over every run

  /** A receive that returns success was the k-th accepted one for some k, and it returns the
      value of the k-th accepted send. */
  lemma ReceiveGetsItsSend(n: nat, turns: seq<Turn>, t: Tid)
    requires t < n
    requires Run(n, turns).fibers[t].pc == Returned(SUCCESS) && !Run(n, turns).fibers[t].sends
    ensures
      var s := Run(n, turns);
      var k := s.fibers[t].ticket;
      k < |s.received| && k < |s.sent| && s.received[k] == t && s.fibers[t].data == s.sent[k].value
  {
    RunInv(n, turns);
    assert FiberOk(Run(n, turns), t);
  }

  /** What the copies so far have put in buffers stays, with the fibers they were made for. */
  lemma GotStays(s: State, t: Tid, op: Op, k: nat)
    requires Inv(s) && k in s.got
    ensures
      var s' := Step(s, t, op);
      k in s'.got && s'.got[k] == s.got[k] && k < |s.received| && k < |s'.received| && s'.received[k] == s.received[k]
  {
    StepInv(s, t, op);
    assert GotOk(s, k) && GotOk(Step(s, t, op), k);
    GotStaysBy(s, t, op, k);
  }

  lemma GotStaysBy(s: State, t: Tid, op: Op, k: nat)
    requires k < |s.sent| && k < |s.received|
    ensures KeptAt(s, Step(s, t, op), k) || (t < |s.fibers| && s.fibers[t].pc.Copying?)
  {
    if t < |s.fibers| {
      LockedKeeps(s, t, k);
      BeginKeeps(s, t, op, k);
      OthersKeep(s, t, k);
    }
    hide KeptAt, Begin, SendLocked, CloseLocked, Copy, SetState, SwitchTo, CancelNext, WakeNext;
  }

  lemma OthersKeep(s: State, t: Tid, k: nat)
    requires t < |s.fibers| && k < |s.sent| && k < |s.received|
    ensures KeptAt(s, s, k)
    ensures forall p: Tid :: p < |s.fibers| ==> KeptAt(s, SwitchTo(s, t, p), k)
    ensures forall p: Tid :: p < |s.fibers| ==> KeptAt(s, SetState(s, p, SUCCESS).Goto(t, Switching(p)), k)
    ensures s.fibers[t].pc.Cancelling? ==> KeptAt(s, CancelNext(s, t, s.fibers[t].pc), k)
    ensures s.fibers[t].pc.Waking? ==> KeptAt(s, WakeNext(s, t, s.fibers[t].pc), k)
  {}

  lemma LockedKeeps(s: State, t: Tid, k: nat)
    requires t < |s.fibers| && k < |s.sent| && k < |s.received|
    ensures KeptAt(s, SendLocked(s, t), k) && KeptAt(s, ReceiveLocked(s, t), k)
    ensures KeptAt(s, CloseLocked(s, t), k) && KeptAt(s, DestroyLocked(s, t), k)
  {
    hide Meet, Park, HoldParked;
  }

  lemma BeginKeeps(s: State, t: Tid, op: Op, k: nat)
    requires t < |s.fibers| && k < |s.sent| && k < |s.received|
    ensures KeptAt(s, Begin(s, t, op), k)
  {
    LockedKeeps(s, t, k);
    hide ReceiveLocked, DestroyLocked, Quiet;
  }

  /** A step that records the copy of exchange `k` has put the value in the buffer of the fiber
      whose receive was the k-th accepted. */
  lemma CopyFillsTheBuffer(s: State, t: Tid, op: Op, k: nat)
    requires Inv(s) && k !in s.got && k in Step(s, t, op).got
    ensures k < |s.received| && Step(s, t, op).received == s.received && Delivered(Step(s, t, op), k, s.received[k])
  {
    assert t < |s.fibers| && s.fibers[t].pc.Copying? by {
      if t < |s.fibers| {
        assert Begin(s, t, op).got == s.got;
      }
      hide Begin;
    }
    hide Begin, SendLocked, CloseLocked, SwitchTo, CancelNext, WakeNext;
    assert FiberOk(s, t);
  }

  /** The i-th step of the run put value `v` in the buffer of `r`, as exchange `k`. */
  ghost predicate CopiedBy(n: nat, turns: seq<Turn>, i: nat, k: nat, r: Tid, v: int) {
    && i < |turns| && r < n
    && k !in Run(n, turns[..i]).got && k in Run(n, turns[..i + 1]).got
    && Run(n, turns[..i + 1]).fibers[r].data == v
  }

  lemma {:induction false} CopiedInTheRun(n: nat, turns: seq<Turn>, k: nat) returns (i: nat)
    requires k in Run(n, turns).got
    ensures k < |Run(n, turns).received|
    ensures CopiedBy(n, turns, i, k, Run(n, turns).received[k], Run(n, turns).got[k])
  {
    var m, last := |turns| - 1, turns[|turns| - 1];
    var s := Run(n, turns[..m]);
    RunInv(n, turns[..m]);
    RunInv(n, turns);
    assert turns[..|turns|] == turns && GotOk(Run(n, turns), k);
    hide Step;
    if k in s.got {
      i := CopiedInTheRun(n, turns[..m], k);
      assert turns[..m][..i] == turns[..i] && turns[..m][..i + 1] == turns[..i + 1];
      GotStays(s, last.fiber, last.op, k);
    } else {
      i := m;
      CopyFillsTheBuffer(s, last.fiber, last.op, k);
    }
  }

  /** A send that returns success was the k-th accepted one, and some step of the run has put
      its value in the buffer of the fiber whose receive was the k-th accepted. */
  lemma SendReachesItsReceive(n: nat, turns: seq<Turn>, t: Tid) returns (i: nat)
    requires t < n
    requires Run(n, turns).fibers[t].pc == Returned(SUCCESS) && Run(n, turns).fibers[t].sends
    ensures
      var s := Run(n, turns);
      var k := s.fibers[t].ticket;
      && k < |s.sent| && k < |s.received| && s.sent[k] == Sent(t, s.fibers[t].data)
      && CopiedBy(n, turns, i, k, s.received[k], s.fibers[t].data)
  {
    RunInv(n, turns);
    assert FiberOk(Run(n, turns), t);
    i := CopiedInTheRun(n, turns, Run(n, turns).fibers[t].ticket);
  }

  lemma ListsInOrder(s: State)
    requires ListsOk(s)
    ensures s.ritems == if |s.sent| < |s.received| then s.received[|s.sent|..] else []
    ensures forall i :: 0 <= i < |s.witems| ==> s.witems[i] == s.sent[|s.received| + i].sender
  {
    forall i | 0 <= i < |s.ritems|
      ensures s.ritems[i] == s.received[|s.sent| + i]
    {
      assert ReaderAt(s, |s.sent| + i);
    }
    forall i | 0 <= i < |s.witems|
      ensures s.witems[i] == s.sent[|s.received| + i].sender
    {
      assert WriterAt(s, |s.received| + i);
    }
  }

  /** Parked readers and writers never coexist, and what is parked is the accepted calls that
      have no partner, oldest first. */
  lemma ParkedInOrder(n: nat, turns: seq<Turn>)
    ensures
      var s := Run(n, turns);
      && (s.ritems == [] || s.witems == [])
      && s.ritems == (if |s.sent| < |s.received| then s.received[|s.sent|..] else [])
      && |s.witems| == (if |s.received| < |s.sent| then |s.sent| - |s.received| else 0)
      && forall i :: 0 <= i < |s.witems| ==> s.witems[i] == s.sent[|s.received| + i].sender
  {
    RunInv(n, turns);
    ListsInOrder(Run(n, turns));
    hide FiberOk, ReaderAt, WriterAt;
  }

  /** A parked fiber is in its list, at its place. */
  ghost predicate InItsList(s: State, t: Tid) {
    t < |s.fibers| ==>
      var f := s.fibers[t];
      if f.sends then |s.received| <= f.ticket < |s.received| + |s.witems| && s.witems[f.ticket - |s.received|] == t
      else |s.sent| <= f.ticket < |s.sent| + |s.ritems| && s.ritems[f.ticket - |s.sent|] == t
  }

  lemma ParkedPlace(s: State, t: Tid)
    requires ListsOk(s) && ParkedOk(s, t)
    ensures InItsList(s, t)
  {
    if s.fibers[t].sends {
      assert WriterAt(s, s.fibers[t].ticket);
    } else {
      assert ReaderAt(s, s.fibers[t].ticket);
    }
  }

  /** Nobody is lost: a parked fiber is in its list at its place, and a fiber taken off a list
      is held by a call that is on its way to resume it. */
  lemma NobodyIsLost(n: nat, turns: seq<Turn>, t: Tid)
    requires t < n
    ensures Run(n, turns).fibers[t].pc == Parked ==> InItsList(Run(n, turns), t)
    ensures Run(n, turns).fibers[t].pc.Held? ==> Holds(Run(n, turns), Run(n, turns).fibers[t].pc.holder, t)
  {
    RunInv(n, turns);
    var s := Run(n, turns);
    assert FiberOk(s, t);
    hide InItsList, Holds, ListsOk, ParkedOk;
    if s.fibers[t].pc == Parked {
      ParkedPlace(s, t);
    }
  }

  /** A closed channel has no parked reader, stays closed, and accepts no send. */
  lemma ClosedIsFinal(n: nat, turns: seq<Turn>, t: Tid, op: Op)
    requires Run(n, turns).closed
    ensures
      var s, s' := Run(n, turns), Step(Run(n, turns), t, op);
      && s.ritems == [] && s'.closed && s'.ritems == [] && |s'.sent| <= |s.sent|
      && forall u :: 0 <= u < |s.fibers| ==> s.fibers[u].pc == Parked ==> s.fibers[u].sends
  {
    RunInv(n, turns);
    var s := Run(n, turns);
    ParkedInOrder(n, turns);
    StepInv(s, t, op);
    ClosedStays(s, t, op);
    forall u | 0 <= u < |s.fibers| && s.fibers[u].pc == Parked
      ensures s.fibers[u].sends
    {
      assert FiberOk(s, u);
    }
  }

  lemma ClosedStays(s: State, t: Tid, op: Op)
    requires s.closed && s.ritems == []
    ensures Step(s, t, op).closed && Step(s, t, op).ritems == [] && |Step(s, t, op).sent| <= |s.sent|
  {
    if t < |s.fibers| {
      assert Begin(s, t, op).closed && Begin(s, t, op).ritems == [] && |Begin(s, t, op).sent| <= |s.sent|;
    }
    hide Begin;
  }

  /** After a close the parked writers still drain, oldest first: a receive finds the channel
      closed only when every accepted send has its receive. */
  lemma DrainsBeforeClosed(n: nat, turns: seq<Turn>, t: Tid)
    requires t < n && Run(n, turns).closed && !Run(n, turns).freed
    requires Run(n, turns).fibers[t].pc == Idle || Run(n, turns).fibers[t].pc.Returned?
    ensures
      var s, s' := Run(n, turns), Step(Run(n, turns), t, Op.Receive);
      if |s.received| < |s.sent| then
        && s'.fibers[t].pc == Copying(s.sent[|s.received|].sender) && s'.fibers[t].ticket == |s.received|
        && s'.received == s.received + [t]
      else s'.fibers[t].pc == Returned(CLOSED) && s'.received == s.received && |s.received| == |s.sent|
  {
    RunInv(n, turns);
    ParkedInOrder(n, turns);
  }

  /** A destroy leaves nobody parked: everybody who was is held by the destroyer. */
  lemma DestroyTakesAll(n: nat, turns: seq<Turn>, t: Tid, u: Tid)
    requires t < n && u < n && Quiet(Run(n, turns)) && !Run(n, turns).freed
    requires Run(n, turns).fibers[t].pc == Idle || Run(n, turns).fibers[t].pc.Returned?
    ensures
      var s, s' := Run(n, turns), Step(Run(n, turns), t, Op.Destroy);
      && s'.ritems == [] && s'.witems == []
      && (s.fibers[u].pc == Parked ==> s'.fibers[u].pc == Held(t) && Holds(s', t, u))
  {
    RunInv(n, turns);
    StepInv(Run(n, turns), t, Op.Destroy);
    ParkedInOrder(n, turns);
    NobodyIsLost(n, turns, u);
    var s, s' := Run(n, turns), Step(Run(n, turns), t, Op.Destroy);
    assert FiberOk(s', u);
  }

  /** No call returns before its item's state is set, and none returns the initial state. */
  lemma ReturnsAStatus(n: nat, turns: seq<Turn>, t: Tid)
    requires t < n && Run(n, turns).fibers[t].pc.Returned?
    ensures
      var status := Run(n, turns).fibers[t].pc.status;
      status == SUCCESS || status == CLOSED || status == DESTROY
  {
    RunInv(n, turns);
    assert FiberOk(Run(n, turns), t);
  }

  /** What a step of `t` may do to the record of another fiber `p`: take it off a list while it
      is parked; or, holding it, set its state once, fill its buffer, and resume it with its
      state set. */
  ghost predicate Gentle(s: State, s': State, t: Tid, p: Tid) {
    p < |s.fibers| ==>
      && p < |s'.fibers|
      && var f, g := s.fibers[p], s'.fibers[p];
      && (g != f ==> (f.pc == Parked && g == f.(pc := Held(t))) || f.pc == Held(t))
      && (g.state != f.state ==> f.state == INIT)
      && (g.pc != f.pc && f.pc.Held? ==> f.state != INIT && g.pc == Returned(f.state))
  }

  lemma GentleLocked(s: State, t: Tid, p: Tid)
    requires Inv(s) && Alone(s, t) && p != t
    ensures Gentle(s, SendLocked(s, t), t, p) && Gentle(s, ReceiveLocked(s, t), t, p)
  {
    assert ReaderAt(s, |s.sent|) && WriterAt(s, |s.received|);
  }

  lemma GentleTake(s: State, t: Tid, p: Tid, status: int, freed: bool)
    requires t < |s.fibers| && p != t
    ensures Gentle(s, TakeReaders(s, t, status, freed), t, p) && Gentle(s, TakeWriters(s, t, status, freed), t, p)
  {}

  lemma GentleBegin(s: State, t: Tid, op: Op, p: Tid)
    requires Inv(s) && Alone(s, t) && p != t
    ensures Gentle(s, Begin(s, t, op), t, p)
  {
    GentleLocked(s, t, p);
    GentleTake(s, t, p, DESTROY, true);
    hide Inv, Quiet, ReceiveLocked, TakeReaders, TakeWriters;
  }

  lemma GentleExchange(s: State, t: Tid, p: Tid, q: Tid)
    requires Inv(s) && Exchanging(s, t, q) && p != t
    ensures s.fibers[t].pc == Copying(q) ==> Gentle(s, Copy(s, t, q), t, p)
    ensures s.fibers[t].pc == Marking(q) ==> Gentle(s, SetState(s, q, SUCCESS).Goto(t, Switching(q)), t, p)
    ensures s.fibers[t].pc == Switching(q) ==> Gentle(s, SwitchTo(s, t, q), t, p)
  {
    assert FiberOk(s, t);
  }

  lemma GentleList(s: State, t: Tid, p: Tid)
    requires Inv(s) && t < |s.fibers| && p != t
    ensures s.fibers[t].pc.Cancelling? ==> Gentle(s, CancelNext(s, t, s.fibers[t].pc), t, p)
    ensures s.fibers[t].pc.Waking? ==> Gentle(s, WakeNext(s, t, s.fibers[t].pc), t, p)
  {
    assert FiberOk(s, t);
    var pc := s.fibers[t].pc;
    if pc.Cancelling? {
      assert CancelItemOk(s, t, pc, pc.done);
    } else if pc.Waking? {
      assert WakeItemOk(s, t, pc.items, pc.base, pc.done);
    }
  }

  lemma GentleStep(s: State, t: Tid, op: Op, p: Tid)
    requires Inv(s) && p != t
    ensures Gentle(s, Step(s, t, op), t, p)
  {
    hide Inv, Begin, SendLocked, ReceiveLocked, TakeReaders, Copy, SetState, SwitchTo, CancelNext, WakeNext;
    if t < |s.fibers| {
      match s.fibers[t].pc
      case Idle => GentleBegin(s, t, op, p);
      case Returned(_) => GentleBegin(s, t, op, p);
      case Entered => GentleLocked(s, t, p);
      case CloseEntered => GentleTake(s, t, p, CLOSED, s.freed);
      case Parked =>
      case Held(_) =>
      case Copying(q) => if q < |s.fibers| { GentleExchange(s, t, p, q); }
      case Marking(q) => if q < |s.fibers| { GentleExchange(s, t, p, q); }
      case Switching(q) => if q < |s.fibers| { GentleExchange(s, t, p, q); }
      case Cancelling(_, _, _, _) => GentleList(s, t, p);
      case Waking(_, _, _) => GentleList(s, t, p);
    }
  }

  /** No use after resume: no step touches the record of a fiber that is running, and every
      state is set once before its fiber goes on; a receiver that goes on with success already
      has the value in its buffer. */
  lemma TouchesOnlyTheSuspended(n: nat, turns: seq<Turn>, t: Tid, op: Op, p: Tid)
    requires p < n && p != t
    ensures |Run(n, turns).fibers| == n == |Step(Run(n, turns), t, op).fibers|
    ensures Gentle(Run(n, turns), Step(Run(n, turns), t, op), t, p)
    ensures
      var s' := Step(Run(n, turns), t, op);
      s'.fibers[p].pc == Returned(SUCCESS) && !s'.fibers[p].sends ==> Delivered(s', s'.fibers[p].ticket, p)
  {
    hide Gentle, Step;
    RunInv(n, turns);
    GentleStep(Run(n, turns), t, op, p);
    StepInv(Run(n, turns), t, op);
    assert FiberOk(Step(Run(n, turns), t, op), p);
  }

  // ------------------------------------------------------------ memory of fibers that run

  /** The item of `u` with anything in it. */
  function Overwrite(s: State, u: Tid, data: int, state: int): State {
    if u < |s.fibers| then s.(fibers := s.fibers[u := s.fibers[u].(data := data, state := state)]) else s
  }

  /** `u` is neither parked nor held. */
  predicate Runs(s: State, u: Tid) {
    u < |s.fibers| && s.fibers[u].pc != Parked && !s.fibers[u].pc.Held?
  }

  lemma OverwriteLocked(s: State, t: Tid, u: Tid, data: int, state: int)
    requires Inv(s) && Alone(s, t) && Runs(s, u) && u != t
    ensures SendLocked(Overwrite(s, u, data, state), t) == Overwrite(SendLocked(s, t), u, data, state)
    ensures ReceiveLocked(Overwrite(s, u, data, state), t) == Overwrite(ReceiveLocked(s, t), u, data, state)
  {
    assert ReaderAt(s, |s.sent|) && WriterAt(s, |s.received|);
  }

  lemma OverwriteTake(s: State, t: Tid, status: int, freed: bool, u: Tid, data: int, state: int)
    requires t < |s.fibers| && u < |s.fibers| && u != t
    ensures TakeReaders(Overwrite(s, u, data, state), t, status, freed)
            == Overwrite(TakeReaders(s, t, status, freed), u, data, state)
    ensures TakeWriters(Overwrite(s, u, data, state), t, status, freed)
            == Overwrite(TakeWriters(s, t, status, freed), u, data, state)
  {
    assert TakeReaders(Overwrite(s, u, data, state), t, status, freed).fibers
        == Overwrite(TakeReaders(s, t, status, freed), u, data, state).fibers;
    assert TakeWriters(Overwrite(s, u, data, state), t, status, freed).fibers
        == Overwrite(TakeWriters(s, t, status, freed), u, data, state).fibers;
  }

  lemma OverwriteDestroy(s: State, t: Tid, u: Tid, data: int, state: int)
    requires t < |s.fibers| && u < |s.fibers| && u != t
    ensures DestroyLocked(Overwrite(s, u, data, state), t) == Overwrite(DestroyLocked(s, t), u, data, state)
  {
    OverwriteTake(s, t, DESTROY, true, u, data, state);
    hide TakeReaders, TakeWriters;
    assert s.ritems == [] && s.witems == [] ==>
      DestroyLocked(Overwrite(s, u, data, state), t).fibers == Overwrite(DestroyLocked(s, t), u, data, state).fibers;
  }

  lemma OverwriteSolo(s: State, t: Tid, f: Fiber, u: Tid, data: int, state: int)
    requires t < |s.fibers| && u < |s.fibers| && u != t
    ensures Overwrite(s, u, data, state).(fibers := Overwrite(s, u, data, state).fibers[t := f])
            == Overwrite(s.(fibers := s.fibers[t := f]), u, data, state)
  {
    assert s.fibers[t := f][u := s.fibers[u].(data := data, state := state)]
        == s.fibers[u := s.fibers[u].(data := data, state := state)][t := f];
  }

  lemma OverwriteBegin(s: State, t: Tid, op: Op, u: Tid, data: int, state: int)
    requires Inv(s) && Alone(s, t) && Runs(s, u) && u != t
    ensures Begin(Overwrite(s, u, data, state), t, op) == Overwrite(Begin(s, t, op), u, data, state)
  {
    OverwriteLocked(s, t, u, data, state);
    OverwriteDestroy(s, t, u, data, state);
    assert Quiet(Overwrite(s, u, data, state)) <==> Quiet(s) by {
      forall v: nat
        ensures Uses(Overwrite(s, u, data, state), v) <==> Uses(s, v)
      {}
    }
    hide Inv, Quiet, SendLocked, ReceiveLocked, DestroyLocked;
    match op
    case Send(v) => OverwriteSolo(s, t, BeginSend(s, t, v).fibers[t], u, data, state);
    case Close => OverwriteSolo(s, t, BeginClose(s, t).fibers[t], u, data, state);
    case _ =>
  }

  lemma OverwriteCopy(s: State, t: Tid, p: Tid, u: Tid, data: int, state: int)
    requires t < |s.fibers| && p < |s.fibers| && u < |s.fibers| && u != t && u != p
    ensures Copy(Overwrite(s, u, data, state), t, p) == Overwrite(Copy(s, t, p), u, data, state)
  {
    assert Copy(Overwrite(s, u, data, state), t, p).fibers == Overwrite(Copy(s, t, p), u, data, state).fibers;
  }

  lemma OverwriteOthers(s: State, t: Tid, p: Tid, u: Tid, data: int, state: int)
    requires t < |s.fibers| && p < |s.fibers| && u < |s.fibers| && u != t && u != p
    ensures SetState(Overwrite(s, u, data, state), p, SUCCESS).Goto(t, Switching(p))
            == Overwrite(SetState(s, p, SUCCESS).Goto(t, Switching(p)), u, data, state)
    ensures SwitchTo(Overwrite(s, u, data, state), t, p) == Overwrite(SwitchTo(s, t, p), u, data, state)
  {
    assert SetState(Overwrite(s, u, data, state), p, SUCCESS).Goto(t, Switching(p)).fibers
        == Overwrite(SetState(s, p, SUCCESS).Goto(t, Switching(p)), u, data, state).fibers;
    assert SwitchTo(Overwrite(s, u, data, state), t, p).fibers == Overwrite(SwitchTo(s, t, p), u, data, state).fibers;
  }

  lemma OverwriteExchange(s: State, t: Tid, p: Tid, u: Tid, data: int, state: int)
    requires Inv(s) && Exchanging(s, t, p) && Runs(s, u) && u != t
    ensures s.fibers[t].pc == Copying(p) ==>
              Copy(Overwrite(s, u, data, state), t, p) == Overwrite(Copy(s, t, p), u, data, state)
    ensures s.fibers[t].pc == Marking(p) ==>
              SetState(Overwrite(s, u, data, state), p, SUCCESS).Goto(t, Switching(p))
              == Overwrite(SetState(s, p, SUCCESS).Goto(t, Switching(p)), u, data, state)
    ensures s.fibers[t].pc == Switching(p) ==>
              SwitchTo(Overwrite(s, u, data, state), t, p) == Overwrite(SwitchTo(s, t, p), u, data, state)
  {
    assert FiberOk(s, t);
    OverwriteCopy(s, t, p, u, data, state);
    OverwriteOthers(s, t, p, u, data, state);
    hide Inv, FiberOk, Copy, SetState, SwitchTo, Overwrite;
  }

  lemma OverwriteList(s: State, t: Tid, u: Tid, data: int, state: int)
    requires Inv(s) && t < |s.fibers| && Runs(s, u) && u != t
    ensures s.fibers[t].pc.Cancelling? ==>
              CancelNext(Overwrite(s, u, data, state), t, s.fibers[t].pc)
              == Overwrite(CancelNext(s, t, s.fibers[t].pc), u, data, state)
    ensures s.fibers[t].pc.Waking? ==>
              WakeNext(Overwrite(s, u, data, state), t, s.fibers[t].pc)
              == Overwrite(WakeNext(s, t, s.fibers[t].pc), u, data, state)
  {
    assert FiberOk(s, t);
    var pc := s.fibers[t].pc;
    if pc.Cancelling? {
      assert CancelItemOk(s, t, pc, pc.done);
    } else if pc.Waking? {
      assert WakeItemOk(s, t, pc.items, pc.base, pc.done);
    }
    hide Inv, FiberOk, CancelItemOk, WakeItemOk, CancelOk, WakeOk;
    var o := Overwrite(s, u, data, state);
    if pc.Cancelling? {
      assert CancelNext(o, t, pc).fibers == Overwrite(CancelNext(s, t, pc), u, data, state).fibers;
    } else if pc.Waking? {
      assert WakeNext(o, t, pc).fibers == Overwrite(WakeNext(s, t, pc), u, data, state).fibers;
    }
  }

  lemma OverwriteClose(s: State, t: Tid, u: Tid, data: int, state: int)
    requires t < |s.fibers| && u < |s.fibers| && u != t
    ensures CloseLocked(Overwrite(s, u, data, state), t) == Overwrite(CloseLocked(s, t), u, data, state)
  {
    OverwriteTake(s, t, CLOSED, s.freed, u, data, state);
    hide TakeReaders, TakeWriters;
  }

  lemma OverwriteStep(s: State, t: Tid, op: Op, u: Tid, data: int, state: int)
    requires Inv(s) && Runs(s, u) && u != t
    ensures Step(Overwrite(s, u, data, state), t, op) == Overwrite(Step(s, t, op), u, data, state)
  {
    assert |Overwrite(s, u, data, state).fibers| == |s.fibers|;
    assert t < |s.fibers| ==> Overwrite(s, u, data, state).fibers[t] == s.fibers[t];
    hide Inv, Runs, Overwrite, Begin, SendLocked, CloseLocked, Copy, SetState, SwitchTo, CancelNext, WakeNext;
    if t < |s.fibers| {
      match s.fibers[t].pc
      case Idle => OverwriteBegin(s, t, op, u, data, state);
      case Returned(_) => OverwriteBegin(s, t, op, u, data, state);
      case Entered => OverwriteLocked(s, t, u, data, state);
      case CloseEntered => OverwriteClose(s, t, u, data, state);
      case Parked =>
      case Held(_) =>
      case Copying(q) => if q < |s.fibers| { OverwriteExchange(s, t, q, u, data, state); }
      case Marking(q) => if q < |s.fibers| { OverwriteExchange(s, t, q, u, data, state); }
      case Switching(q) => if q < |s.fibers| { OverwriteExchange(s, t, q, u, data, state); }
      case Cancelling(_, _, _, _) => OverwriteList(s, t, u, data, state);
      case Waking(_, _, _) => OverwriteList(s, t, u, data, state);
    }
  }

  /** No use after resume: while a fiber runs, whatever is put in the memory of the item it had
      on its stack makes no difference to what the others do, so they neither read nor write it. */
  lemma NobodyReadsTheRunning(n: nat, turns: seq<Turn>, t: Tid, op: Op, u: Tid, data: int, state: int)
    requires u < n && u != t && Runs(Run(n, turns), u)
    ensures Step(Overwrite(Run(n, turns), u, data, state), t, op) == Overwrite(Step(Run(n, turns), t, op), u, data, state)
  {
    RunInv(n, turns);
    hide Step, Overwrite;
    OverwriteStep(Run(n, turns), t, op, u, data, state);
  }

  /** Nobody uses a channel that was destroyed. */
  lemma FreedIsUnused(n: nat, turns: seq<Turn>, u: Tid)
    requires Run(n, turns).freed
    ensures !Uses(Run(n, turns), u)
  {
    RunInv(n, turns);
    assert FiberOk(Run(n, turns), u);
  }

  // ------------------------------------------------------------ in place

  /** The side of a new accepted call: the oldest call of the other side without a partner is
      the one that is taken off the list. */
  lemma PartnerIsOldest(s: State)
    requires Inv(s)
    ensures s.ritems != [] <==> |s.sent| < |s.received|
    ensures s.witems != [] <==> |s.received| < |s.sent|
    ensures s.ritems != [] ==> s.ritems[0] == s.received[|s.sent|] && ParkedAt(s, s.ritems[0], |s.sent|, false)
    ensures s.witems != [] ==> s.witems[0] == s.sent[|s.received|].sender && ParkedAt(s, s.witems[0], |s.received|, true)
  {
    assert ReaderAt(s, |s.sent|) && WriterAt(s, |s.received|);
  }

  /** All who are parked are on the same side. */
  lemma ParkedSide(s: State, u: Tid)
    requires Inv(s) && u < |s.fibers| && s.fibers[u].pc == Parked
    ensures if s.fibers[u].sends then s.witems != [] && s.ritems == [] else s.ritems != [] && s.witems == []
  {
    assert FiberOk(s, u);
  }

  /** Fiber `t` holds everybody who was parked, and nobody else moves. */
  predicate TakenOff(fs: seq<Fiber>, fs': seq<Fiber>, t: Tid) {
    |fs'| == |fs| && forall u :: 0 <= u < |fs| ==> u != t ==>
      fs'[u] == if fs[u].pc == Parked then fs[u].(pc := Held(t)) else fs[u]
  }

  /** Fiber `t` is about to cancel `items`, with this status. */
  predicate Cancels(fs: seq<Fiber>, t: Tid, items: seq<Tid>, status: int) {
    t < |fs| && fs[t].pc.Cancelling? && fs[t].pc.items == items && fs[t].pc.status == status && fs[t].pc.done == 0
  }

  lemma DestroyMoves(s: State, t: Tid)
    requires Inv(s) && Alone(s, t)
    ensures
      var s' := DestroyLocked(s, t);
      Cancels(s'.fibers, t, s.ritems + s.witems, DESTROY) && TakenOff(s.fibers, s'.fibers, t)
  {
    forall u: Tid | u < |s.fibers| && s.fibers[u].pc == Parked
      ensures if s.fibers[u].sends then s.witems != [] && s.ritems == [] else s.ritems != [] && s.witems == []
    {
      ParkedSide(s, u);
    }
    PartnerIsOldest(s);
    hide Inv;
  }

  /** The channel's fields and the fibers with their items. */
  class Rendezvous {
    var fibers: seq<Fiber>
    var ritems: seq<Tid>
    var witems: seq<Tid>
    var closed: bool
    var freed: bool
    var sent: seq<Sent>
    var received: seq<Tid>
    var got: map<nat, int>

    function Value(): State
      reads this
    {
      State(fibers, ritems, witems, closed, freed, sent, received, got)
    }

    /** Lists, items, partners and histories correspond. */
    ghost predicate Valid()
      reads this
    {
      Inv(Value())
    }

    constructor (n: nat)
      ensures Valid() && Value() == Init(n)
    {
      fibers := seq(n, i => Fiber(Idle, false, 0, INIT, 0));
      ritems, witems, closed, freed := [], [], false, false;
      sent, received, got := [], [], map[];
      new;
      hide Inv;
      RunInv(n, []);
    }

    method Goto(t: Tid, pc: Pc)
      requires t < |fibers|
      modifies `fibers
      ensures fibers == old(fibers)[t := old(fibers)[t].(pc := pc)]
    {
      fibers := fibers[t := fibers[t].(pc := pc)];
    }

    /** `t` takes the other side's first item `p`, or waits for one. */
    method Join(t: Tid, p: Tid, meets: bool, k: nat)
      requires t < |fibers|
      modifies `fibers
      ensures fibers == if meets then Meet(old(fibers), t, p, k) else Park(old(fibers), t, k)
    {
      if meets {
        if p < |fibers| {
          fibers := fibers[p := fibers[p].(pc := Held(t))];
        }
        fibers := fibers[t := Fiber(Copying(p), fibers[t].sends, fibers[t].data, fibers[t].state, k)];
      } else {
        fibers := fibers[t := Fiber(Parked, fibers[t].sends, fibers[t].data, fibers[t].state, k)];
      }
    }

    /** The locked region of a send: nothing on a closed channel; otherwise the k-th accepted
        send meets the k-th accepted receive if that has come, and waits for it if not. */
    method SendValue(t: Tid)
      requires Valid() && t < |fibers| && fibers[t].pc == Entered
      modifies this
      ensures Valid() && Value() == SendLocked(old(Value()), t)
      ensures if old(closed) then fibers[t].pc == Returned(CLOSED) && sent == old(sent)
              else sent == old(sent) + [Sent(t, fibers[t].data)] && fibers[t].ticket == old(|sent|)
      ensures !old(closed) ==> fibers[t].pc == if old(|sent|) < |received| then Copying(received[old(|sent|)]) else Parked
    {
      SendLockedInv(Value(), t);
      PartnerIsOldest(Value());
      hide Inv;
      if closed {
        Goto(t, Returned(CLOSED));
      } else {
        var k := |sent|;
        sent := sent + [Sent(t, fibers[t].data)];
        if ritems != [] {
          var it := ritems[0];
          ritems := ritems[1..];
          Join(t, it, true, k);
        } else {
          witems := witems + [t];
          Join(t, t, false, k);
        }
      }
    }

    /** The locked region of a receive: the k-th accepted receive meets the k-th accepted send
        if that has come, even on a closed channel, and waits for it if the channel is open. */
    method ReceiveValue(t: Tid)
      requires Valid() && t < |fibers| && (fibers[t].pc == Idle || fibers[t].pc.Returned?)
      modifies this
      ensures Valid() && Value() == ReceiveLocked(old(Value()), t)
      ensures if old(closed) && old(|received|) == old(|sent|) then fibers[t].pc == Returned(CLOSED) && received == old(received)
              else received == old(received) + [t] && fibers[t].ticket == old(|received|)
      ensures received != old(received) ==>
                fibers[t].pc == if old(|received|) < |sent| then Copying(sent[old(|received|)].sender) else Parked
    {
      ReceiveInv(Value(), t);
      PartnerIsOldest(Value());
      assert closed ==> |received| <= |sent|;
      hide Inv;
      fibers := fibers[t := fibers[t].(sends := false, state := INIT)];
      if witems == [] {
        if !closed {
          ritems := ritems + [t];
          Join(t, t, false, |received|);
          received := received + [t];
        } else {
          Goto(t, Returned(CLOSED));
        }
      } else {
        var it := witems[0];
        witems := witems[1..];
        Join(t, it, true, |received|);
        received := received + [t];
      }
    }

    /** Takes all items of one side off their list for cancellation. */
    method TakeOff(t: Tid, items: seq<Tid>, senders: bool, base: nat, status: int)
      requires t < |fibers|
      modifies `fibers
      ensures
        var fs := HoldParked(old(fibers), t, senders);
        fibers == fs[t := fs[t].(pc := Cancelling(items, base, 0, status))]
    {
      var was := fibers;
      for i := 0 to |fibers|
        invariant |fibers| == |was|
        invariant forall u :: 0 <= u < |was| ==> fibers[u] == if u < i then HoldParked(was, t, senders)[u] else was[u]
      {
        if fibers[i].pc == Parked && fibers[i].sends == senders {
          Goto(i, Held(t));
        }
      }
      assert fibers == HoldParked(was, t, senders);
      Goto(t, Cancelling(items, base, 0, status));
    }

    /** The locked region of close: every parked reader is taken off, to come back with
        "closed", and every send that was accepted stays. */
    method CloseChannel(t: Tid)
      requires Valid() && t < |fibers| && fibers[t].pc == CloseEntered
      modifies this
      ensures Valid() && Value() == CloseLocked(old(Value()), t)
      ensures closed && ritems == [] && sent == old(sent) && |received| <= |sent|
      ensures old(closed) ==> Value() == old(Value()).Goto(t, Idle)
      ensures !old(closed) ==> fibers[t].pc == Cancelling(old(ritems), |sent|, 0, CLOSED)
      ensures !old(closed) ==> forall u :: 0 <= u < |fibers| ==> u != t ==>
                fibers[u] == if old(fibers[u].pc == Parked && !fibers[u].sends) then old(fibers[u]).(pc := Held(t)) else old(fibers[u])
    {
      CloseLockedInv(Value(), t);
      PartnerIsOldest(Value());
      assert closed ==> |received| <= |sent|;
      hide Inv;
      if !closed {
        var items := ritems;
        ritems, closed := [], true;
        TakeOff(t, items, false, |sent|, CLOSED);
        received := if |sent| < |received| then received[..|sent|] else received;
      } else {
        Goto(t, Idle);
      }
    }

    /** The region of destroy: nobody stays parked, everybody who was will come back with
        "destroyed", and every accepted call that is left has its partner. */
    method DestroyChannel(t: Tid)
      requires Valid() && t < |fibers| && (fibers[t].pc == Idle || fibers[t].pc.Returned?) && Quiet(Value())
      modifies this
      ensures Valid() && Value() == DestroyLocked(old(Value()), t)
      ensures freed && closed && ritems == [] && witems == [] && |sent| == |received|
      ensures Cancels(fibers, t, old(ritems + witems), DESTROY) && TakenOff(old(fibers), fibers, t)
    {
      hide Inv, TakenOff, Cancels, HoldParked, Quiet;
      DestroyInv(Value(), t);
      DestroyMoves(Value(), t);
      PartnerIsOldest(Value());
      closed, freed := true, true;
      if ritems != [] {
        var items := ritems;
        ritems := [];
        TakeOff(t, items, false, |sent|, DESTROY);
        received := if |sent| < |received| then received[..|sent|] else received;
      } else if witems != [] {
        var items := witems;
        witems := [];
        TakeOff(t, items, true, |received|, DESTROY);
        sent := if |received| < |sent| then sent[..|received|] else sent;
      } else {
        Goto(t, Cancelling([], 0, 0, DESTROY));
      }
    }

    /** A call starts. */
    method Enter(t: Tid, op: Op)
      requires Valid() && t < |fibers| && (fibers[t].pc == Idle || fibers[t].pc.Returned?)
      modifies this
      ensures Valid() && Value() == Begin(old(Value()), t, op)
    {
      BeginInv(Value(), t, op);
      hide Inv, ReceiveLocked, DestroyLocked, Quiet;
      if !freed {
        match op
        case Send(v) =>
          fibers := fibers[t := Fiber(if closed then Returned(CLOSED) else Entered, true, v, INIT, 0)];
        case Receive => ReceiveValue(t);
        case Close => Goto(t, if closed then Idle else CloseEntered);
        case Destroy =>
          if Quiet(Value()) {
            DestroyChannel(t);
          }
      }
    }

    /** The copy, the mark or the switch of an exchange; the other fibers may step in between. */
    method Exchange(t: Tid, p: Tid)
      requires Valid() && t < |fibers| && p < |fibers|
      requires fibers[t].pc == Copying(p) || fibers[t].pc == Marking(p) || fibers[t].pc == Switching(p)
      modifies this
      ensures Valid() && forall op :: Value() == Step(old(Value()), t, op)
    {
      StepInv(Value(), t, Op.Receive);
      assert t != p by {
        assert FiberOk(Value(), t);
      }
      hide Inv;
      if fibers[t].pc.Copying? {
        var dest, src := if fibers[t].sends then p else t, if fibers[t].sends then t else p;
        fibers := fibers[dest := fibers[dest].(data := fibers[src].data)];
        got := got[fibers[t].ticket := fibers[src].data];
        Goto(t, Marking(p));
      } else if fibers[t].pc.Marking? {
        fibers := fibers[p := fibers[p].(state := SUCCESS)];
        Goto(t, Switching(p));
      } else {
        Goto(p, Returned(fibers[p].state));
        Goto(t, Returned(SUCCESS));
      }
    }

    /** The next item of a close or a destroy gets its state, or its fiber is enqueued. */
    method Cancel(t: Tid)
      requires Valid() && t < |fibers| && (fibers[t].pc.Cancelling? || fibers[t].pc.Waking?)
      modifies this
      ensures Valid() && forall op :: Value() == Step(old(Value()), t, op)
    {
      StepInv(Value(), t, Op.Receive);
      hide Inv;
      match fibers[t].pc
      case Cancelling(items, base, done, status) =>
        if done < |items| && items[done] < |fibers| {
          fibers := fibers[items[done] := fibers[items[done]].(state := status)];
          Goto(t, Cancelling(items, base, done + 1, status));
        } else {
          Goto(t, Waking(items, base, 0));
        }
      case Waking(items, base, done) =>
        if done < |items| && items[done] < |fibers| {
          Goto(items[done], Returned(fibers[items[done]].state));
          Goto(t, Waking(items, base, done + 1));
        } else {
          Goto(t, Idle);
        }
    }

    /** The next access of fiber `t`, which starts `op` if it is between calls. */
    method Advance(t: Tid, op: Op)
      requires Valid()
      modifies this
      ensures Valid() && Value() == Step(old(Value()), t, op)
    {
      hide Valid, Begin, SendLocked, CloseLocked, Copy, SetState, SwitchTo, CancelNext, WakeNext;
      if t < |fibers| {
        match fibers[t].pc
        case Idle => Enter(t, op);
        case Returned(_) => Enter(t, op);
        case Entered => SendValue(t);
        case CloseEntered => CloseChannel(t);
        case Copying(p) => if p < |fibers| { Exchange(t, p); }
        case Marking(p) => if p < |fibers| { Exchange(t, p); }
        case Switching(p) => if p < |fibers| { Exchange(t, p); }
        case Cancelling(_, _, _, _) => Cancel(t);
        case Waking(_, _, _) => Cancel(t);
        case _ =>
      }
    }

    /** Any calls of any fibers in any interleaving, from the start: what is proved of all runs
        holds here. */
    method Execute(turns: seq<Turn>)
      requires Valid() && Value() == Init(|fibers|)
      modifies this
      ensures Valid() && Value() == Run(old(|fibers|), turns)
    {
      hide Valid, Init, Step;
      for i := 0 to |turns|
        invariant Valid() && Value() == Run(old(|fibers|), turns[..i])
      {
        assert turns[..i + 1][..i] == turns[..i];
        Advance(turns[i].fiber, turns[i].op);
      }
      assert turns[..|turns|] == turns;
    }
  }
}
