/**
 The prime sieve (demo/prime-seive.c): a generator, a growing chain of filters and a reader,
 joined by channels.  Of a channel it uses what is sent and how much of it is taken, which
 the rendezvous channel is shown to give (ChannelRefines, ReturnsWhenTaken).
 */
module Sieve {

  import Channel

  const PRIMES: nat := 100

  /** The values sent, of which the first `taken` have been received. */
  datatype Chan = Chan(sent: seq<int>, taken: nat)

  datatype Pc = Reading | Sending(value: int) | Awaiting

  /** Filter j reads channel j and sends on channel j + 1. */
  datatype Filter = Filter(prime: int, pc: Pc)

  datatype State = State(chans: seq<Chan>, next: int, awaiting: bool, filters: seq<Filter>, printed: seq<int>)

  function Init(): State {
    State([Chan([], 0)], 2, false, [], [])
  }

  function Put(chans: seq<Chan>, c: nat, v: int): seq<Chan>
    requires c < |chans|
  {
    chans[c := chans[c].(sent := chans[c].sent + [v])]
  }

  function Take(chans: seq<Chan>, c: nat): seq<Chan>
    requires c < |chans|
  {
    chans[c := chans[c].(taken := chans[c].taken + 1)]
  }

  predicate CanTake(s: State, c: nat) {
    c < |s.chans| && s.chans[c].taken < |s.chans[c].sent|
  }

  predicate AllTaken(s: State, c: nat) {
    c < |s.chans| && s.chans[c].taken == |s.chans[c].sent|
  }

  /** generate: send the next number, or go on when the last one has been received. */
  function Generate(s: State): State {
    if s.awaiting then
      if AllTaken(s, 0) then s.(awaiting := false, next := s.next + 1) else s
    else if |s.chans| > 0 then s.(chans := Put(s.chans, 0, s.next), awaiting := true)
    else s
  }

  /** filter: receive a value and, unless the prime divides it, send it on. */
  function Sift(s: State, j: nat): State
    requires j < |s.filters|
  {
    var f := s.filters[j];
    match f.pc
    case Reading =>
      if CanTake(s, j) then
        var v := s.chans[j].sent[s.chans[j].taken];
        var pc := if f.prime != 0 && v % f.prime != 0 then Sending(v) else Reading;
        s.(chans := Take(s.chans, j), filters := s.filters[j := f.(pc := pc)])
      else s
    case Sending(v) =>
      if j + 1 < |s.chans| then s.(chans := Put(s.chans, j + 1, v), filters := s.filters[j := f.(pc := Awaiting)])
      else s
    case Awaiting =>
      if AllTaken(s, j + 1) then s.(filters := s.filters[j := f.(pc := Reading)]) else s
  }

  /** main: receive a number from the last channel, print it, and put a new filter and a new
      channel behind. */
  function Read(s: State): State {
    var c := |s.printed|;
    if c < PRIMES && CanTake(s, c) then
      var v := s.chans[c].sent[s.chans[c].taken];
      s.(chans := Take(s.chans, c) + [Chan([], 0)], filters := s.filters + [Filter(v, Reading)], printed := s.printed + [v])
    else s
  }

  datatype Who = Generator | Main | Filtering(j: nat)

  function Step(s: State, who: Who): State {
    match who
    case Generator => Generate(s)
    case Main => Read(s)
    case Filtering(j) => if j < |s.filters| then Sift(s, j) else s
  }

  function Run(schedule: seq<Who>): State {
    if schedule == [] then Init()
    else Step(Run(schedule[..|schedule| - 1]), schedule[|schedule| - 1])
  }

  // ------------------------------------------------------------ what every step keeps

  function Keep(vs: seq<int>, p: int): seq<int> {
    if vs == [] || p == 0 then []
    else if vs[|vs| - 1] % p == 0 then Keep(vs[..|vs| - 1], p)
    else Keep(vs[..|vs| - 1], p) + [vs[|vs| - 1]]
  }

  function Pending(f: Filter): seq<int> {
    if f.pc.Sending? then [f.pc.value] else []
  }

  /** What a filter has let through is what it has read without the multiples of its prime,
      which was the first value on its channel. */
  ghost predicate FilterOk(s: State, j: nat) {
    j < |s.filters| && j + 1 < |s.chans| && j < |s.printed| ==>
      && 0 < s.chans[j].taken <= |s.chans[j].sent|
      && s.filters[j].prime == s.printed[j] == s.chans[j].sent[0]
      && s.printed[j] >= 2
      && Keep(s.chans[j].sent[..s.chans[j].taken], s.printed[j]) == s.chans[j + 1].sent + Pending(s.filters[j])
      && (s.filters[j].pc == Awaiting || AllTaken(s, j + 1))
      && |s.chans[j + 1].sent| <= s.chans[j + 1].taken + 1
      && (s.filters[j].pc.Sending? ==> s.filters[j].pc.value >= 2)
  }

  ghost predicate ValuesOk(s: State, c: nat) {
    c < |s.chans| ==>
      && s.chans[c].taken <= |s.chans[c].sent|
      && forall i :: 0 <= i < |s.chans[c].sent| ==> s.chans[c].sent[i] >= 2
  }

  ghost predicate Inv(s: State) {
    && |s.chans| == |s.printed| + 1 && |s.filters| == |s.printed| <= PRIMES
    && s.chans[|s.printed|].taken == 0
    && s.next == (if s.awaiting then |s.chans[0].sent| + 1 else |s.chans[0].sent| + 2)
    && (s.awaiting || AllTaken(s, 0)) && |s.chans[0].sent| <= s.chans[0].taken + 1
    && (forall i :: 0 <= i < |s.chans[0].sent| ==> s.chans[0].sent[i] == i + 2)
    && (forall c :: ValuesOk(s, c)) && (forall j :: FilterOk(s, j))
  }

  lemma KeepOne(vs: seq<int>, k: nat, p: int)
    requires k < |vs| && p != 0
    ensures Keep(vs[..k + 1], p) == Keep(vs[..k], p) + if vs[k] % p != 0 then [vs[k]] else []
  {
    assert vs[..k + 1][..k] == vs[..k];
  }

  /** A value sent at the end does not touch what is before. */
  lemma SentLonger(vs: seq<int>, v: int, k: nat)
    requires k <= |vs|
    ensures (vs + [v])[..k] == vs[..k]
  {}

  lemma GenerateInv(s: State)
    requires Inv(s)
    ensures Inv(Generate(s))
  {
    var s' := Generate(s);
    assert ValuesOk(s, 0) && FilterOk(s, 0);
    SentLonger(s.chans[0].sent, s.next, s.chans[0].taken);
    forall c: nat
      ensures ValuesOk(s', c)
    {
      assert ValuesOk(s, c);
    }
    forall j: nat
      ensures FilterOk(s', j)
    {
      assert FilterOk(s, j);
    }
  }

  lemma SiftReadFilter(s: State, j: nat, i: nat)
    requires Inv(s) && j < |s.filters| && s.filters[j].pc == Reading && CanTake(s, j)
    ensures FilterOk(Sift(s, j), i)
  {
    assert ValuesOk(s, j) && FilterOk(s, j) && FilterOk(s, i);
    KeepOne(s.chans[j].sent, s.chans[j].taken, s.printed[j]);
  }

  lemma SiftReadInv(s: State, j: nat)
    requires Inv(s) && j < |s.filters| && s.filters[j].pc == Reading && CanTake(s, j)
    ensures Inv(Sift(s, j))
  {
    var s' := Sift(s, j);
    assert FilterOk(s, j);
    forall i: nat
      ensures FilterOk(s', i)
    {
      SiftReadFilter(s, j, i);
    }
    hide FilterOk;
    assert ValuesOk(s, j);
    forall c: nat
      ensures ValuesOk(s', c)
    {
      assert ValuesOk(s, c);
    }
  }

  lemma SiftSendInv(s: State, j: nat)
    requires Inv(s) && j < |s.filters| && s.filters[j].pc.Sending?
    ensures Inv(Sift(s, j))
  {
    var s' := Sift(s, j);
    var v := s.filters[j].pc.value;
    assert ValuesOk(s, j + 1) && FilterOk(s, j);
    SentLonger(s.chans[j + 1].sent, v, s.chans[j + 1].taken);
    assert s'.chans[j + 1].sent + [] == s.chans[j + 1].sent + [v];
    forall c: nat
      ensures ValuesOk(s', c)
    {
      assert ValuesOk(s, c);
    }
    forall i: nat
      ensures FilterOk(s', i)
    {
      assert FilterOk(s, i);
    }
  }

  lemma SiftWaitInv(s: State, j: nat)
    requires Inv(s) && j < |s.filters| && s.filters[j].pc == Awaiting
    ensures Inv(Sift(s, j))
  {
    var s' := Sift(s, j);
    assert FilterOk(s, j);
    forall c: nat
      ensures ValuesOk(s', c)
    {
      assert ValuesOk(s, c);
    }
    forall i: nat
      ensures FilterOk(s', i)
    {
      assert FilterOk(s, i);
    }
  }

  lemma ReadInv(s: State)
    requires Inv(s)
    ensures Inv(Read(s))
  {
    var s' := Read(s);
    var c := |s.printed|;
    if c < PRIMES && CanTake(s, c) {
      assert ValuesOk(s, c) && AllTaken(s', c + 1);
      var vs := s.chans[c].sent;
      KeepOne(vs, 0, vs[0]);
      assert vs[0] % vs[0] == 0;
      forall d: nat
        ensures ValuesOk(s', d)
      {
        assert ValuesOk(s, d);
      }
      forall i: nat
        ensures FilterOk(s', i)
      {
        assert FilterOk(s, i);
      }
    }
  }

  lemma StepInv(s: State, who: Who)
    requires Inv(s)
    ensures Inv(Step(s, who))
  {
    match who
    case Generator => GenerateInv(s);
    case Main => ReadInv(s);
    case Filtering(j) =>
      if j < |s.filters| {
        match s.filters[j].pc {
          case Reading => if CanTake(s, j) { SiftReadInv(s, j); }
          case Sending(_) => SiftSendInv(s, j);
          case Awaiting => SiftWaitInv(s, j);
        }
      }
  }

  lemma {:induction false} RunInv(schedule: seq<Who>)
    ensures Inv(Run(schedule))
  {
    if schedule != [] {
      RunInv(schedule[..|schedule| - 1]);
      StepInv(Run(schedule[..|schedule| - 1]), schedule[|schedule| - 1]);
    }
  }

  // ------------------------------------------------------------ the streams

  predicate Divided(v: int, ps: seq<int>) {
    exists i :: 0 <= i < |ps| && ps[i] != 0 && v % ps[i] == 0
  }

  /** The numbers from 2 to below n that nothing in ps divides. */
  function Undivided(n: int, ps: seq<int>): seq<int>
    decreases n
  {
    if n <= 2 then []
    else if Divided(n - 1, ps) then Undivided(n - 1, ps)
    else Undivided(n - 1, ps) + [n - 1]
  }

  lemma DividedMore(v: int, ps: seq<int>, p: int)
    requires p != 0
    ensures Divided(v, ps + [p]) <==> Divided(v, ps) || v % p == 0
  {
    var qs := ps + [p];
    if Divided(v, ps) {
      var i :| 0 <= i < |ps| && ps[i] != 0 && v % ps[i] == 0;
      assert qs[i] == ps[i];
    }
    assert qs[|ps|] == p;
  }

  lemma {:induction false} KeepUndivided(n: int, ps: seq<int>, p: int)
    requires p != 0
    ensures Keep(Undivided(n, ps), p) == Undivided(n, ps + [p])
    decreases n
  {
    if n > 2 {
      KeepUndivided(n - 1, ps, p);
      DividedMore(n - 1, ps, p);
      hide Divided;
      var u := Undivided(n - 1, ps);
      assert (u + [n - 1])[..|u|] == u;
    }
  }

  lemma {:induction false} KeepPrefix(vs: seq<int>, k: nat, p: int)
    requires k <= |vs|
    ensures Keep(vs[..k], p) <= Keep(vs, p)
    decreases |vs| - k
  {
    if k == |vs| {
      assert vs[..k] == vs;
    } else if p != 0 {
      KeepPrefix(vs, k + 1, p);
      KeepOne(vs, k, p);
    }
  }

  lemma FirstStream(s: State)
    requires Inv(s)
    ensures s.chans[0].sent == Undivided(|s.chans[0].sent| + 2, [])
  {
    AllNumbers(|s.chans[0].sent| + 2);
    assert forall i :: 0 <= i < |s.chans[0].sent| ==> s.chans[0].sent[i] == i + 2;
  }

  lemma {:induction false} AllNumbers(n: int)
    requires n >= 2
    ensures |Undivided(n, [])| == n - 2 && forall i :: 0 <= i < n - 2 ==> Undivided(n, [])[i] == i + 2
    decreases n
  {
    if n > 2 {
      AllNumbers(n - 1);
    }
  }

  /** What has been sent on channel j is the beginning of the numbers that none of the first j
      printed values divides. */
  lemma {:induction false} Stream(s: State, j: nat)
    requires Inv(s) && j < |s.chans|
    ensures s.chans[j].sent <= Undivided(|s.chans[0].sent| + 2, s.printed[..j])
  {
    var n := |s.chans[0].sent| + 2;
    if j == 0 {
      FirstStream(s);
      assert s.printed[..0] == [];
    } else {
      Stream(s, j - 1);
      assert FilterOk(s, j - 1);
      var p, u, k := s.printed[j - 1], Undivided(n, s.printed[..j - 1]), s.chans[j - 1].taken;
      assert s.printed[..j] == s.printed[..j - 1] + [p];
      assert s.chans[j - 1].sent[..k] == u[..k];
      KeepPrefix(u, k, p);
      KeepUndivided(n, s.printed[..j - 1], p);
    }
  }

  lemma {:induction false} LeastUndivided(n: int, ps: seq<int>)
    requires Undivided(n, ps) != []
    ensures
      var q := Undivided(n, ps)[0];
      2 <= q < n && !Divided(q, ps) && forall v :: 2 <= v < q ==> Divided(v, ps)
    decreases n
  {
    if Undivided(n - 1, ps) != [] {
      LeastUndivided(n - 1, ps);
    } else {
      NoneUndivided(n - 1, ps);
    }
  }

  lemma {:induction false} NoneUndivided(n: int, ps: seq<int>)
    requires Undivided(n, ps) == []
    ensures forall v :: 2 <= v < n ==> Divided(v, ps)
    decreases n
  {
    if n > 2 {
      NoneUndivided(n - 1, ps);
    }
  }

  // ------------------------------------------------------------ primes

  ghost predicate IsPrime(p: int) {
    p >= 2 && forall d :: 2 <= d < p ==> p % d != 0
  }

  ghost function PrimesBelow(p: int): set<int> {
    set r | 2 <= r < p && IsPrime(r)
  }

  /** `p` is the prime with exactly `i` primes below it. */
  ghost predicate NthPrime(p: int, i: nat) {
    IsPrime(p) && |PrimesBelow(p)| == i
  }

  lemma Product(p: int, k: int)
    requires p > 0
    ensures k >= 1 ==> p * k >= p
    ensures k <= -1 ==> p * k <= -p
  {
    assert k >= 1 ==> p * (k - 1) >= 0;
    assert k <= -1 ==> p * (k + 1) <= 0;
  }

  lemma Multiple(p: int, m: int)
    requires p > 0
    ensures p * m % p == 0
  {
    var k := m - p * m / p;
    assert p * m == p * (p * m / p) + p * m % p;
    assert p * m % p == p * k;
    Product(p, k);
  }

  lemma DividesThrough(q: int, d: int, p: int)
    requires d > 0 && p > 0 && q % d == 0 && d % p == 0
    ensures q % p == 0
  {
    var a, b := q / d, d / p;
    assert q == d * a && d == p * b;
    assert p * b * a == p * (b * a);
    Multiple(p, b * a);
  }

  lemma FactorDivided(q: int, d: int, ps: seq<int>)
    requires d > 0 && q % d == 0 && Divided(d, ps) && forall i :: 0 <= i < |ps| ==> ps[i] > 0
    ensures Divided(q, ps)
  {
    var k :| 0 <= k < |ps| && ps[k] != 0 && d % ps[k] == 0;
    DividesThrough(q, d, ps[k]);
  }

  lemma MemberDivides(q: int, ps: seq<int>)
    requires q > 0 && q in ps
    ensures Divided(q, ps)
  {
    var k :| 0 <= k < |ps| && ps[k] == q;
    assert q % ps[k] == 0;
  }

  /** The first `k` primes, in order. */
  ghost predicate FirstPrimes(ps: seq<int>) {
    && (forall i :: 0 <= i < |ps| ==> IsPrime(ps[i]))
    && (forall i, j :: 0 <= i < j < |ps| ==> ps[i] < ps[j])
    && (forall r, i :: 0 <= i < |ps| && 2 <= r <= ps[i] && IsPrime(r) ==> r in ps)
  }

  lemma PrimeDivisor(r: int, ps: seq<int>)
    requires IsPrime(r) && FirstPrimes(ps) && Divided(r, ps)
    ensures r in ps
  {
    var k :| 0 <= k < |ps| && ps[k] != 0 && r % ps[k] == 0;
    assert IsPrime(ps[k]);
  }

  lemma NextIsPrime(ps: seq<int>, q: int)
    requires FirstPrimes(ps) && q >= 2 && !Divided(q, ps)
    requires forall v :: 2 <= v < q ==> Divided(v, ps)
    ensures IsPrime(q)
  {
    assert forall i :: 0 <= i < |ps| ==> IsPrime(ps[i]) && ps[i] > 0;
    hide FirstPrimes, Divided;
    forall d | 2 <= d < q
      ensures q % d != 0
    {
      if q % d == 0 {
        FactorDivided(q, d, ps);
      }
    }
  }

  lemma NextIsGreater(ps: seq<int>, q: int)
    requires FirstPrimes(ps) && !Divided(q, ps) && IsPrime(q)
    ensures forall i :: 0 <= i < |ps| ==> ps[i] < q
  {
    if q in ps {
      MemberDivides(q, ps);
    }
    hide Divided;
  }

  /** The least number from 2 on that no prime so far divides is the next prime. */
  lemma NextPrime(ps: seq<int>, q: int)
    requires FirstPrimes(ps) && q >= 2 && !Divided(q, ps)
    requires forall v :: 2 <= v < q ==> Divided(v, ps)
    ensures FirstPrimes(ps + [q])
  {
    NextIsPrime(ps, q);
    NextIsGreater(ps, q);
    hide Divided, IsPrime;
    var qs := ps + [q];
    assert qs[|ps|] == q && forall r :: r in ps ==> r in qs;
    forall r, i | 0 <= i < |qs| && 2 <= r <= qs[i] && IsPrime(r)
      ensures r in qs
    {
      if i == |ps| && r != q {
        assert Divided(r, ps);
        PrimeDivisor(r, ps);
      }
    }
  }

  lemma {:induction false} CountBelow(ps: seq<int>, i: nat)
    requires FirstPrimes(ps) && i < |ps|
    ensures PrimesBelow(ps[i]) == (set k | 0 <= k < i :: ps[k]) && |PrimesBelow(ps[i])| == i
  {
    var below := set k | 0 <= k < i :: ps[k];
    forall r | r in PrimesBelow(ps[i])
      ensures r in below
    {
      assert r in ps;
      var k :| 0 <= k < |ps| && ps[k] == r;
      assert k < i;
    }
    assert PrimesBelow(ps[i]) == below;
    if i > 0 {
      CountBelow(ps, i - 1);
      assert below == PrimesBelow(ps[i - 1]) + {ps[i - 1]};
    } else {
      assert below == {};
    }
  }

  // ------------------------------------------------------------ theorems over every schedule

  lemma PrintedIsLeast(s: State, j: nat)
    requires Inv(s) && j < |s.printed|
    ensures s.printed[j] >= 2 && !Divided(s.printed[j], s.printed[..j])
    ensures forall v :: 2 <= v < s.printed[j] ==> Divided(v, s.printed[..j])
  {
    hide Divided;
    assert FilterOk(s, j);
    Stream(s, j);
    LeastUndivided(|s.chans[0].sent| + 2, s.printed[..j]);
  }

  lemma {:induction false} PrintedFirstPrimes(s: State, j: nat)
    requires Inv(s) && j <= |s.printed|
    ensures FirstPrimes(s.printed[..j])
  {
    if j == 0 {
      assert s.printed[..0] == [];
    } else {
      hide Inv, FirstPrimes, Divided;
      PrintedFirstPrimes(s, j - 1);
      PrintedIsLeast(s, j - 1);
      NextPrime(s.printed[..j - 1], s.printed[j - 1]);
      assert s.printed[..j] == s.printed[..j - 1] + [s.printed[j - 1]];
    }
  }

  lemma PrintedPrime(s: State, i: nat)
    requires Inv(s) && i < |s.printed|
    ensures NthPrime(s.printed[i], i)
  {
    var ps := s.printed;
    PrintedFirstPrimes(s, |ps|);
    assert ps[..|ps|] == ps;
    hide Inv;
    CountBelow(ps, i);
  }

  /** Whatever the interleaving, the i-th printed value is the i-th prime. */
  lemma PrintsThePrimes(schedule: seq<Who>, i: nat)
    requires i < |Run(schedule).printed|
    ensures NthPrime(Run(schedule).printed[i], i)
  {
    RunInv(schedule);
    PrintedPrime(Run(schedule), i);
  }

  // ------------------------------------------------------------ the counter stays small

  lemma {:induction false} KeepShort(vs: seq<int>, k: nat, p: int)
    requires k <= |vs|
    ensures |Keep(vs, p)| <= |Keep(vs[..k], p)| + |vs| - k
    decreases |vs| - k
  {
    if k == |vs| {
      assert vs[..k] == vs;
    } else if p != 0 {
      KeepShort(vs, k + 1, p);
      KeepOne(vs, k, p);
    }
  }

  /** Between the generator and the reader each channel with the filter before it holds at most
      one value, so almost all numbers that could have come through have been received. */
  lemma {:induction false} Backlog(s: State, j: nat)
    requires Inv(s) && j < |s.chans|
    ensures |Undivided(|s.chans[0].sent| + 2, s.printed[..j])| <= s.chans[j].taken + j + 1
  {
    var n := |s.chans[0].sent| + 2;
    if j == 0 {
      FirstStream(s);
      assert s.printed[..0] == [];
    } else {
      Backlog(s, j - 1);
      Stream(s, j - 1);
      assert FilterOk(s, j - 1);
      var p, u, k := s.printed[j - 1], Undivided(n, s.printed[..j - 1]), s.chans[j - 1].taken;
      assert s.printed[..j] == s.printed[..j - 1] + [p];
      assert s.chans[j - 1].sent[..k] == u[..k];
      KeepShort(u, k, p);
      KeepUndivided(n, s.printed[..j - 1], p);
    }
  }

  lemma {:induction false} UndividedHas(n: int, ps: seq<int>, v: int)
    requires 2 <= v < n && !Divided(v, ps)
    ensures v in Undivided(n, ps)
    decreases n
  {
    if v < n - 1 {
      UndividedHas(n - 1, ps, v);
    }
  }

  lemma {:induction false} FewMembers(vs: seq<int>)
    ensures |set v | v in vs| <= |vs|
  {
    var all := set v | v in vs;
    if vs != [] {
      var rest := set v | v in vs[1..];
      FewMembers(vs[1..]);
      assert all == rest + {vs[0]};
    } else {
      assert all == {};
    }
  }

  lemma FewerMembers(a: set<int>, b: set<int>)
    requires a <= b
    ensures |a| <= |b|
  {
    assert b == a + (b - a) && a !! (b - a);
  }

  /** The primes among the numbers generated are printed or on their way. */
  lemma FewPrimesGenerated(s: State)
    requires Inv(s)
    ensures |PrimesBelow(|s.chans[0].sent| + 2)| <= 2 * |s.printed| + 1
  {
    var n, ps := |s.chans[0].sent| + 2, s.printed;
    PrintedFirstPrimes(s, |ps|);
    Backlog(s, |ps|);
    assert ps[..|ps|] == ps && s.chans[|ps|].taken == 0;
    hide Inv, FirstPrimes, Undivided, Divided;
    var u := Undivided(n, ps);
    FewMembers(ps + u);
    forall r | r in PrimesBelow(n)
      ensures r in ps + u
    {
      if Divided(r, ps) {
        PrimeDivisor(r, ps);
      } else {
        UndividedHas(n, ps, r);
      }
    }
    FewerMembers(PrimesBelow(n), set v | v in ps + u);
  }

  /** None of the primes from 7 to 31 divides q. */
  predicate Trial(q: int) {
    && q % 7 != 0 && q % 11 != 0 && q % 13 != 0 && q % 17 != 0 && q % 19 != 0 && q % 23 != 0
    && q % 29 != 0 && q % 31 != 0
  }

  lemma SmallFactor(q: int, e: int)
    requires 2 <= e <= 36 && q % e == 0 && q % 2 != 0 && q % 3 != 0 && q % 5 != 0
    ensures !Trial(q)
  {
    if e % 2 == 0 {
      DividesThrough(q, e, 2);
    } else if e % 3 == 0 {
      DividesThrough(q, e, 3);
    } else if e % 5 == 0 {
      DividesThrough(q, e, 5);
    } else {
      SmallPrime(e);
    }
  }

  lemma SmallPrime(e: int)
    requires 2 <= e <= 36 && e % 2 != 0 && e % 3 != 0 && e % 5 != 0
    ensures e == 7 || e == 11 || e == 13 || e == 17 || e == 19 || e == 23 || e == 29 || e == 31
  {}

  lemma Cofactor(q: int, d: int)
    requires 37 <= d < q < 37 * 37 && q % d == 0
    ensures 2 <= q / d <= 36 && q % (q / d) == 0
  {
    var e := q / d;
    assert q == d * e;
    Product(d, e);
    assert e >= 2 && (d - 37) * e >= 0;
    Multiple(e, d);
  }

  lemma PrimeByTrial(q: int)
    requires 31 < q < 37 * 37 && q % 2 != 0 && q % 3 != 0 && q % 5 != 0 && Trial(q)
    ensures IsPrime(q)
  {
    hide Trial;
    forall d | 2 <= d < q
      ensures q % d != 0
    {
      if q % d == 0 {
        if d > 36 {
          Cofactor(q, d);
        }
        SmallFactor(q, if d <= 36 then d else q / d);
      }
    }
  }

  function One(q: int): nat {
    if Trial(q) then 1 else 0
  }

  /** The numbers from b on below b + 30 that pass, b being a multiple of 30. */
  function Spokes(b: nat): nat {
    One(b + 1) + One(b + 7) + One(b + 11) + One(b + 13) + One(b + 17) + One(b + 19) + One(b + 23) + One(b + 29)
  }

  function Wheel(b: nat, turns: nat): nat
    decreases turns
  {
    if turns == 0 then 0 else Wheel(b + 30, turns - 1) + Spokes(b)
  }

  lemma Turns30()
    ensures Wheel(30, 5) >= 30
  {}

  lemma Turns180()
    ensures Wheel(180, 5) >= 25
  {}

  lemma Turns330()
    ensures Wheel(330, 5) >= 26
  {}

  lemma Turns480()
    ensures Wheel(480, 5) >= 22
  {}

  lemma Turns630()
    ensures Wheel(630, 5) >= 23
  {}

  lemma Turns780()
    ensures Wheel(780, 5) >= 21
  {}

  lemma Turns930()
    ensures Wheel(930, 5) >= 22
  {}

  lemma Turns1080()
    ensures Wheel(1080, 3) >= 12
  {}

  lemma Turns1170()
    ensures Wheel(1170, 3) >= 13
  {}

  lemma HalfResidue(k: nat, r: nat)
    ensures (2 * k + r) % 2 == r % 2
  {}

  lemma ThirdResidue(k: nat, r: nat)
    ensures (3 * k + r) % 3 == r % 3
  {}

  lemma FifthResidue(k: nat, r: nat)
    ensures (5 * k + r) % 5 == r % 5
  {}

  lemma OneCounts(k: nat, from: nat, r: nat)
    requires 1 <= k <= 44 && from <= r
    requires r == 1 || r == 7 || r == 11 || r == 13 || r == 17 || r == 19 || r == 23 || r == 29
    ensures |PrimesBelow(30 * k + r + 1)| >= |PrimesBelow(30 * k + from)| + One(30 * k + r)
  {
    hide IsPrime;
    assert !Trial(31);
    hide Trial;
    var q := 30 * k + r;
    FewerMembers(PrimesBelow(30 * k + from), PrimesBelow(q));
    FewerMembers(PrimesBelow(q), PrimesBelow(q + 1));
    if Trial(q) {
      HalfResidue(15 * k, r);
      ThirdResidue(10 * k, r);
      FifthResidue(6 * k, r);
      assert q != 31;
      PrimeByTrial(q);
      FewerMembers(PrimesBelow(q) + {q}, PrimesBelow(q + 1));
    }
  }

  lemma SpokesCount(k: nat)
    requires 1 <= k <= 44
    ensures |PrimesBelow(30 * k + 30)| >= |PrimesBelow(30 * k)| + Spokes(30 * k)
  {
    hide PrimesBelow, One;
    OneCounts(k, 0, 1);
    OneCounts(k, 2, 7);
    OneCounts(k, 8, 11);
    OneCounts(k, 12, 13);
    OneCounts(k, 14, 17);
    OneCounts(k, 18, 19);
    OneCounts(k, 20, 23);
    OneCounts(k, 24, 29);
  }

  lemma {:induction false} WheelCounts(k: nat, turns: nat)
    requires 1 <= k && k + turns <= 45
    ensures |PrimesBelow(30 * (k + turns))| >= |PrimesBelow(30 * k)| + Wheel(30 * k, turns)
    decreases turns
  {
    hide PrimesBelow, Spokes;
    if turns > 0 {
      SpokesCount(k);
      WheelCounts(k + 1, turns - 1);
      assert 30 * (k + 1) == 30 * k + 30 && 30 * (k + 1 + (turns - 1)) == 30 * (k + turns);
    }
  }

  lemma ManyPrimes()
    ensures |PrimesBelow(1260)| >= 202
  {
    hide PrimesBelow, Wheel;
    Turns30();
    WheelCounts(1, 5);
    Turns180();
    WheelCounts(6, 5);
    Turns330();
    WheelCounts(11, 5);
    Turns480();
    WheelCounts(16, 5);
    Turns630();
    WheelCounts(21, 5);
    Turns780();
    WheelCounts(26, 5);
    Turns930();
    WheelCounts(31, 5);
    Turns1080();
    WheelCounts(36, 3);
    Turns1170();
    WheelCounts(39, 3);
    EightPrimes();
  }

  lemma EightPrimes()
    ensures |PrimesBelow(30)| >= 8
  {
    assert IsPrime(2) && IsPrime(3) && IsPrime(5) && IsPrime(7);
    assert IsPrime(11) && IsPrime(13) && IsPrime(17) && IsPrime(19);
    hide IsPrime;
    FewerMembers({2, 3, 5, 7, 11, 13, 17, 19}, PrimesBelow(30));
  }

  /** The generator is stopped before it gets to 1260, whatever the interleaving, so neither
      its counter nor any value that is sent is beyond an int. */
  lemma CounterStaysSmall(schedule: seq<Who>)
    ensures Run(schedule).next <= 1260
    ensures forall c, i :: 0 <= c < |Run(schedule).chans| && 0 <= i < |Run(schedule).chans[c].sent| ==>
              2 <= Run(schedule).chans[c].sent[i] <= 1260
  {
    RunInv(schedule);
    var s := Run(schedule);
    var n := |s.chans[0].sent| + 2;
    FewPrimesGenerated(s);
    ManyPrimes();
    if n >= 1260 {
      FewerMembers(PrimesBelow(1260), PrimesBelow(n));
    }
    hide Run, PrimesBelow, IsPrime;
    forall c, i | 0 <= c < |s.chans| && 0 <= i < |s.chans[c].sent|
      ensures 2 <= s.chans[c].sent[i] <= 1260
    {
      Stream(s, c);
      UndividedBelow(n, s.printed[..c], i);
    }
  }

  lemma {:induction false} UndividedBelow(n: int, ps: seq<int>, i: nat)
    requires i < |Undivided(n, ps)|
    ensures 2 <= Undivided(n, ps)[i] < n
    decreases n
  {
    if i < |Undivided(n - 1, ps)| {
      UndividedBelow(n - 1, ps, i);
    }
  }

  /** No deadlock: until all are printed somebody can take a step. */
  lemma SomeoneProgresses(schedule: seq<Who>) returns (who: Who)
    requires |Run(schedule).printed| < PRIMES
    ensures Step(Run(schedule), who) != Run(schedule)
  {
    RunInv(schedule);
    var s := Run(schedule);
    var c := |s.printed|;
    if CanTake(s, c) {
      who := Main;
      assert |Read(s).printed| == c + 1;
    } else {
      assert ValuesOk(s, c);
      who := WriterProgresses(s, c);
    }
  }

  /** If everything on channel c has been received, its sender or somebody before it can go on. */
  lemma {:induction false} WriterProgresses(s: State, c: nat) returns (who: Who)
    requires Inv(s) && AllTaken(s, c)
    ensures Step(s, who) != s
    decreases c
  {
    if c == 0 {
      who := Generator;
      assert Generate(s).awaiting != s.awaiting;
    } else if s.filters[c - 1].pc != Reading || CanTake(s, c - 1) {
      who := Filtering(c - 1);
      SiftMoves(s, c - 1);
    } else {
      assert ValuesOk(s, c - 1);
      who := WriterProgresses(s, c - 1);
    }
  }

  lemma SiftMoves(s: State, j: nat)
    requires Inv(s) && j < |s.filters| && AllTaken(s, j + 1) && (s.filters[j].pc != Reading || CanTake(s, j))
    ensures Sift(s, j) != s
  {
    if s.filters[j].pc == Reading {
      assert Sift(s, j).chans[j].taken != s.chans[j].taken;
    } else {
      assert Sift(s, j).filters[j].pc != s.filters[j].pc;
    }
  }

  // ------------------------------------------------------------ the channels

  /** What this program sees of a rendezvous channel. */
  ghost function View(s: Channel.State): Chan {
    Chan(seq(|s.sent|, i requires 0 <= i < |s.sent| => s.sent[i].value),
         if |s.sent| < |s.received| then |s.sent| else |s.received|)
  }

  function Sent(c: Chan, v: int): Chan {
    c.(sent := c.sent + [v])
  }

  function Taken(c: Chan): Chan {
    c.(taken := c.taken + 1)
  }

  lemma SendViewed(s: Channel.State, t: Channel.Tid)
    requires Channel.Inv(s) && t < |s.fibers| && !s.closed
    ensures
      var c, c' := View(s), View(Channel.SendLocked(s, t));
      c' == if |s.sent| < |s.received| then Taken(Sent(c, s.fibers[t].data)) else Sent(c, s.fibers[t].data)
  {
    var s' := Channel.SendLocked(s, t);
    assert s'.sent == s.sent + [Channel.Sent(t, s.fibers[t].data)];
    assert View(s').sent == View(s).sent + [s.fibers[t].data];
  }

  lemma ReceiveViewed(s: Channel.State, t: Channel.Tid)
    requires Channel.Inv(s) && t < |s.fibers| && !s.closed
    ensures
      var c, c' := View(s), View(Channel.ReceiveLocked(s, t));
      c' == if c.taken < |c.sent| then Taken(c) else c
  {
    Channel.PartnerIsOldest(s);
  }

  /** A rendezvous channel that nobody closes is such a channel.  Over every run of any fibers
      each step leaves what is sent and taken, or sends one value that the fiber was called
      with, or takes the next one, or does both at once. */
  lemma ChannelRefines(n: nat, turns: seq<Channel.Turn>, t: Channel.Tid, op: Channel.Op)
    requires !Channel.Step(Channel.Run(n, turns), t, op).closed
    ensures
      var s := Channel.Run(n, turns);
      var c, c' := View(s), View(Channel.Step(s, t, op));
      || c' == c
      || (c' == Taken(c) && c.taken < |c.sent|)
      || (t < n && s.fibers[t].pc == Channel.Entered
          && (c' == Sent(c, s.fibers[t].data) || (c' == Taken(Sent(c, s.fibers[t].data)) && c.taken == |c.sent|)))
  {
    Channel.RunInv(n, turns);
    var s := Channel.Run(n, turns);
    if s.closed {
      Channel.ClosedIsFinal(n, turns, t, op);
    }
    if t < n {
      SendViewed(s, t);
      ReceiveViewed(s, t);
      match s.fibers[t].pc {
        case Entered =>
        case Idle => BeginViewed(s, t, op);
        case Returned(_) => BeginViewed(s, t, op);
        case _ => OthersViewed(s, t, op);
      }
    }
  }

  lemma BeginViewed(s: Channel.State, t: Channel.Tid, op: Channel.Op)
    requires t < |s.fibers| && !s.closed && !Channel.Begin(s, t, op).closed
    ensures View(Channel.Begin(s, t, op)) == View(if op == Channel.Op.Receive && !s.freed then Channel.ReceiveLocked(s, t) else s)
  {
    hide Channel.ReceiveLocked, Channel.Quiet;
    var s' := Channel.Begin(s, t, op);
    assert (op == Channel.Op.Receive && !s.freed) || (s'.sent == s.sent && s'.received == s.received);
  }

  lemma OthersViewed(s: Channel.State, t: Channel.Tid, op: Channel.Op)
    requires t < |s.fibers| && !s.closed && !Channel.Step(s, t, op).closed
    requires s.fibers[t].pc != Channel.Entered && s.fibers[t].pc != Channel.Idle && !s.fibers[t].pc.Returned?
    ensures View(Channel.Step(s, t, op)) == View(s)
  {
    assert Channel.Step(s, t, op).sent == s.sent && Channel.Step(s, t, op).received == s.received;
  }

  /** A send returns when its value has been taken, and a receive with the value it took; so on
      a channel with one sender the send of the last value returns when all are taken. */
  lemma ReturnsWhenTaken(n: nat, turns: seq<Channel.Turn>, t: Channel.Tid)
    requires t < n && Channel.Run(n, turns).fibers[t].pc == Channel.Returned(Channel.SUCCESS)
    ensures
      var f, c := Channel.Run(n, turns).fibers[t], View(Channel.Run(n, turns));
      && f.ticket < c.taken <= |c.sent| && f.data == c.sent[f.ticket]
      && (f.ticket + 1 == |c.sent| ==> c.taken == |c.sent|)
  {
    if Channel.Run(n, turns).fibers[t].sends {
      var i := Channel.SendReachesItsReceive(n, turns, t);
    } else {
      Channel.ReceiveGetsItsSend(n, turns, t);
    }
  }

  // ------------------------------------------------------------ in place

  class Program {
    var chans: seq<Chan>
    var next: int
    var awaiting: bool
    var filters: seq<Filter>
    var printed: seq<int>

    function Value(): State
      reads this
    {
      State(chans, next, awaiting, filters, printed)
    }

    /** Each channel has the numbers that its filter let through. */
    ghost predicate Valid()
      reads this
    {
      Inv(Value())
    }

    constructor ()
      ensures Valid() && Value() == Init()
    {
      chans, next, awaiting, filters, printed := [Chan([], 0)], 2, false, [], [];
    }

    method SendOn(c: nat, v: int)
      requires c < |chans|
      modifies `chans
      ensures chans == Put(old(chans), c, v)
    {
      chans := chans[c := chans[c].(sent := chans[c].sent + [v])];
    }

    method ReceiveFrom(c: nat) returns (v: int)
      requires CanTake(Value(), c)
      modifies `chans
      ensures chans == Take(old(chans), c) && v == old(chans)[c].sent[old(chans)[c].taken]
    {
      v := chans[c].sent[chans[c].taken];
      chans := chans[c := chans[c].(taken := chans[c].taken + 1)];
    }

    /** One step of the loop in generate: the numbers from 2 on, in order, each when the one
        before has been received. */
    method GenerateNext()
      requires Valid()
      modifies this
      ensures Valid() && Value() == Generate(old(Value()))
      ensures forall i :: 0 <= i < |chans[0].sent| ==> chans[0].sent[i] == i + 2
    {
      GenerateInv(Value());
      hide FilterOk, ValuesOk;
      if !awaiting {
        SendOn(0, next);
        awaiting := true;
      } else if chans[0].taken == |chans[0].sent| {
        awaiting, next := false, next + 1;
      }
    }

    /** One step of the loop in filter: what is received and not a multiple goes on. */
    method FilterNext(j: nat)
      requires Valid() && j < |filters|
      modifies this
      ensures Valid() && Value() == Sift(old(Value()), j)
      ensures j + 1 < |chans| && chans[j].taken <= |chans[j].sent|
      ensures Keep(chans[j].sent[..chans[j].taken], filters[j].prime) == chans[j + 1].sent + Pending(filters[j])
    {
      StepInv(Value(), Filtering(j));
      assert FilterOk(Value(), j) && FilterOk(Sift(Value(), j), j) && ValuesOk(Value(), j);
      hide Inv, FilterOk;
      match filters[j].pc
      case Reading =>
        if chans[j].taken < |chans[j].sent| {
          var i := ReceiveFrom(j);
          if i % filters[j].prime != 0 {
            filters := filters[j := filters[j].(pc := Sending(i))];
          } else {
            filters := filters[j := filters[j].(pc := Reading)];
          }
        }
      case Sending(i) =>
        SendOn(j + 1, i);
        filters := filters[j := filters[j].(pc := Awaiting)];
      case Awaiting =>
        if chans[j + 1].taken == |chans[j + 1].sent| {
          filters := filters[j := filters[j].(pc := Reading)];
        }
    }

    /** One turn of the loop in main: what is printed is the next prime. */
    method ReadNext()
      requires Valid()
      modifies this
      ensures Valid() && Value() == Read(old(Value()))
      ensures printed == old(printed) || (|printed| == |old(printed)| + 1 && NthPrime(printed[|printed| - 1], |printed| - 1))
    {
      ReadInv(Value());
      hide Inv, NthPrime;
      if |printed| < PRIMES && CanTake(Value(), |printed|) {
        var prime := ReceiveFrom(|printed|);
        printed := printed + [prime];
        chans := chans + [Chan([], 0)];
        filters := filters + [Filter(prime, Reading)];
        PrintedPrime(Value(), |printed| - 1);
      }
    }

    method Advance(who: Who)
      requires Valid()
      modifies this
      ensures Valid() && Value() == Step(old(Value()), who)
    {
      hide Inv;
      match who
      case Generator => GenerateNext();
      case Main => ReadNext();
      case Filtering(j) =>
        if j < |filters| {
          FilterNext(j);
        }
    }

    /** Any interleaving, from the start: what is printed is the primes, in order. */
    method Execute(schedule: seq<Who>)
      requires Valid() && Value() == Init()
      modifies this
      ensures Valid() && Value() == Run(schedule)
      ensures forall i :: 0 <= i < |printed| ==> NthPrime(printed[i], i)
    {
      hide Inv, Init, Step, NthPrime;
      for i := 0 to |schedule|
        invariant Valid() && Value() == Run(schedule[..i])
      {
        assert schedule[..i + 1][..i] == schedule[..i];
        Advance(schedule[i]);
      }
      assert schedule[..|schedule|] == schedule;
      forall i: nat | i < |printed|
        ensures NthPrime(printed[i], i)
      {
        PrintsThePrimes(schedule, i);
      }
    }
  }
}
