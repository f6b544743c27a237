/**
 The list operations of fjx-utils that the scheduler uses, on a map from nodes to links: each
 reads the links it follows and writes two links at a time.
 */
module ListLinks {
  import opened Circles

  type Links<N> = map<N, Side<N>>

  function At<N>(m: Links<N>, n: N): Side<N> {
    if n in m then m[n] else Side(n, n)
  }

  function Next<N>(m: Links<N>, n: N): N {
    At(m, n).next
  }

  /** fjx_list_link. */
  function Join<N>(m: Links<N>, a: N, b: N): (m': Links<N>)
    ensures a in m' && b in m' && m'.Keys == m.Keys + {a, b}
    ensures forall n :: n in m' ==> m'[n] == Side(if n == a then b else At(m, n).next, if n == b then a else At(m, n).prev)
  {
    var m1 := m[a := At(m, a).(next := b)];
    m1[b := At(m1, b).(prev := a)]
  }

  function PopHead<N>(m: Links<N>, head: N): Links<N> {
    Join(m, head, Next(m, Next(m, head)))
  }

  function AddAfter<N>(m: Links<N>, pos: N, x: N): Links<N> {
    Join(Join(m, x, Next(m, pos)), pos, x)
  }

  function AddTail<N>(m: Links<N>, head: N, x: N): Links<N> {
    AddAfter(m, At(m, head).prev, x)
  }

  /** fjx_list_replace_init. */
  function MoveAll<N>(m: Links<N>, head: N, other: N): Links<N> {
    Join(Join(Join(m, other, Next(m, head)), At(m, head).prev, other), head, head)
  }

  /** The nodes before `cut` move to the sentinel `other`. */
  function MoveBefore<N>(m: Links<N>, head: N, other: N, cut: N): Links<N> {
    Join(Join(Join(m, other, Next(m, head)), At(m, cut).prev, other), head, cut)
  }

  /** The nodes of `other` go between `a` and `b`. */
  function Splice<N>(m: Links<N>, a: N, b: N, other: N): Links<N> {
    Join(Join(m, a, Next(m, other)), At(m, other).prev, b)
  }

  /** fjx_list_add_list_tail. */
  function AppendAll<N>(m: Links<N>, head: N, other: N): Links<N> {
    Splice(m, At(m, head).prev, head, other)
  }

  /** fjx_list_add_list. */
  function PrependAll<N>(m: Links<N>, head: N, other: N): Links<N> {
    Splice(m, head, Next(m, head), other)
  }

  /** The node `k` places on. */
  function Walked<N>(m: Links<N>, n: N, k: nat): N {
    if k == 0 then n else Walked(m, Next(m, n), k - 1)
  }

  // ------------------------------------------------------------ what they do to circles

  /** Only links of `head` and of nodes of `ns` have changed. */
  ghost predicate Beside<N>(m: Links<N>, m': Links<N>, head: N, ns: seq<N>) {
    forall n :: n in m && n != head && n !in ns ==> n in m' && m'[n] == m[n]
  }

  lemma Around<N>(m: Links<N>, head: N, ns: seq<N>, i: nat)
    requires Circle(m, head, ns) && i <= |ns|
    ensures Next(m, Stop(head, ns, i)) == Stop(head, ns, i + 1)
    ensures At(m, Stop(head, ns, i + 1)).prev == Stop(head, ns, i)
  {
    assert Joined(m, head, ns, i);
  }

  lemma Ends<N>(m: Links<N>, head: N, ns: seq<N>)
    requires Circle(m, head, ns)
    ensures head in m && forall n :: n in ns ==> n in m
    ensures Next(m, head) == (if ns == [] then head else ns[0]) && At(m, head).prev == (if ns == [] then head else ns[|ns| - 1])
    ensures Next(m, head) == head <==> ns == []
  {
    Around(m, head, ns, 0);
    Around(m, head, ns, |ns|);
    forall n | n in ns
      ensures n in m
    {
      var i :| 0 <= i < |ns| && ns[i] == n;
      assert Joined(m, head, ns, i);
    }
    assert Joined(m, head, ns, 0);
  }

  lemma PopHeadOk<N>(m: Links<N>, head: N, ns: seq<N>)
    requires Circle(m, head, ns) && ns != []
    ensures Next(m, head) == ns[0] && Circle(PopHead(m, head), head, ns[1..]) && Beside(m, PopHead(m, head), head, ns)
  {
    Ends(m, head, ns);
    Around(m, head, ns, 1);
    var m' := PopHead(m, head);
    if |ns| > 1 {
      assert Chained(m, head, ns, 1);
      CircleRest(m, m', head, ns, 1);
    }
  }

  lemma AddAfterOk<N>(m: Links<N>, head: N, ns: seq<N>, k: nat, pos: N, x: N)
    requires Circle(m, head, ns) && k <= |ns| && pos == Stop(head, ns, k) && x !in ns && x != head
    ensures Circle(AddAfter(m, pos, x), head, Insert(ns, k, x)) && Beside(m, AddAfter(m, pos, x), head, ns + [x])
  {
    Ends(m, head, ns);
    Around(m, head, ns, k);
    CircleInsert(m, AddAfter(m, pos, x), head, ns, k, x);
  }

  lemma MoveAllOk<N>(m: Links<N>, head: N, other: N, ns: seq<N>)
    requires Circle(m, head, ns) && ns != [] && other != head && other !in ns
    ensures Circle(MoveAll(m, head, other), other, ns) && Circle(MoveAll(m, head, other), head, [])
    ensures Beside(m, MoveAll(m, head, other), head, ns + [other])
  {
    Ends(m, head, ns);
    CircleSplit(m, MoveAll(m, head, other), head, other, ns, |ns|);
    assert ns[..|ns|] == ns && ns[|ns|..] == [];
  }

  lemma MoveBeforeOk<N>(m: Links<N>, head: N, other: N, ns: seq<N>, k: nat, cut: N)
    requires Circle(m, head, ns) && 0 < k < |ns| && cut == ns[k] && other != head && other !in ns
    ensures Circle(MoveBefore(m, head, other, cut), other, ns[..k]) && Circle(MoveBefore(m, head, other, cut), head, ns[k..])
    ensures Beside(m, MoveBefore(m, head, other, cut), head, ns + [other])
  {
    Ends(m, head, ns);
    Around(m, head, ns, k);
    CircleSplit(m, MoveBefore(m, head, other, cut), head, other, ns, k);
  }

  lemma SpliceOk<N>(m: Links<N>, head: N, ns: seq<N>, other: N, ms: seq<N>, k: nat)
    requires Circle(m, head, ns) && Circle(m, other, ms) && ms != [] && k <= |ns|
    requires head !in ms && other !in ns && other != head && forall n :: n in ns ==> n !in ms
    ensures
      var m' := Splice(m, Stop(head, ns, k), Stop(head, ns, k + 1), other);
      Circle(m', head, ns[..k] + ms + ns[k..]) && Beside(m, m', head, ns + ms)
  {
    Ends(m, head, ns);
    Ends(m, other, ms);
    Around(m, head, ns, k);
    assert Stop(head, ns, k) !in ms && Stop(head, ns, k + 1) !in ms;
    CircleSplice(m, Splice(m, Stop(head, ns, k), Stop(head, ns, k + 1), other), head, ns, other, ms, k);
  }

  lemma AppendAllOk<N>(m: Links<N>, head: N, ns: seq<N>, other: N, ms: seq<N>)
    requires Circle(m, head, ns) && Circle(m, other, ms) && ms != []
    requires head !in ms && other !in ns && other != head && forall n :: n in ns ==> n !in ms
    ensures Circle(AppendAll(m, head, other), head, ns + ms) && Beside(m, AppendAll(m, head, other), head, ns + ms)
  {
    Ends(m, head, ns);
    SpliceOk(m, head, ns, other, ms, |ns|);
    assert ns[..|ns|] + ms + ns[|ns|..] == ns + ms;
  }

  lemma PrependAllOk<N>(m: Links<N>, head: N, ns: seq<N>, other: N, ms: seq<N>)
    requires Circle(m, head, ns) && Circle(m, other, ms) && ms != []
    requires head !in ms && other !in ns && other != head && forall n :: n in ns ==> n !in ms
    ensures Circle(PrependAll(m, head, other), head, ms + ns) && Beside(m, PrependAll(m, head, other), head, ns + ms)
  {
    Ends(m, head, ns);
    SpliceOk(m, head, ns, other, ms, 0);
    assert ns[..0] + ms + ns[0..] == ms + ns;
  }

  lemma {:induction false} WalkedIsPlace<N>(m: Links<N>, head: N, ns: seq<N>, i: nat, k: nat)
    requires Circle(m, head, ns) && i + k <= |ns| + 1
    ensures Walked(m, Stop(head, ns, i), k) == Stop(head, ns, i + k)
    decreases k
  {
    if k > 0 {
      Around(m, head, ns, i);
      WalkedIsPlace(m, head, ns, i + 1, k - 1);
    }
  }

  // ------------------------------------------------------------ a list that is being walked

  /** From `ix` on round to the sentinel the links are those of `ns`; the sentinel's own next
      link and the nodes before may hold anything. */
  ghost predicate Walk<N>(m: Links<N>, head: N, ns: seq<N>, ix: N) {
    Distinct(ns) && head !in ns && ix == Stop(head, ns, 1) && Chained(m, head, ns, 0)
  }

  lemma WalkStarts<N>(m: Links<N>, head: N, ns: seq<N>)
    requires Circle(m, head, ns)
    ensures Walk(m, head, ns, Next(m, head))
  {
    Around(m, head, ns, 0);
  }

  lemma WalkGoesOn<N>(m: Links<N>, head: N, ns: seq<N>, ix: N)
    requires Walk(m, head, ns, ix) && ns != []
    ensures ix == ns[0] && Walk(m, head, ns[1..], Next(m, ix))
  {
    forall i | 0 < i <= |ns| - 1
      ensures Joined(m, head, ns[1..], i)
    {
      assert Joined(m, head, ns, i + 1);
    }
    assert Joined(m, head, ns, 1);
  }

  /** fjx_list_link(head, ix) makes it a circle again. */
  lemma Relinked<N>(m: Links<N>, head: N, ns: seq<N>, ix: N)
    requires Walk(m, head, ns, ix) && ns != []
    ensures Circle(Join(m, head, ix), head, ns) && Beside(m, Join(m, head, ix), head, ns)
  {
    forall i | 0 <= i < |ns|
      ensures ns[i] in m
    {
      assert Joined(m, head, ns, i + 1);
    }
    assert Joined(m, head, ns, |ns|);
    CircleRest(m, Join(m, head, ix), head, ns, 0);
    assert ns[0..] == ns;
  }

  lemma CircleStays<N>(m: Links<N>, m': Links<N>, head: N, ns: seq<N>)
    requires Circle(m, head, ns) && forall n :: n in m && (n in ns || n == head) ==> n in m' && m'[n] == m[n]
    ensures Circle(m', head, ns)
  {
    CircleShrinks(m, m', head, ns);
  }

  lemma WalkStays<N>(m: Links<N>, m': Links<N>, head: N, ns: seq<N>, ix: N)
    requires Walk(m, head, ns, ix) && forall n :: n in m && (n in ns || n == head) ==> n in m' && m'[n] == m[n]
    ensures Walk(m', head, ns, ix)
  {
    forall i | 0 < i <= |ns|
      ensures Joined(m', head, ns, i)
    {
      assert Joined(m, head, ns, i);
    }
  }

  // ------------------------------------------------------------ nodes beside the lists

  lemma JoinOver<N>(m: Links<N>, a: N, b: N, n: N, z: Side<N>)
    requires n != a && n != b
    ensures Join(m[n := z], a, b) == Join(m, a, b)[n := z]
  {}

  /** Whatever a node holds that is not on the list, an operation on the list neither reads nor
      writes it. */
  lemma PopHeadOver<N>(m: Links<N>, head: N, ns: seq<N>, n: N, z: Side<N>)
    requires Circle(m, head, ns) && n != head && n !in ns
    ensures PopHead(m[n := z], head) == PopHead(m, head)[n := z] && Next(m[n := z], head) == Next(m, head)
  {
    Ends(m, head, ns);
    Around(m, head, ns, if ns == [] then 0 else 1);
    JoinOver(m, head, Next(m, Next(m, head)), n, z);
  }

  lemma AddAfterOver<N>(m: Links<N>, head: N, ns: seq<N>, k: nat, x: N, n: N, z: Side<N>)
    requires Circle(m, head, ns) && k <= |ns| && n != head && n !in ns && n != x
    ensures
      var pos := Stop(head, ns, k);
      AddAfter(m[n := z], pos, x) == AddAfter(m, pos, x)[n := z]
  {
    var pos := Stop(head, ns, k);
    Around(m, head, ns, k);
    JoinOver(m, x, Next(m, pos), n, z);
    JoinOver(Join(m, x, Next(m, pos)), pos, x, n, z);
  }

  lemma AddTailOver<N>(m: Links<N>, head: N, ns: seq<N>, x: N, n: N, z: Side<N>)
    requires Circle(m, head, ns) && n != head && n !in ns && n != x
    ensures AddTail(m[n := z], head, x) == AddTail(m, head, x)[n := z]
  {
    Ends(m, head, ns);
    AddAfterOver(m, head, ns, |ns|, x, n, z);
  }

  lemma MoveAllOver<N>(m: Links<N>, head: N, ns: seq<N>, other: N, n: N, z: Side<N>)
    requires Circle(m, head, ns) && n != head && n !in ns && n != other
    ensures MoveAll(m[n := z], head, other) == MoveAll(m, head, other)[n := z]
  {
    Ends(m, head, ns);
    var m1 := Join(m, other, Next(m, head));
    JoinOver(m, other, Next(m, head), n, z);
    JoinOver(m1, At(m, head).prev, other, n, z);
    JoinOver(Join(m1, At(m, head).prev, other), head, head, n, z);
  }

  lemma MoveBeforeOver<N>(m: Links<N>, head: N, ns: seq<N>, other: N, k: nat, n: N, z: Side<N>)
    requires Circle(m, head, ns) && n != head && n !in ns && n != other && k < |ns|
    ensures MoveBefore(m[n := z], head, other, ns[k]) == MoveBefore(m, head, other, ns[k])[n := z]
  {
    Ends(m, head, ns);
    Around(m, head, ns, k);
    var m1 := Join(m, other, Next(m, head));
    JoinOver(m, other, Next(m, head), n, z);
    JoinOver(m1, At(m, ns[k]).prev, other, n, z);
    JoinOver(Join(m1, At(m, ns[k]).prev, other), head, ns[k], n, z);
  }

  lemma SpliceOver<N>(m: Links<N>, a: N, b: N, other: N, ms: seq<N>, n: N, z: Side<N>)
    requires Circle(m, other, ms) && n != other && n !in ms && n != a && n != b
    ensures Splice(m[n := z], a, b, other) == Splice(m, a, b, other)[n := z]
  {
    Ends(m, other, ms);
    JoinOver(m, a, Next(m, other), n, z);
    JoinOver(Join(m, a, Next(m, other)), At(m, other).prev, b, n, z);
  }

  lemma JoinAllOver<N>(m: Links<N>, head: N, ns: seq<N>, other: N, ms: seq<N>, n: N, z: Side<N>)
    requires Circle(m, head, ns) && Circle(m, other, ms) && n != head && n !in ns && n != other && n !in ms
    ensures AppendAll(m[n := z], head, other) == AppendAll(m, head, other)[n := z]
    ensures PrependAll(m[n := z], head, other) == PrependAll(m, head, other)[n := z]
  {
    Ends(m, head, ns);
    SpliceOver(m, At(m, head).prev, head, other, ms, n, z);
    SpliceOver(m, head, Next(m, head), other, ms, n, z);
  }

  lemma {:induction false} WalkedOver<N>(m: Links<N>, head: N, ns: seq<N>, i: nat, k: nat, n: N, z: Side<N>)
    requires Circle(m, head, ns) && n != head && n !in ns && i + k <= |ns| + 1
    ensures Walked(m[n := z], Stop(head, ns, i), k) == Walked(m, Stop(head, ns, i), k)
    decreases k
  {
    if k > 0 {
      Around(m, head, ns, i);
      WalkedOver(m, head, ns, i + 1, k - 1, n, z);
    }
  }
}
