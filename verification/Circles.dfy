/**
 Circular lists on a map from nodes to their two links: what a circle is, and what putting
 a node in, splitting and joining do to it.  A node may be an object or just a name.
 */
module Circles {

  ghost predicate Distinct<N>(ns: seq<N>) {
    forall i, j :: 0 <= i < j < |ns| ==> ns[i] != ns[j]
  }

  /** Place `i` on the way round from the sentinel and back to it. */
  ghost function Stop<N>(head: N, ns: seq<N>, i: int): N {
    if 1 <= i <= |ns| then ns[i - 1] else head
  }

  /** `x` after the first `k`. */
  ghost function Insert<N>(ns: seq<N>, k: nat, x: N): seq<N>
    requires k <= |ns|
  {
    ns[..k] + [x] + ns[k..]
  }

  /** The links of one node. */
  datatype Side<N> = Side(next: N, prev: N)

  /** By the links in `m`, place `i` and the next are joined. */
  ghost predicate Joined<N>(m: map<N, Side<N>>, head: N, ns: seq<N>, i: int) {
    var a, b := Stop(head, ns, i), Stop(head, ns, i + 1);
    a in m && b in m && m[a].next == b && m[b].prev == a
  }

  ghost predicate Circle<N>(m: map<N, Side<N>>, head: N, ns: seq<N>) {
    Distinct(ns) && head !in ns && forall i :: 0 <= i <= |ns| ==> Joined(m, head, ns, i)
  }

  /** The links after `x` is put between place `k` and the next. */
  lemma CircleInsert<N>(m: map<N, Side<N>>, m': map<N, Side<N>>, head: N, ns: seq<N>, k: nat, x: N)
    requires Circle(m, head, ns) && x !in ns && x != head && k <= |ns|
    requires
      var a, b := Stop(head, ns, k), Stop(head, ns, k + 1);
      && a in m' && b in m' && x in m'
      && m'[x] == Side(b, a) && m'[a].next == x && m'[b].prev == x
      && (forall n :: n in m && n != x ==> n in m' && (n != a ==> m'[n].next == m[n].next) && (n != b ==> m'[n].prev == m[n].prev))
    ensures Circle(m', head, Insert(ns, k, x))
  {
    var r := Insert(ns, k, x);
    forall i | 0 <= i <= |r|
      ensures Joined(m', head, r, i)
    {
      if i < k {
        assert Joined(m, head, ns, i);
      } else if i > k + 1 {
        assert Joined(m, head, ns, i - 1);
      }
    }
  }

  /** The links after the first `k` nodes were spliced over to the sentinel `other`. */
  lemma CircleSplit<N>(m: map<N, Side<N>>, m': map<N, Side<N>>, head: N, other: N, ns: seq<N>, k: nat)
    requires Circle(m, head, ns) && other != head && other !in ns && 0 < k <= |ns|
    requires head in m' && other in m'
    requires m'[other] == Side(ns[0], ns[k - 1])
    requires m'[head] == if k == |ns| then Side(head, head) else Side(ns[k], ns[|ns| - 1])
    requires forall i :: 0 <= i < |ns| ==> ns[i] in m && ns[i] in m'
    requires forall i :: 0 <= i < |ns| ==> m'[ns[i]].next == if i == k - 1 then other else m[ns[i]].next
    requires forall i :: 0 <= i < |ns| ==>
               m'[ns[i]].prev == if i == 0 then other else if i == k then head else m[ns[i]].prev
    ensures Circle(m', other, ns[..k]) && Circle(m', head, ns[k..])
  {
    forall i | 0 <= i <= k
      ensures Joined(m', other, ns[..k], i)
    {
      assert Joined(m, head, ns, i);
    }
    forall i | 0 <= i <= |ns| - k
      ensures Joined(m', head, ns[k..], i)
    {
      assert Joined(m, head, ns, i + k);
    }
  }

  lemma CircleShrinks<N>(m: map<N, Side<N>>, m': map<N, Side<N>>, head: N, ns: seq<N>)
    requires Circle(m, head, ns)
    requires forall n :: n in ns || n == head ==> n in m ==> n in m' && m'[n] == m[n]
    ensures Circle(m', head, ns)
  {
    forall i | 0 <= i <= |ns|
      ensures Joined(m', head, ns, i)
    {
      assert Joined(m, head, ns, i);
    }
  }

  // ------------------------------------------------------------ parts of a circle

  ghost predicate Chained<N>(m: map<N, Side<N>>, head: N, ns: seq<N>, k: nat) {
    forall i :: k < i <= |ns| ==> Joined(m, head, ns, i)
  }

  lemma CircleRest<N>(m: map<N, Side<N>>, m': map<N, Side<N>>, head: N, ns: seq<N>, k: nat)
    requires Distinct(ns) && head !in ns && k < |ns| && head in m && head in m'
    requires Chained(m, head, ns, k)
    requires forall i :: k <= i < |ns| ==> ns[i] in m && ns[i] in m' && m'[ns[i]].next == m[ns[i]].next
    requires forall i :: k < i < |ns| ==> m'[ns[i]].prev == m[ns[i]].prev
    requires m'[head] == Side(ns[k], m[head].prev) && m'[ns[k]].prev == head
    ensures Circle(m', head, ns[k..])
  {
    forall i | 0 <= i <= |ns| - k
      ensures Joined(m', head, ns[k..], i)
    {
      if i > 0 {
        assert Joined(m, head, ns, i + k);
      }
    }
  }

  lemma DistinctSplice<N>(ns: seq<N>, ms: seq<N>, k: nat)
    requires Distinct(ns) && Distinct(ms) && (forall n :: n in ns ==> n !in ms) && k <= |ns|
    ensures Distinct(ns[..k] + ms + ns[k..])
  {
    var r := ns[..k] + ms + ns[k..];
    forall i, j | 0 <= i < j < |r|
      ensures r[i] != r[j]
    {
      assert r[i] == if i < k then ns[i] else if i < k + |ms| then ms[i - k] else ns[i - |ms|];
      assert r[j] == if j < k then ns[j] else if j < k + |ms| then ms[j - k] else ns[j - |ms|];
      assert r[i] in ns || r[i] in ms;
    }
  }

  /** The links after the nodes `ms` of one circle were put between place `k` of another and
      the next. */
  lemma CircleSplice<N>(m: map<N, Side<N>>, m': map<N, Side<N>>, head: N, ns: seq<N>,
                        other: N, ms: seq<N>, k: nat)
    requires Circle(m, head, ns) && Circle(m, other, ms) && ms != [] && k <= |ns|
    requires head !in ms && other !in ns && other != head && (forall n :: n in ns ==> n !in ms)
    requires forall n :: n in ns || n in ms || n == head ==> n in m'
    requires m'[ms[0]].prev == Stop(head, ns, k) && m'[ms[|ms| - 1]].next == Stop(head, ns, k + 1)
    requires m'[Stop(head, ns, k)].next == ms[0] && m'[Stop(head, ns, k + 1)].prev == ms[|ms| - 1]
    requires forall n :: n in ns || n == head ==>
               n in m && (n != Stop(head, ns, k) ==> m'[n].next == m[n].next)
               && (n != Stop(head, ns, k + 1) ==> m'[n].prev == m[n].prev)
    requires forall n :: n in ms ==>
               n in m && (n != ms[|ms| - 1] ==> m'[n].next == m[n].next) && (n != ms[0] ==> m'[n].prev == m[n].prev)
    ensures Circle(m', head, ns[..k] + ms + ns[k..])
  {
    var r := ns[..k] + ms + ns[k..];
    DistinctSplice(ns, ms, k);
    forall i | 0 <= i <= |r|
      ensures Joined(m', head, r, i)
    {
      if i <= k {
        assert Joined(m, head, ns, i);
      } else if i <= k + |ms| {
        assert Joined(m, other, ms, i - k);
      } else {
        assert Joined(m, head, ns, i - |ms|);
      }
    }
  }
}
