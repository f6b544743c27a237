/**
 The circular intrusive list: a sentinel and nodes joined by next and prev, described by a
 ghost sequence.  `fjx_list_link(a, b)` sets a.next and b.prev; everything else is made of it.
 */
module IntrusiveList {
  import opened IntrusiveTree
  import opened Circles

  /** The list links of a set of nodes. */
  ghost function Sides<T>(ns: set<Node<T>>): (m: map<Node?<T>, Side<Node?<T>>>)
    reads ns`next, ns`prev
    ensures m.Keys == ns
  {
    map n | n in ns :: Side(n.next, n.prev)
  }

  /** `head` and `ns` form a circle. */
  ghost predicate Ring<T>(head: Node<T>, ns: seq<Node<T>>)
    reads head`next, head`prev, ns`next, ns`prev
  {
    Circle(Sides(Members(ns) + {head}), head, ns)
  }

  lemma RingIsDistinct<T>(head: Node<T>, ns: seq<Node<T>>)
    requires Ring(head, ns)
    ensures Distinct(ns) && head !in ns
  {}

  /** What is at place `i` of a ring. */
  lemma RingJoins<T>(head: Node<T>, ns: seq<Node<T>>, i: nat)
    requires Ring(head, ns) && i <= |ns|
    ensures Stop(head, ns, i).next == Stop(head, ns, i + 1)
    ensures Stop(head, ns, i + 1).prev == Stop(head, ns, i)
  {
    assert Joined(Sides(Members(ns) + {head}), head, ns, i);
  }

  method Link<T>(a: Node<T>, b: Node<T>)
    modifies a`next, b`prev
    ensures a.next == b && b.prev == a
  {
    a.next := b;
    b.prev := a;
  }

  method InitList<T>(head: Node<T>)
    modifies head`next, head`prev
    ensures Ring(head, []) && head.next == head && head.prev == head
  {
    Link(head, head);
  }

  lemma MembersInsert<T>(ns: seq<Node<T>>, k: nat, x: Node<T>)
    requires k <= |ns|
    ensures Members(Insert(ns, k, x)) == Members(ns) + {x}
  {
    var r := Insert(ns, k, x);
    assert r[k] == x;
    forall n | n in ns
      ensures n in r
    {
      var i :| 0 <= i < |ns| && ns[i] == n;
      assert r[if i < k then i else i + 1] == n;
    }
  }

  /** Put `x` between place `k` of the list and the one after it. */
  method AddBetween<T>(ghost head: Node<T>, ghost ns: seq<Node<T>>, ghost k: nat, a: Node<T>, b: Node<T>, x: Node<T>)
    requires Ring(head, ns) && x !in ns && x != head && k <= |ns|
    requires a == Stop(head, ns, k) && b == Stop(head, ns, k + 1)
    modifies a`next, x`prev, x`next, b`prev
    ensures Ring(head, Insert(ns, k, x))
  {
    ghost var m := Sides(Members(ns) + {head});
    Link(x, b);
    Link(a, x);
    MembersInsert(ns, k, x);
    CircleInsert(m, Sides(Members(ns) + {x} + {head}), head, ns, k, x);
    assert Members(Insert(ns, k, x)) + {head} == Members(ns) + {x} + {head};
  }

  /** fjx_list_add: `x` goes right after `pos`, which is place `k`. */
  method AddAfter<T>(pos: Node<T>, x: Node<T>, ghost head: Node<T>, ghost ns: seq<Node<T>>, ghost k: nat)
    requires Ring(head, ns) && x !in ns && x != head && k <= |ns| && pos == Stop(head, ns, k)
    modifies head`next, head`prev, ns`next, ns`prev, x`next, x`prev
    ensures Ring(head, Insert(ns, k, x))
  {
    RingJoins(head, ns, k);
    AddBetween(head, ns, k, pos, pos.next, x);
  }

  /** fjx_list_add_tail: `x` goes right before `pos`, which is place `k + 1`. */
  method AddBefore<T>(pos: Node<T>, x: Node<T>, ghost head: Node<T>, ghost ns: seq<Node<T>>, ghost k: nat)
    requires Ring(head, ns) && x !in ns && x != head && k <= |ns| && pos == Stop(head, ns, k + 1)
    modifies head`next, head`prev, ns`next, ns`prev, x`next, x`prev
    ensures Ring(head, Insert(ns, k, x))
  {
    RingJoins(head, ns, k);
    AddBetween(head, ns, k, pos.prev, pos, x);
  }

  lemma Moved<T>(m: map<Node?<T>, Side<Node?<T>>>, m': map<Node?<T>, Side<Node?<T>>>, head: Node<T>, other: Node<T>, ns: seq<Node<T>>)
    requires Circle(m, head, ns) && other != head && other !in ns && ns != []
    requires head in m' && other in m' && m'[head].next == m'[head].prev == head && m'[other].next == ns[0] && m'[other].prev == ns[|ns| - 1]
    requires forall n :: n in ns ==> n in m && n in m' && (n != ns[0] ==> m'[n].prev == m[n].prev)
                                     && (n != ns[|ns| - 1] ==> m'[n].next == m[n].next)
    requires m'[ns[0]].prev == other && m'[ns[|ns| - 1]].next == other
    ensures Circle(m', other, ns) && Circle(m', head, [])
  {
    CircleSplit(m, m', head, other, ns, |ns|);
    assert ns[..|ns|] == ns && ns[|ns|..] == [];
  }

  /** fjx_list_replace_init: the whole list moves to another sentinel. */
  method ReplaceInit<T>(head: Node<T>, other: Node<T>, ghost ns: seq<Node<T>>)
    requires Ring(head, ns) && other != head && other !in ns && ns != []
    modifies head`next, head`prev, other`next, other`prev, ns`next, ns`prev
    ensures Ring(head, []) && Ring(other, ns)
  {
    hide Circle;
    ghost var m := Sides(Members(ns) + {head});
    RingIsDistinct(head, ns);
    RingJoins(head, ns, 0);
    RingJoins(head, ns, |ns|);
    var first, last := head.next, head.prev;
    assert first == ns[0] && last == ns[|ns| - 1] && first in Members(ns) && last in Members(ns);
    hide Stop, Ring;
    Link(other, first);
    Link(last, other);
    Link(head, head);
    ghost var m' := Sides(Members(ns) + {head, other});
    Moved(m, m', head, other, ns);
    CircleShrinks(m', Sides(Members(ns) + {other}), other, ns);
    CircleShrinks(m', Sides({head}), head, []);
    assert Members<T>([]) + {head} == {head};
  }

  /** The three-pointer splice: the nodes before `cut` move to the sentinel `other`. */
  method SplitBefore<T>(head: Node<T>, other: Node<T>, cut: Node<T>, ghost ns: seq<Node<T>>, ghost k: nat)
    requires Ring(head, ns) && other != head && other !in ns
    requires 0 < k < |ns| && cut == ns[k]
    modifies head`next, head`prev, other`next, other`prev, ns`next, ns`prev
    ensures Ring(head, ns[k..]) && Ring(other, ns[..k])
  {
    hide Circle;
    ghost var m := Sides(Members(ns) + {head});
    RingIsDistinct(head, ns);
    RingJoins(head, ns, 0);
    RingJoins(head, ns, k);
    RingJoins(head, ns, |ns|);
    var first := head.next;
    var last := cut.prev;
    Link(other, first);
    Link(last, other);
    Link(head, cut);
    ghost var m' := Sides(Members(ns) + {head, other});
    CircleSplit(m, m', head, other, ns, k);
    CircleShrinks(m', Sides(Members(ns[..k]) + {other}), other, ns[..k]);
    CircleShrinks(m', Sides(Members(ns[k..]) + {head}), head, ns[k..]);
  }

  // ------------------------------------------------------------ parts of a list and whole lists

  /** From place `k + 1` on round to the sentinel the links are those of the list; what is at
      the places before may hold anything. */
  ghost predicate Rest<T>(head: Node<T>, ns: seq<Node<T>>, k: nat)
    reads head`next, head`prev, ns`next, ns`prev
  {
    Chained(Sides(Members(ns) + {head}), head, ns, k)
  }

  /** They do not depend on the next node, of which everything has been read. */
  lemma RestGoesOn<T>(m: map<Node?<T>, Side<Node?<T>>>, head: Node<T>, ns: seq<Node<T>>, k: nat)
    requires Chained(m, head, ns, k) && k < |ns|
    requires head in m && m[head] == Side(head.next, head.prev)
    requires forall i :: k < i < |ns| ==> ns[i] in m && m[ns[i]] == Side(ns[i].next, ns[i].prev)
    ensures Rest(head, ns, k + 1)
  {
    var m' := Sides(Members(ns) + {head});
    forall i | k + 1 < i <= |ns|
      ensures Joined(m', head, ns, i)
    {
      assert Joined(m, head, ns, i);
    }
  }

  lemma RingHasRest<T>(head: Node<T>, ns: seq<Node<T>>)
    requires Ring(head, ns)
    ensures Rest(head, ns, 0)
  {}

  lemma RestJoins<T>(head: Node<T>, ns: seq<Node<T>>, k: nat)
    requires Rest(head, ns, k) && k < |ns|
    ensures Stop(head, ns, k + 1).next == Stop(head, ns, k + 2)
  {
    assert Joined(Sides(Members(ns) + {head}), head, ns, k + 1);
  }

  /** fjx_list_link(head, it): the list begins at `it`, which is place `k + 1`, whatever the
      nodes before it hold by now. */
  method LinkRest<T>(head: Node<T>, it: Node<T>, ghost ns: seq<Node<T>>, ghost k: nat)
    requires Distinct(ns) && head !in ns && k < |ns| && Rest(head, ns, k) && it == ns[k]
    modifies head`next, ns[k..]`prev
    ensures Ring(head, ns[k..])
  {
    ghost var m := Sides(Members(ns) + {head});
    Link(head, it);
    CircleRest(m, Sides(Members(ns[k..]) + {head}), head, ns, k);
  }

  /** fjx_list_pop_head. */
  method PopHead<T>(head: Node<T>, ghost ns: seq<Node<T>>) returns (it: Node<T>)
    requires Ring(head, ns) && ns != []
    modifies head`next, head`prev, ns[1..]`prev
    ensures it == ns[0] && Ring(head, ns[1..])
  {
    ghost var m := Sides(Members(ns) + {head});
    RingJoins(head, ns, 0);
    RingJoins(head, ns, 1);
    it := head.next;
    Link(head, it.next);
    if |ns| > 1 {
      CircleRest(m, Sides(Members(ns[1..]) + {head}), head, ns, 1);
    }
  }

  /** The nodes of the list at `other` go between place `k` of the list at `head`, which is
      `a`, and the one after it, `b`. */
  method SpliceBetween<T>(head: Node<T>, ghost ns: seq<Node<T>>, ghost k: nat, a: Node<T>, b: Node<T>,
                          other: Node<T>, ghost ms: seq<Node<T>>)
    requires Ring(head, ns) && Ring(other, ms) && ms != [] && k <= |ns|
    requires head !in ms && other !in ns && other != head && Members(ns) !! Members(ms)
    requires a == Stop(head, ns, k) && b == Stop(head, ns, k + 1)
    modifies head`next, head`prev, ns`next, ns`prev, ms`next, ms`prev
    ensures Ring(head, ns[..k] + ms + ns[k..])
  {
    hide Circle;
    ghost var all := Members(ns) + Members(ms) + {head, other};
    ghost var m := Sides(all);
    CircleShrinks(Sides(Members(ns) + {head}), m, head, ns);
    CircleShrinks(Sides(Members(ms) + {other}), m, other, ms);
    RingJoins(other, ms, 0);
    RingJoins(other, ms, |ms|);
    var first, last := other.next, other.prev;
    assert a in Members(ns) + {head} && b in Members(ns) + {head} && first in Members(ms) && last in Members(ms);
    hide Stop, Ring;
    Link(a, first);
    Link(last, b);
    Spliced(m, Sides(all), head, ns, k, other, ms, a, b, first, last);
    ghost var r := ns[..k] + ms + ns[k..];
    CircleShrinks(Sides(all), Sides(Members(r) + {head}), head, r);
  }

  lemma Spliced<T>(m: map<Node?<T>, Side<Node?<T>>>, m': map<Node?<T>, Side<Node?<T>>>, head: Node<T>, ns: seq<Node<T>>, k: nat,
                   other: Node<T>, ms: seq<Node<T>>, a: Node<T>, b: Node<T>, first: Node<T>, last: Node<T>)
    requires Circle(m, head, ns) && Circle(m, other, ms) && ms != [] && k <= |ns|
    requires head !in ms && other !in ns && other != head && Members(ns) !! Members(ms)
    requires a == Stop(head, ns, k) && b == Stop(head, ns, k + 1) && first == ms[0] && last == ms[|ms| - 1]
    requires m.Keys == m'.Keys && forall n :: n in ns || n in ms || n == head ==> n in m
    requires m'[a].next == first && m'[first].prev == a && m'[last].next == b && m'[b].prev == last
    requires forall n :: n in m && n != a && n != last ==> m'[n].next == m[n].next
    requires forall n :: n in m && n != first && n != b ==> m'[n].prev == m[n].prev
    ensures Circle(m', head, ns[..k] + ms + ns[k..])
  {
    assert Stop<Node?<T>>(head, ns, k) == a && Stop<Node?<T>>(head, ns, k + 1) == b;
    assert forall n :: n in ns ==> n in Members(ns);
    assert forall n :: n in ms ==> n in Members(ms);
    CircleSplice(m, m', head, ns, other, ms, k);
  }

  lemma SpliceEnds<T>(ns: seq<T>, ms: seq<T>)
    ensures ns[..|ns|] + ms + ns[|ns|..] == ns + ms && ns[..0] + ms + ns[0..] == ms + ns
  {}

  /** fjx_list_add_list_tail: the list at `other` goes to the end of the list at `head`. */
  method AddListTail<T>(head: Node<T>, ghost ns: seq<Node<T>>, other: Node<T>, ghost ms: seq<Node<T>>)
    requires Ring(head, ns) && Ring(other, ms) && ms != []
    requires head !in ms && other !in ns && other != head && Members(ns) !! Members(ms)
    modifies head`next, head`prev, ns`next, ns`prev, ms`next, ms`prev
    ensures Ring(head, ns + ms)
  {
    RingJoins(head, ns, |ns|);
    hide Ring;
    SpliceEnds(ns, ms);
    SpliceBetween(head, ns, |ns|, head.prev, head, other, ms);
  }

  /** fjx_list_add_list: it goes to the front. */
  method AddList<T>(head: Node<T>, ghost ns: seq<Node<T>>, other: Node<T>, ghost ms: seq<Node<T>>)
    requires Ring(head, ns) && Ring(other, ms) && ms != []
    requires head !in ms && other !in ns && other != head && Members(ns) !! Members(ms)
    modifies head`next, head`prev, ns`next, ns`prev, ms`next, ms`prev
    ensures Ring(head, ms + ns)
  {
    RingJoins(head, ns, 0);
    hide Ring;
    SpliceEnds(ns, ms);
    SpliceBetween(head, ns, 0, head, head.next, other, ms);
  }
}
