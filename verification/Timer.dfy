/**
 The timer's two indexes over the same nodes, a list and a splay tree, with the cached
 ends (src/timer.c:28-82, 160-193).
 */
module Timer {
  import opened Circles
  import opened IntrusiveTree
  import opened IntrusiveList
  import opened Timespec

  type TNode = Node<Time>

  /** Ordered by deadline. */
  ghost predicate Sorted(ns: seq<TNode>) {
    forall i, j :: 0 <= i < j < |ns| ==> !Before(ns[j].item, ns[i].item)
  }

  /** How many nodes are due at `t`: where a new node of deadline `t` goes, behind its
      equals, and how many expire at `t`. */
  ghost function Due(ns: seq<TNode>, t: Time): (k: nat)
    ensures k <= |ns|
  {
    if ns == [] || Before(t, ns[0].item) then 0 else 1 + Due(ns[1..], t)
  }

  lemma {:induction false} DueSplits(ns: seq<TNode>, t: Time)
    requires Sorted(ns)
    ensures forall i :: 0 <= i < Due(ns, t) ==> !Before(t, ns[i].item)
    ensures forall i :: Due(ns, t) <= i < |ns| ==> Before(t, ns[i].item)
  {
    if ns != [] && !Before(t, ns[0].item) {
      DueSplits(ns[1..], t);
      forall i | 0 <= i < Due(ns, t)
        ensures !Before(t, ns[i].item)
      {
        if i > 0 { assert ns[i] == ns[1..][i - 1]; }
      }
      forall i | Due(ns, t) <= i < |ns|
        ensures Before(t, ns[i].item)
      {
        assert ns[i] == ns[1..][i - 1];
      }
    } else if ns != [] {
      forall i | 0 <= i < |ns|
        ensures Before(t, ns[i].item)
      {
        if i > 0 { assert !Before(ns[i].item, ns[0].item); }
      }
    }
  }

  lemma InsertAt(ns: seq<TNode>, k: nat, x: TNode, i: nat)
    requires k <= |ns| && i <= |ns|
    ensures |Insert(ns, k, x)| == |ns| + 1
    ensures Insert(ns, k, x)[i] == if i < k then ns[i] else if i == k then x else ns[i - 1]
  {}

  lemma InsertInStep(ns: seq<TNode>, k: nat, x: TNode, i: nat, j: nat)
    requires Sorted(ns) && k == Due(ns, x.item) && i < j <= |ns| && |Insert(ns, k, x)| == |ns| + 1
    ensures !Before(Insert(ns, k, x)[j].item, Insert(ns, k, x)[i].item)
  {
    DueSplits(ns, x.item);
    InsertAt(ns, k, x, i);
    InsertAt(ns, k, x, j);
    hide Insert, Due;
  }

  /** Insertion keeps the order, and a node goes behind every node of the same deadline. */
  lemma InsertSorted(ns: seq<TNode>, x: TNode)
    requires Sorted(ns)
    ensures Sorted(Insert(ns, Due(ns, x.item), x))
    ensures forall i :: 0 <= i < |ns| ==> ns[i].item == x.item ==> i < Due(ns, x.item)
  {
    hide Insert, Due;
    DueSplits(ns, x.item);
    var k := Due(ns, x.item);
    InsertAt(ns, k, x, 0);
    forall i, j | 0 <= i < j <= |ns|
      ensures !Before(Insert(ns, k, x)[j].item, Insert(ns, k, x)[i].item)
    {
      InsertInStep(ns, k, x, i, j);
    }
  }

  // ------------------------------------------------------------ the tree as a search tree

  /** On the way down from the root, and the nodes due at `t` can still end where it leads. */
  ghost predicate OnWay(m: map<TNode, Link<Time>>, root: Node?<Time>, whole: set<TNode>,
                        up: Path<Time>, sub: Tree<Time>, ns: seq<TNode>, t: Time)
  {
    Way(m, root, whole, up, sub, ns) && |HoleLeft(up)| <= Due(ns, t) <= |ns| - |HoleRight(up)|
  }

  lemma TurnLeft(m: map<TNode, Link<Time>>, root: Node?<Time>, whole: set<TNode>,
                 up: Path<Time>, sub: Tree<Time>, ns: seq<TNode>, t: Time)
    requires OnWay(m, root, whole, up, sub, ns, t) && Sorted(ns) && sub.Branch? && Before(t, sub.node.item)
    ensures OnWay(m, root, whole, InLeft(up, sub.node, sub.right), sub.left, ns, t)
    ensures sub.node in m && m[sub.node].left == Root(sub.left)
    ensures Next(InLeft(up, sub.node, sub.right)) == sub.node
  {
    DueSplits(ns, t);
    WayLeft(m, root, whole, up, sub, ns);
    hide Way, HoleLeft, HoleRight, InOrder, Due, Before;
  }

  lemma TurnRight(m: map<TNode, Link<Time>>, root: Node?<Time>, whole: set<TNode>,
                  up: Path<Time>, sub: Tree<Time>, ns: seq<TNode>, t: Time)
    requires OnWay(m, root, whole, up, sub, ns, t) && Sorted(ns) && sub.Branch? && !Before(t, sub.node.item)
    ensures OnWay(m, root, whole, InRight(up, sub.left, sub.node), sub.right, ns, t)
    ensures sub.node in m && m[sub.node].right == Root(sub.right)
    ensures Next(InRight(up, sub.left, sub.node)) == Next(up)
  {
    DueSplits(ns, t);
    WayRight(m, root, whole, up, sub, ns);
    hide Way, HoleLeft, HoleRight, InOrder, Due, Before;
  }

  lemma EndOfWay(m: map<TNode, Link<Time>>, root: Node?<Time>, tree: Tree<Time>,
                 up: Path<Time>, ns: seq<TNode>, t: Time)
    requires OnWay(m, root, Elems(tree), up, Leaf, ns, t) && Indexes(m, root, tree, ns)
    ensures HoleAt(m, root, up, ns, Due(ns, t))
    ensures Next(up) == if Due(ns, t) < |ns| then ns[Due(ns, t)] else null
    ensures up.InLeft? ==> Due(ns, t) < |ns| && up.node == ns[Due(ns, t)]
    ensures up.InRight? ==> Due(ns, t) > 0 && up.node == ns[Due(ns, t) - 1]
  {
    WayEnds(m, root, tree, up, ns);
    hide HoleAt, Indexes, HoleLeft, HoleRight, Due;
  }

  /** Walk down from the root, left past later nodes and right otherwise; `succ` is the
      last node passed on its left. */
  method Descend(root: Node?<Time>, t: Time, ghost tree: Tree<Time>, ghost ns: seq<TNode>)
    returns (par: Node?<Time>, left: bool, succ: Node?<Time>, ghost up: Path<Time>)
    requires Sorted(ns) && Indexes(Snap(Members(ns)), root, tree, ns)
    ensures HoleAt(Snap(Members(ns)), root, up, ns, Due(ns, t))
    ensures par == Above(up) && (par != null ==> left == up.InLeft?)
    ensures succ == if Due(ns, t) < |ns| then ns[Due(ns, t)] else null
    ensures up.InLeft? ==> Due(ns, t) < |ns| && up.node == ns[Due(ns, t)]
    ensures up.InRight? ==> Due(ns, t) > 0 && up.node == ns[Due(ns, t) - 1]
  {
    hide Way, HoleAt, Indexes, Sorted, Next, Before, HoleLeft, HoleRight, Due;
    ghost var m := Snap(Members(ns));
    ghost var sub := tree;
    var p := root;
    par, left, succ, up := null, true, null, Top;
    WayStarts(m, root, tree, ns);
    assert OnWay(m, root, Elems(tree), up, sub, ns, t);
    hide OnWay;
    while p != null
      invariant OnWay(m, root, Elems(tree), up, sub, ns, t)
      invariant p == Root(sub) && par == Above(up) && (par != null ==> left == up.InLeft?)
      invariant succ == Next(up)
      decreases sub
    {
      par := p;
      if Before(t, p.item) {
        TurnLeft(m, root, Elems(tree), up, sub, ns, t);
        left, succ := true, p;
        up, sub := InLeft(up, p, sub.right), sub.left;
        p := p.left;
      } else {
        TurnRight(m, root, Elems(tree), up, sub, ns, t);
        left := false;
        up, sub := InRight(up, sub.left, p), sub.right;
        p := p.right;
      }
    }
    EndOfWay(m, root, tree, up, ns, t);
  }

  /** The node at place `i` of the sequence: what is before and after its subtrees. */
  lemma SpotAt(m: map<TNode, Link<Time>>, root: Node?<Time>, tree: Tree<Time>, ns: seq<TNode>, i: nat) returns (s: Spot<Time>)
    requires Indexes(m, root, tree, ns) && Distinct(ns) && i < |ns|
    ensures s.x == ns[i] && s.Holds(m, root) && s.All() == Members(ns) && s.Whole() == tree
    ensures InOrder(s.Whole()) == ns
    ensures HoleLeft(s.up) + InOrder(s.a) == ns[..i]
    ensures InOrder(s.b) + HoleRight(s.up) == ns[i + 1..]
  {
    s := FindSpot(m, Top, tree, root, ns[i]);
    AroundTheHole(s.up, s.Sub());
    Middle(HoleLeft(s.up), InOrder(s.a), ns[i], InOrder(s.b), HoleRight(s.up), ns, i);
  }

  lemma Middle<T>(p: seq<T>, a: seq<T>, x: T, b: seq<T>, q: seq<T>, ns: seq<T>, i: nat)
    requires ns == p + (a + [x] + b) + q && Distinct(ns) && i < |ns| && ns[i] == x
    ensures p + a == ns[..i] && b + q == ns[i + 1..]
  {
    assert ns[|p| + |a|] == x;
    assert ns == (p + a) + [x] + (b + q);
  }

  /** The empty child slots of a node, as holes. */
  lemma SlotHoles(s: Spot<Time>, ns: seq<TNode>, i: nat)
    requires i < |ns| && s.x == ns[i]
    requires HoleLeft(s.up) + InOrder(s.a) == ns[..i] && InOrder(s.b) + HoleRight(s.up) == ns[i + 1..]
    ensures HoleRight(InLeft(s.up, s.x, s.b)) == ns[i..]
    ensures i == 0 ==> s.a == Leaf && HoleLeft(InLeft(s.up, s.x, s.b)) == ns[..0]
    ensures HoleLeft(InRight(s.up, s.a, s.x)) == ns[..i + 1]
    ensures i == |ns| - 1 ==> s.b == Leaf && HoleRight(InRight(s.up, s.a, s.x)) == ns[|ns|..]
  {
    assert [s.x] + InOrder(s.b) + HoleRight(s.up) == [s.x] + (InOrder(s.b) + HoleRight(s.up));
    if i == 0 {
      assert |HoleLeft(s.up) + InOrder(s.a)| == 0;
    }
    if i == |ns| - 1 {
      assert |InOrder(s.b) + HoleRight(s.up)| == 0;
    }
  }

  /** The first node has no left child and the last no right child, so the cached ends are
      always a place to hang a new leaf. */
  lemma FirstHole(m: map<TNode, Link<Time>>, root: Node?<Time>, tree: Tree<Time>, ns: seq<TNode>) returns (up: Path<Time>)
    requires Indexes(m, root, tree, ns) && Distinct(ns) && ns != []
    ensures HoleAt(m, root, up, ns, 0) && up.InLeft? && Above(up) == ns[0]
    ensures ns[0] in m && m[ns[0]].left == null
  {
    var s := SpotAt(m, root, tree, ns, 0);
    SlotHoles(s, ns, 0);
    SlotLinks(m, root, s, true);
    hide *;
    up := InLeft(s.up, s.x, s.b);
  }

  lemma LastHole(m: map<TNode, Link<Time>>, root: Node?<Time>, tree: Tree<Time>, ns: seq<TNode>) returns (up: Path<Time>)
    requires Indexes(m, root, tree, ns) && Distinct(ns) && ns != []
    ensures HoleAt(m, root, up, ns, |ns|) && up.InRight? && Above(up) == ns[|ns| - 1]
    ensures ns[|ns| - 1] in m && m[ns[|ns| - 1]].right == null
  {
    var s := SpotAt(m, root, tree, ns, |ns| - 1);
    SlotHoles(s, ns, |ns| - 1);
    SlotLinks(m, root, s, false);
    hide *;
    up := InRight(s.up, s.a, s.x);
  }

  /** Hang `x` in the hole and bring it to the root; `all` are the nodes with `x`. */
  method Attach(x: TNode, par: TNode, left: bool, root: Node?<Time>,
                ghost up: Path<Time>, ghost ns: seq<TNode>, ghost k: nat, ghost all: set<TNode>)
    returns (root': Node?<Time>, ghost tree: Tree<Time>)
    requires HoleAt(Snap(Members(ns)), root, up, ns, k) && par == Above(up) && left == up.InLeft?
    requires x !in ns && all == Members(ns) + {x}
    modifies all`left, all`right, all`parent
    ensures root' == x && Members(Insert(ns, k, x)) == all
    ensures Indexes(Snap(all), root', tree, Insert(ns, k, x))
  {
    ghost var s := Spot(up, Leaf, x, Leaf);
    LeafSpot(Snap(Members(ns)), root, up, ns, k, x);
    MembersInsert(ns, k, x);
    root' := LinkLeaf(x, par, left, root, up);
    ghost var s';
    root', s' := SplayTop(x, root', s);
    tree := s'.Whole();
    TopIndexes(Snap(all), s', root', Insert(ns, k, x));
  }

  /** The state of a timer: both indexes over `ns`, and its cached ends. */
  ghost predicate Agrees(list: TNode, root: Node?<Time>, min: Node?<Time>, max: Node?<Time>, tree: Tree<Time>, ns: seq<TNode>)
    reads list, ns
  {
    && Ring(list, ns) && Indexes(Snap(Members(ns)), root, tree, ns) && Sorted(ns)
    && min == First(ns) && max == Last(ns)
  }

  ghost function First(ns: seq<TNode>): Node?<Time> {
    if ns == [] then null else ns[0]
  }

  ghost function Last(ns: seq<TNode>): Node?<Time> {
    if ns == [] then null else ns[|ns| - 1]
  }

  lemma EndsInsert(ns: seq<TNode>, k: nat, x: TNode)
    requires ns != [] && k <= |ns|
    ensures First(Insert(ns, k, x)) == if k == 0 then x else First(ns)
    ensures Last(Insert(ns, k, x)) == if k == |ns| then x else Last(ns)
  {}

  lemma EmptyRoot(list: TNode, root: Node?<Time>, min: Node?<Time>, max: Node?<Time>, tree: Tree<Time>, ns: seq<TNode>)
    requires Agrees(list, root, min, max, tree, ns)
    ensures (root == null <==> ns == []) && min == First(ns)
  {
    if ns != [] {
      assert ns[0] in Members(ns);
    }
  }

  lemma NoNodes(list: TNode, root: Node?<Time>, min: Node?<Time>, max: Node?<Time>, tree: Tree<Time>)
    requires Agrees(list, root, min, max, tree, [])
    ensures Ring(list, []) && root == null
  {}

  lemma OneNode(list: TNode, root: Node?<Time>, x: TNode)
    requires Ring(list, [x]) && Spot(Top, Leaf, x, Leaf).Holds(Snap({} + {x}), root)
    ensures Agrees(list, root, x, x, Branch(Leaf, x, Leaf), [x])
  {
    var t := Branch(Leaf, x, Leaf);
    assert Members([x]) == {x} == {} + {x} && InOrder(t) == [x] && Elems(t) == {x};
  }

  lemma FrontHole(list: TNode, root: Node?<Time>, min: Node?<Time>, max: Node?<Time>, tree: Tree<Time>, ns: seq<TNode>)
    returns (up: Path<Time>)
    requires Agrees(list, root, min, max, tree, ns) && ns != []
    ensures HoleAt(Snap(Members(ns)), root, up, ns, 0) && up.InLeft? && min == Above(up)
    ensures min != null && min.left == null
  {
    RingIsDistinct(list, ns);
    up := FirstHole(Snap(Members(ns)), root, tree, ns);
  }

  lemma BackHole(list: TNode, root: Node?<Time>, min: Node?<Time>, max: Node?<Time>, tree: Tree<Time>, ns: seq<TNode>)
    returns (up: Path<Time>)
    requires Agrees(list, root, min, max, tree, ns) && ns != []
    ensures HoleAt(Snap(Members(ns)), root, up, ns, |ns|) && up.InRight? && max == Above(up)
    ensures max != null && max.right == null
  {
    RingIsDistinct(list, ns);
    up := LastHole(Snap(Members(ns)), root, tree, ns);
  }

  lemma HoleIsBelow(m: map<TNode, Link<Time>>, root: Node?<Time>, up: Path<Time>, ns: seq<TNode>, k: nat)
    requires HoleAt(m, root, up, ns, k) && ns != []
    ensures up != Top
  {}

  /** Put `x` in the list next to `pos`, hang it in the hole and bring it to the root. */
  method PlaceNode(x: TNode, list: TNode, pos: TNode, before: bool, par: TNode, left: bool,
                   root: Node?<Time>, ghost min: Node?<Time>, ghost max: Node?<Time>,
                   ghost up: Path<Time>, ghost was: Tree<Time>, ghost ns: seq<TNode>, ghost k: nat)
    returns (root': Node?<Time>, ghost tree: Tree<Time>)
    requires Agrees(list, root, min, max, was, ns) && ns != [] && x !in ns && x != list
    requires k == Due(ns, x.item) && pos == Stop(list, ns, if before then k + 1 else k)
    requires HoleAt(Snap(Members(ns)), root, up, ns, k) && par == Above(up) && left == up.InLeft?
    modifies list, ns, x
    ensures Agrees(list, root', if k == 0 then x else min, if k == |ns| then x else max, tree, Insert(ns, k, x))
  {
    hide HoleAt, Indexes, Circle, Insert, Sorted, First, Last, Stop, Above;
    ghost var m := Snap(Members(ns));
    if before {
      AddBefore(pos, x, list, ns, k);
    } else {
      AddAfter(pos, x, list, ns, k);
    }
    assert Snap(Members(ns)) == m;
    ghost var l := Sides(Members(Insert(ns, k, x)) + {list});
    root', tree := Attach(x, par, left, root, up, ns, k, Members(ns) + {x});
    assert Sides(Members(Insert(ns, k, x)) + {list}) == l;
    InsertSorted(ns, x);
    EndsInsert(ns, k, x);
  }

  lemma InsertIntoNone(x: TNode)
    ensures Insert([], 0, x) == [x] && Due([], x.item) == 0
  {}

  lemma EmptyAgrees(list: TNode)
    requires Ring(list, [])
    ensures Agrees(list, null, null, null, Leaf, [])
  {}

  lemma Parts(list: TNode, root: Node?<Time>, min: Node?<Time>, max: Node?<Time>, tree: Tree<Time>, ns: seq<TNode>)
    requires Agrees(list, root, min, max, tree, ns)
    ensures Ring(list, ns) && Indexes(Snap(Members(ns)), root, tree, ns) && Sorted(ns) && max == Last(ns)
    ensures Distinct(ns) && list !in ns
  {
    RingIsDistinct(list, ns);
  }

  lemma RestAgrees(list: TNode, root: Node?<Time>, max: Node?<Time>, tree: Tree<Time>, ns: seq<TNode>, k: nat)
    requires k < |ns| && Sorted(ns) && max == Last(ns)
    requires Ring(list, ns[k..]) && Indexes(Snap(Members(ns[k..])), root, tree, ns[k..])
    ensures Agrees(list, root, ns[k], max, tree, ns[k..])
  {
    hide Ring, Indexes;
  }

  /** What the cached ends say about the place of `t`. */
  lemma DueAtEnds(ns: seq<TNode>, t: Time)
    requires Sorted(ns) && ns != []
    ensures Due(ns, t) == 0 <==> Before(t, ns[0].item)
    ensures Due(ns, t) == |ns| <==> !Before(t, ns[|ns| - 1].item)
  {
    DueSplits(ns, t);
  }

  /** Cutting the left subtree of the first node to keep leaves the nodes from it on. */
  lemma CutSequence(s: Spot<Time>, ns: seq<TNode>, k: nat)
    requires s.up == Top && InOrder(s.Whole()) == ns && Distinct(ns) && k < |ns| && s.x == ns[k]
    ensures InOrder(Branch(Leaf, s.x, s.b)) == ns[k..]
  {
    hide Distinct;
    assert ns == [] + (InOrder(s.a) + [s.x] + InOrder(s.b)) + [];
    Middle([], InOrder(s.a), s.x, InOrder(s.b), [], ns, k);
    assert InOrder(s.b) + [] == InOrder(s.b);
    assert ns[k..] == [s.x] + ns[k + 1..];
  }

  lemma CutKeeps(m: map<TNode, Link<Time>>, m': map<TNode, Link<Time>>, s: Spot<Time>, rest: seq<TNode>)
    requires s.up == Top && s.Holds(m, s.x) && InOrder(Branch(Leaf, s.x, s.b)) == rest
    requires Agree(m, m', Members(rest) - {s.x}) && s.x in m && s.x in m' && m'[s.x] == m[s.x].(left := null)
    ensures Indexes(m', s.x, Branch(Leaf, s.x, s.b), rest)
  {
    ElemsInOrder(Branch(Leaf, s.x, s.b));
    KeepLinked(m, m', s.b, s.x);
    assert Apart(Branch(Leaf, s.x, s.b));
    assert Linked(m', Branch(Leaf, s.x, s.b), null);
    assert Elems(Branch(Leaf, s.x, s.b)) == Members(rest);
  }

  method CutBefore(up: TNode, root: Node?<Time>, ghost was: Tree<Time>, ghost ns: seq<TNode>, ghost k: nat)
    returns (root': Node?<Time>, ghost tree: Tree<Time>)
    requires Indexes(Snap(Members(ns)), root, was, ns) && Distinct(ns) && k < |ns| && up == ns[k]
    modifies ns`left, ns`right, ns`parent
    ensures root' == up && Indexes(Snap(Members(ns[k..])), root', tree, ns[k..])
  {
    hide Indexes, Distinct, Linked, InOrder, Apart, Elems;
    ghost var s := SpotAt(Snap(Members(ns)), root, was, ns, k);
    ghost var s';
    root', s' := SplayTop(up, root, s);
    ghost var m := Snap(Members(ns));
    up.left := null;
    tree := Branch(Leaf, up, s'.b);
    CutSequence(s', ns, k);
    CutKeeps(m, Snap(Members(ns[k..])), s', ns[k..]);
  }

  /** The search, splice, splay and cut when some node is left: `up`, the first node to keep,
      is never null. */
  method ExpireSome(cur: Time, awake: TNode, list: TNode, root: Node?<Time>,
                    ghost min: Node?<Time>, ghost max: Node?<Time>, ghost was: Tree<Time>, ghost ns: seq<TNode>)
    returns (root': Node?<Time>, up: TNode, ghost tree: Tree<Time>)
    requires Agrees(list, root, min, max, was, ns) && 0 < Due(ns, cur) < |ns|
    requires awake != list && awake !in ns
    modifies list, ns, awake
    ensures Agrees(list, root', up, max, tree, ns[Due(ns, cur)..]) && Ring(awake, ns[..Due(ns, cur)])
  {
    hide Agrees, Ring, Sorted, Indexes, HoleAt, Distinct, Last, Due, Above;
    Parts(list, root, min, max, was, ns);
    var par, left, succ;
    ghost var hole;
    par, left, succ, hole := Descend(root, cur, was, ns);
    up := succ;
    SplitBefore(list, awake, up, ns, Due(ns, cur));
    root', tree := CutBefore(up, root, was, ns, Due(ns, cur));
    RestAgrees(list, root', max, tree, ns, Due(ns, cur));
  }

  class Timers {
    const list: TNode
    var root: Node?<Time>
    var minTime: Node?<Time>
    var maxTime: Node?<Time>
    ghost var nodes: seq<TNode>
    ghost var tree: Tree<Time>

    /** List and tree hold the same nodes in the same order, sorted, and the cached ends
        are its ends. */
    ghost predicate Valid()
      reads this, list, nodes
    {
      Agrees(list, root, minTime, maxTime, tree, nodes)
    }

    constructor ()
      ensures Valid() && nodes == [] && fresh(list)
    {
      list := new Node(Time(0, 0));
      root, minTime, maxTime, nodes, tree := null, null, null, [], Leaf;
      new;
      InitList(list);
    }

    /** The first node of an empty timer. */
    method InsertOnly(x: TNode)
      requires Valid() && nodes == [] && x != list
      modifies this, list, x
      ensures Valid() && nodes == [x]
    {
      hide Agrees, Ring;
      NoNodes(list, root, minTime, maxTime, tree);
      AddAfter(list, x, list, [], 0);
      assert Insert([], 0, x) == [x];
      root := LinkLeaf(x, null, true, root, Top);
      OneNode(list, root, x);
      minTime, maxTime, nodes, tree := x, x, [x], Branch(Leaf, x, Leaf);
    }

    /** A new earliest node. */
    method InsertFirst(x: TNode)
      requires Valid() && nodes != [] && Due(nodes, x.item) == 0 && x !in nodes && x != list
      modifies this, list, nodes, x
      ensures Valid() && nodes == Insert(old(nodes), 0, x)
    {
      hide Agrees, HoleAt, Insert, Due;
      ghost var ns := nodes;
      ghost var up := FrontHole(list, root, minTime, maxTime, tree, ns);
      root, tree := PlaceNode(x, list, list, false, minTime, true, root, minTime, maxTime, up, tree, ns, 0);
      minTime := x;
      nodes := Insert(ns, 0, x);
    }

    /** A new latest node, or an equal of the latest. */
    method InsertLast(x: TNode)
      requires Valid() && nodes != [] && Due(nodes, x.item) == |nodes| && x !in nodes && x != list
      modifies this, list, nodes, x
      ensures Valid() && nodes == Insert(old(nodes), |old(nodes)|, x)
    {
      hide Agrees, HoleAt, Insert, Due;
      ghost var ns := nodes;
      ghost var up := BackHole(list, root, minTime, maxTime, tree, ns);
      root, tree := PlaceNode(x, list, list, true, maxTime, false, root, minTime, maxTime, up, tree, ns, |ns|);
      maxTime := x;
      nodes := Insert(ns, |ns|, x);
    }

    /** A node between the ends: beside the last node on the way down. */
    method InsertMiddle(x: TNode)
      requires Valid() && 0 < Due(nodes, x.item) < |nodes| && x !in nodes && x != list
      modifies this, list, nodes, x
      ensures Valid() && nodes == Insert(old(nodes), Due(old(nodes), x.item), x)
    {
      hide Indexes, Ring, Sorted, First, Last, HoleAt, Insert, Due;
      ghost var ns := nodes;
      ghost var k := Due(ns, x.item);
      var par, left, succ;
      ghost var up;
      par, left, succ, up := Descend(root, x.item, tree, ns);
      HoleIsBelow(Snap(Members(ns)), root, up, ns, k);
      root, tree := PlaceNode(x, list, par, left, par, left, root, minTime, maxTime, up, tree, ns, k);
      nodes := Insert(ns, k, x);
    }

    /** insert_time_node: behind every node of its deadline, and the answer is whether the
        earliest deadline changed. */
    method InsertNode(x: TNode) returns (earliest: bool)
      requires Valid() && x !in nodes && x != list
      modifies this, list, nodes, x
      ensures Valid() && nodes == Insert(old(nodes), Due(old(nodes), x.item), x)
      ensures earliest <==> old(nodes) == [] || Before(x.item, old(nodes)[0].item)
    {
      hide Ring, Sorted, Insert;
      if root == null {
        InsertOnly(x);
        assert nodes == Insert(old(nodes), Due(old(nodes), x.item), x) by { InsertIntoNone(x); }
        earliest := true;
      } else {
        DueAtEnds(nodes, x.item);
        if Before(x.item, minTime.item) {
          InsertFirst(x);
          earliest := true;
        } else if !Before(x.item, maxTime.item) {
          InsertLast(x);
          earliest := false;
        } else {
          InsertMiddle(x);
          earliest := false;
        }
      }
    }

    /** The expiry at `cur`, which is not before the earliest deadline: exactly the due nodes
        move to `awake`, in order, and the timer keeps exactly the rest. */
    method Expire(cur: Time, awake: TNode)
      requires Valid() && nodes != [] && !Before(cur, minTime.item)
      requires awake != list && awake !in nodes
      modifies this, list, nodes, awake
      ensures Valid() && nodes == old(nodes)[Due(old(nodes), cur)..]
      ensures Ring(awake, old(nodes)[..Due(old(nodes), cur)]) && Due(old(nodes), cur) > 0
    {
      hide Ring, Sorted, Indexes, Due;
      DueAtEnds(nodes, cur);
      if !Before(cur, maxTime.item) {
        ReplaceInit(list, awake, nodes);
        assert nodes[..|nodes|] == nodes;
        root, minTime, maxTime := null, null, null;
        nodes, tree := [], Leaf;
        EmptyAgrees(list);
      } else {
        ghost var ns := nodes;
        root, minTime, tree := ExpireSome(cur, awake, list, root, minTime, maxTime, tree, ns);
        nodes := ns[Due(ns, cur)..];
      }
    }
  }
}
