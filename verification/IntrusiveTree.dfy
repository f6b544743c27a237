/**
 The intrusive binary tree under the timer and the stack pool: nodes with left, right and
 parent links, described by a ghost tree.  A rotation is the only restructuring; whatever
 rotations are made, the in-order sequence stays.
 */
module IntrusiveTree {
  import opened Circles

  class Node<T> {
    const item: T
    var left: Node?<T>
    var right: Node?<T>
    var parent: Node?<T>
    var next: Node?<T>
    var prev: Node?<T>

    constructor (item: T)
      ensures this.item == item && left == null && right == null && parent == null
    {
      this.item := item;
      left, right, parent, next, prev := null, null, null, null, null;
    }
  }

  /** The tree links of one node, and of a set of nodes. */
  datatype Link<T> = Link(left: Node?<T>, right: Node?<T>, parent: Node?<T>)

  ghost function Snap<T>(ns: set<Node<T>>): (m: map<Node<T>, Link<T>>)
    reads ns`left, ns`right, ns`parent
    ensures m.Keys == ns
  {
    map n | n in ns :: Link(n.left, n.right, n.parent)
  }

  datatype Tree<T> = Leaf | Branch(left: Tree<T>, node: Node<T>, right: Tree<T>)

  /** A tree with a hole: the way up from the hole to the root. */
  datatype Path<T> =
    | Top
    | InLeft(up: Path<T>, node: Node<T>, right: Tree<T>)
    | InRight(up: Path<T>, left: Tree<T>, node: Node<T>)

  ghost function InOrder<T>(t: Tree<T>): seq<Node<T>> {
    match t
    case Leaf => []
    case Branch(l, n, r) => InOrder(l) + [n] + InOrder(r)
  }

  ghost function Plug<T>(p: Path<T>, t: Tree<T>): Tree<T>
    decreases p
  {
    match p
    case Top => t
    case InLeft(up, n, r) => Plug(up, Branch(t, n, r))
    case InRight(up, l, n) => Plug(up, Branch(l, n, t))
  }

  ghost function Elems<T>(t: Tree<T>): set<Node<T>> {
    match t
    case Leaf => {}
    case Branch(l, n, r) => Elems(l) + {n} + Elems(r)
  }

  ghost function PathElems<T>(p: Path<T>): set<Node<T>> {
    match p
    case Top => {}
    case InLeft(up, n, r) => PathElems(up) + {n} + Elems(r)
    case InRight(up, l, n) => PathElems(up) + {n} + Elems(l)
  }

  ghost function Root<T>(t: Tree<T>): (r: Node?<T>)
    ensures r == null <==> t == Leaf
    ensures r != null ==> r in Elems(t)
  {
    match t
    case Leaf => null
    case Branch(_, n, _) => n
  }

  /** No node occurs twice. */
  ghost predicate Apart<T>(t: Tree<T>) {
    match t
    case Leaf => true
    case Branch(l, n, r) =>
      n !in Elems(l) && n !in Elems(r) && Elems(l) !! Elems(r) && Apart(l) && Apart(r)
  }

  ghost predicate PathApart<T>(p: Path<T>) {
    match p
    case Top => true
    case InLeft(up, n, r) =>
      n !in PathElems(up) && n !in Elems(r) && PathElems(up) !! Elems(r) && PathApart(up) && Apart(r)
    case InRight(up, l, n) =>
      n !in PathElems(up) && n !in Elems(l) && PathElems(up) !! Elems(l) && PathApart(up) && Apart(l)
  }

  ghost function Above<T>(p: Path<T>): Node?<T> {
    match p
    case Top => null
    case InLeft(_, n, _) => n
    case InRight(_, _, n) => n
  }

  /** The links in `m` say `t`, hanging below `parent`. */
  ghost predicate Linked<T>(m: map<Node<T>, Link<T>>, t: Tree<T>, parent: Node?<T>) {
    match t
    case Leaf => true
    case Branch(l, n, r) =>
      n in m && m[n] == Link(Root(l), Root(r), parent) && Linked(m, l, n) && Linked(m, r, n)
  }

  /** The links on the way up say `p`, with `child` in the hole and `root` at the top. */
  ghost predicate PathLinked<T>(m: map<Node<T>, Link<T>>, p: Path<T>, root: Node?<T>, child: Node?<T>)
    decreases p
  {
    match p
    case Top => root == child
    case InLeft(up, n, r) =>
      n in m && m[n] == Link(child, Root(r), Above(up)) && Linked(m, r, n) && PathLinked(m, up, root, n)
    case InRight(up, l, n) =>
      n in m && m[n] == Link(Root(l), child, Above(up)) && Linked(m, l, n) && PathLinked(m, up, root, n)
  }

  ghost predicate Agree<T>(m: map<Node<T>, Link<T>>, m': map<Node<T>, Link<T>>, ns: set<Node<T>>) {
    forall n :: n in ns ==> n in m ==> n in m' && m'[n] == m[n]
  }

  lemma {:induction false} KeepLinked<T>(m: map<Node<T>, Link<T>>, m': map<Node<T>, Link<T>>, t: Tree<T>, parent: Node?<T>)
    requires Linked(m, t, parent) && Agree(m, m', Elems(t))
    ensures Linked(m', t, parent)
  {
    match t
    case Leaf =>
    case Branch(l, n, r) =>
      KeepLinked(m, m', l, n);
      KeepLinked(m, m', r, n);
  }

  lemma {:induction false} KeepPath<T>(m: map<Node<T>, Link<T>>, m': map<Node<T>, Link<T>>, p: Path<T>, root: Node?<T>, child: Node?<T>)
    requires PathLinked(m, p, root, child) && Agree(m, m', PathElems(p))
    ensures PathLinked(m', p, root, child)
    decreases p
  {
    match p
    case Top =>
    case InLeft(up, n, r) =>
      KeepLinked(m, m', r, n);
      KeepPath(m, m', up, root, n);
    case InRight(up, l, n) =>
      KeepLinked(m, m', l, n);
      KeepPath(m, m', up, root, n);
  }

  /** A tree whose root has been hung below another parent. */
  lemma Rehung<T>(m: map<Node<T>, Link<T>>, m': map<Node<T>, Link<T>>, t: Tree<T>, was: Node?<T>, parent: Node?<T>)
    requires Linked(m, t, was) && Apart(t) && Agree(m, m', Elems(t) - {Root(t)})
    requires t.Branch? ==> t.node in m' && m'[t.node] == m[t.node].(parent := parent)
    ensures Linked(m', t, parent)
  {
    if t.Branch? {
      KeepLinked(m, m', t.left, t.node);
      KeepLinked(m, m', t.right, t.node);
    }
  }

  /** Another child in the hole: only the node above the hole changes. */
  lemma Replugged<T>(m: map<Node<T>, Link<T>>, m': map<Node<T>, Link<T>>, p: Path<T>, root: Node?<T>, was: Node?<T>, child: Node?<T>)
    requires PathLinked(m, p, root, was) && PathApart(p)
    requires Agree(m, m', PathElems(p) - {Above(p)})
    requires p.InLeft? ==> p.node in m' && m'[p.node] == m[p.node].(left := child)
    requires p.InRight? ==> p.node in m' && m'[p.node] == m[p.node].(right := child)
    ensures PathLinked(m', p, if p.Top? then child else root, child)
  {
    match p
    case Top =>
    case InLeft(up, n, r) =>
      KeepLinked(m, m', r, n);
      KeepPath(m, m', up, root, n);
    case InRight(up, l, n) =>
      KeepLinked(m, m', l, n);
      KeepPath(m, m', up, root, n);
  }

  lemma {:induction false} PlugElems<T>(p: Path<T>, t: Tree<T>)
    ensures Elems(Plug(p, t)) == PathElems(p) + Elems(t)
    decreases p
  {
    match p
    case Top =>
    case InLeft(up, n, r) => PlugElems(up, Branch(t, n, r));
    case InRight(up, l, n) => PlugElems(up, Branch(l, n, t));
  }

  /** What is plugged in may be exchanged for a tree with the same in-order sequence. */
  lemma {:induction false} PlugInOrder<T>(p: Path<T>, t: Tree<T>, u: Tree<T>)
    requires InOrder(t) == InOrder(u)
    ensures InOrder(Plug(p, t)) == InOrder(Plug(p, u))
    decreases p
  {
    match p
    case Top =>
    case InLeft(up, n, r) => PlugInOrder(up, Branch(t, n, r), Branch(u, n, r));
    case InRight(up, l, n) => PlugInOrder(up, Branch(l, n, t), Branch(l, n, u));
  }

  ghost function Depth<T>(p: Path<T>): nat {
    match p
    case Top => 0
    case InLeft(up, _, _) => 1 + Depth(up)
    case InRight(up, _, _) => 1 + Depth(up)
  }

  /** A node in its tree: the way up from it, and its subtrees. */
  datatype Spot<T> = Spot(up: Path<T>, a: Tree<T>, x: Node<T>, b: Tree<T>)
  {
    ghost function Sub(): Tree<T> { Branch(a, x, b) }
    ghost function Whole(): Tree<T> { Plug(up, Sub()) }
    ghost function All(): set<Node<T>> { PathElems(up) + Elems(Sub()) }

    /** The spot after `x` is lifted above its parent. */
    ghost function Lifted(): Spot<T> {
      match up
      case Top => this
      case InLeft(v, p, c) => Spot(v, a, x, Branch(b, p, c))
      case InRight(v, c, p) => Spot(v, Branch(c, p, a), x, b)
    }

    ghost predicate Holds(m: map<Node<T>, Link<T>>, root: Node?<T>) {
      && PathApart(up) && Apart(Sub()) && PathElems(up) !! Elems(Sub())
      && PathLinked(m, up, root, x) && Linked(m, Sub(), Above(up))
    }
  }

  lemma LiftedKeeps<T>(s: Spot<T>)
    requires s.up != Top
    ensures InOrder(s.Lifted().Whole()) == InOrder(s.Whole())
    ensures s.Lifted().All() == s.All() && Depth(s.Lifted().up) == Depth(s.up) - 1
  {
    match s.up
    case InLeft(v, p, c) =>
      PlugInOrder(v, Branch(s.Sub(), p, c), s.Lifted().Sub());
      assert Elems(Branch(s.b, p, c)) == Elems(s.b) + {p} + Elems(c);
      assert s.Lifted().All() == PathElems(v) + {p} + Elems(c) + Elems(s.Sub());
    case InRight(v, c, p) =>
      PlugInOrder(v, Branch(c, p, s.Sub()), s.Lifted().Sub());
      assert Elems(Branch(c, p, s.a)) == Elems(c) + {p} + Elems(s.a);
      assert s.Lifted().All() == PathElems(v) + {p} + Elems(c) + Elems(s.Sub());
  }

  lemma TopIsWhole<T>(m: map<Node<T>, Link<T>>, s: Spot<T>, root: Node?<T>)
    requires s.up == Top && s.Holds(m, root)
    ensures Apart(s.Whole()) && Linked(m, s.Whole(), null) && root == s.x == Root(s.Whole())
    ensures Elems(s.Whole()) == s.All()
  {}

  /** What a rotation at `s` writes. */
  ghost predicate Rotated<T>(m: map<Node<T>, Link<T>>, m': map<Node<T>, Link<T>>, s: Spot<T>)
    requires s.up != Top
  {
    var p := Above(s.up);
    var left := s.up.InLeft?;
    var mid := if left then s.b else s.a;
    var g := Above(s.up.up);
    && p in m && p in m' && s.x in m && s.x in m'
    && m'[p] == (if left then Link(Root(mid), m[p].right, s.x) else Link(m[p].left, Root(mid), s.x))
    && m'[s.x] == (if left then Link(m[s.x].left, p, g) else Link(p, m[s.x].right, g))
    && (mid.Branch? ==> mid.node in m && mid.node in m' && m'[mid.node] == m[mid.node].(parent := p))
    && (s.up.up.InLeft? ==> g in m && g in m' && m'[g] == m[g].(left := s.x))
    && (s.up.up.InRight? ==> g in m && g in m' && m'[g] == m[g].(right := s.x))
    && Agree(m, m', s.All() - {p, s.x, Root(mid), g})
  }

  lemma LiftedApart<T>(s: Spot<T>)
    requires s.up != Top && PathApart(s.up) && Apart(s.Sub()) && PathElems(s.up) !! Elems(s.Sub())
    ensures PathApart(s.Lifted().up) && Apart(s.Lifted().Sub())
    ensures PathElems(s.Lifted().up) !! Elems(s.Lifted().Sub())
  {
    match s.up
    case InLeft(v, p, c) => assert Elems(Branch(s.b, p, c)) == Elems(s.b) + {p} + Elems(c);
    case InRight(v, c, p) => assert Elems(Branch(c, p, s.a)) == Elems(c) + {p} + Elems(s.a);
  }

  lemma LiftedSub<T>(m: map<Node<T>, Link<T>>, m': map<Node<T>, Link<T>>, s: Spot<T>, root: Node?<T>)
    requires s.up != Top && s.Holds(m, root) && Rotated(m, m', s)
    ensures Linked(m', s.Lifted().Sub(), Above(s.Lifted().up))
  {
    var p := Above(s.up);
    KeepLinked(m, m', if s.up.InLeft? then s.a else s.b, s.x);
    KeepLinked(m, m', if s.up.InLeft? then s.up.right else s.up.left, p);
    Rehung(m, m', if s.up.InLeft? then s.b else s.a, s.x, p);
  }

  /** The links after a rotation describe the lifted spot. */
  lemma LiftedHolds<T>(m: map<Node<T>, Link<T>>, m': map<Node<T>, Link<T>>, s: Spot<T>, root: Node?<T>)
    requires s.up != Top && s.Holds(m, root) && Rotated(m, m', s)
    ensures s.Lifted().Holds(m', if s.up.up.Top? then s.x else root)
  {
    LiftedApart(s);
    LiftedSub(m, m', s, root);
    Replugged(m, m', s.up.up, root, Above(s.up), s.x);
  }

  /** The nodes that a rotation at `s` touches are distinct and linked as they should be. */
  ghost predicate Neighbours<T>(m: map<Node<T>, Link<T>>, s: Spot<T>)
    requires s.up != Top
  {
    var p := Above(s.up);
    var mid := Root(if s.up.InLeft? then s.b else s.a);
    var g := Above(s.up.up);
    && s.x in m && p in m && (g != null ==> g in m) && (mid != null ==> mid in m)
    && p != s.x && g != p && g != s.x && mid != p && mid != s.x && (mid != null ==> mid != g)
    && m[s.x] == Link(Root(s.a), Root(s.b), p) && m[p].parent == g
    && (if s.up.InLeft? then m[p].left == s.x else m[p].right == s.x && m[p].left != s.x)
    && (s.up.up.Top? <==> g == null)
    && (s.up.up.InLeft? ==> m[g].left == p)
    && (s.up.up.InRight? ==> m[g].right == p && m[g].left != p)
  }

  lemma HoldsNeighbours<T>(m: map<Node<T>, Link<T>>, s: Spot<T>, root: Node?<T>)
    requires s.up != Top && s.Holds(m, root)
    ensures Neighbours(m, s)
  {
    assert PathLinked(m, s.up.up, root, Above(s.up));
    assert s.b.Branch? ==> Linked(m, s.b, s.x);
    assert s.a.Branch? ==> Linked(m, s.a, s.x);
  }

  // ------------------------------------------------------------ in order

  ghost function Members<T>(ns: seq<Node<T>>): set<Node<T>> {
    set n | n in ns
  }

  /** The in-order sequence before and after the hole. */
  ghost function HoleLeft<T>(p: Path<T>): seq<Node<T>> {
    match p
    case Top => []
    case InLeft(up, _, _) => HoleLeft(up)
    case InRight(up, l, n) => HoleLeft(up) + InOrder(l) + [n]
  }

  ghost function HoleRight<T>(p: Path<T>): seq<Node<T>> {
    match p
    case Top => []
    case InLeft(up, n, r) => [n] + InOrder(r) + HoleRight(up)
    case InRight(up, _, _) => HoleRight(up)
  }

  lemma {:induction false} AroundTheHole<T>(p: Path<T>, t: Tree<T>)
    ensures InOrder(Plug(p, t)) == HoleLeft(p) + InOrder(t) + HoleRight(p)
    decreases p
  {
    match p
    case Top =>
    case InLeft(up, n, r) => AroundTheHole(up, Branch(t, n, r));
    case InRight(up, l, n) => AroundTheHole(up, Branch(l, n, t));
  }

  lemma {:induction false} ElemsInOrder<T>(t: Tree<T>)
    ensures Elems(t) == Members(InOrder(t))
  {
    match t
    case Leaf =>
    case Branch(l, n, r) =>
      ElemsInOrder(l);
      ElemsInOrder(r);
  }

  /** Where in the tree a node is. */
  lemma {:induction false} FindSpot<T>(m: map<Node<T>, Link<T>>, p: Path<T>, t: Tree<T>, root: Node?<T>, x: Node<T>) returns (s: Spot<T>)
    requires PathApart(p) && Apart(t) && PathElems(p) !! Elems(t)
    requires PathLinked(m, p, root, Root(t)) && Linked(m, t, Above(p)) && x in Elems(t)
    ensures s.x == x && s.Whole() == Plug(p, t) && s.All() == PathElems(p) + Elems(t) && s.Holds(m, root)
    decreases t
  {
    if x == t.node {
      s := Spot(p, t.left, x, t.right);
    } else if x in Elems(t.left) {
      s := FindSpot(m, InLeft(p, t.node, t.right), t.left, root, x);
    } else {
      s := FindSpot(m, InRight(p, t.left, t.node), t.right, root, x);
    }
  }

  /** A hole in place of a missing child, by the links. */
  ghost function Slot<T>(s: Spot<T>, left: bool): Path<T> {
    if left then InLeft(s.up, s.x, s.b) else InRight(s.up, s.a, s.x)
  }

  lemma SlotLinks<T>(m: map<Node<T>, Link<T>>, root: Node?<T>, s: Spot<T>, left: bool)
    requires s.Holds(m, root) && if left then s.a == Leaf else s.b == Leaf
    ensures PathApart(Slot(s, left)) && PathLinked(m, Slot(s, left), root, null)
    ensures PathElems(Slot(s, left)) == s.All()
    ensures s.x in m && if left then m[s.x].left == null else m[s.x].right == null
  {
    assert Elems(s.Sub()) == Elems(s.a) + {s.x} + Elems(s.b);
  }

  /** By the links in `m`, the tree with root `root` indexes `ns`. */
  ghost predicate Indexes<T>(m: map<Node<T>, Link<T>>, root: Node?<T>, tree: Tree<T>, ns: seq<Node<T>>) {
    && Apart(tree) && InOrder(tree) == ns && Elems(tree) == Members(ns)
    && root == Root(tree) && Linked(m, tree, null)
  }

  /** By the links in `m`, a hole reached from the root, with `k` nodes before it. */
  ghost predicate HoleAt<T>(m: map<Node<T>, Link<T>>, root: Node?<T>, up: Path<T>, ns: seq<Node<T>>, k: nat) {
    && PathApart(up) && PathLinked(m, up, root, null)
    && k <= |ns| && HoleLeft(up) == ns[..k] && HoleRight(up) == ns[k..]
    && PathElems(up) == Members(ns)
  }

  /** On the way down from the root: `sub` is left to search. */
  ghost predicate Way<T>(m: map<Node<T>, Link<T>>, root: Node?<T>, whole: set<Node<T>>,
                         up: Path<T>, sub: Tree<T>, ns: seq<Node<T>>)
  {
    && PathApart(up) && Apart(sub) && PathElems(up) !! Elems(sub)
    && PathElems(up) + Elems(sub) == whole
    && PathLinked(m, up, root, Root(sub)) && Linked(m, sub, Above(up))
    && ns == HoleLeft(up) + InOrder(sub) + HoleRight(up)
  }

  /** The node after the hole. */
  ghost function Next<T>(up: Path<T>): Node?<T> {
    if HoleRight(up) == [] then null else HoleRight(up)[0]
  }

  lemma WayStarts<T>(m: map<Node<T>, Link<T>>, root: Node?<T>, tree: Tree<T>, ns: seq<Node<T>>)
    requires Indexes(m, root, tree, ns)
    ensures Way(m, root, Elems(tree), Top, tree, ns) && root == Root(tree) && Next<T>(Top) == null
    ensures HoleLeft<T>(Top) == [] && HoleRight<T>(Top) == []
  {
    assert InOrder(tree) == [] + InOrder(tree) + [];
  }

  /** The sequence around the hole when the search turns. */
  lemma TurnOrder<T>(up: Path<T>, l: Tree<T>, x: Node<T>, r: Tree<T>, ns: seq<Node<T>>)
    requires ns == HoleLeft(up) + InOrder(Branch(l, x, r)) + HoleRight(up)
    ensures ns == HoleLeft(up) + InOrder(l) + HoleRight(InLeft(up, x, r))
    ensures ns == HoleLeft(InRight(up, l, x)) + InOrder(r) + HoleRight(up)
    ensures
      var i := |HoleLeft(up)| + |InOrder(l)|;
      && i < |ns| - |HoleRight(up)| && ns[i] == x
      && i == |ns| - |HoleRight(InLeft(up, x, r))| && i == |HoleLeft(InRight(up, l, x))| - 1
  {
    Regroup(HoleLeft(up), InOrder(l), x, InOrder(r), HoleRight(up));
  }

  lemma Regroup<T>(p: seq<T>, a: seq<T>, x: T, b: seq<T>, q: seq<T>)
    ensures p + (a + [x] + b) + q == p + a + ([x] + b + q)
    ensures p + (a + [x] + b) + q == (p + a + [x]) + b + q
    ensures (p + (a + [x] + b) + q)[|p| + |a|] == x
  {}

  /** A step to the left: the right subtree and the node itself are left behind. */
  lemma WayLeft<T>(m: map<Node<T>, Link<T>>, root: Node?<T>, whole: set<Node<T>>, up: Path<T>, sub: Tree<T>, ns: seq<Node<T>>)
    requires Way(m, root, whole, up, sub, ns) && sub.Branch?
    ensures Way(m, root, whole, InLeft(up, sub.node, sub.right), sub.left, ns)
    ensures sub.node in m && m[sub.node].left == Root(sub.left)
    ensures Next(InLeft(up, sub.node, sub.right)) == sub.node
    ensures HoleLeft(InLeft(up, sub.node, sub.right)) == HoleLeft(up)
    ensures
      var i := |ns| - |HoleRight(InLeft(up, sub.node, sub.right))|;
      |HoleLeft(up)| <= i < |ns| - |HoleRight(up)| && ns[i] == sub.node
  {
    TurnOrder(up, sub.left, sub.node, sub.right, ns);
    hide InOrder;
  }

  lemma WayRight<T>(m: map<Node<T>, Link<T>>, root: Node?<T>, whole: set<Node<T>>, up: Path<T>, sub: Tree<T>, ns: seq<Node<T>>)
    requires Way(m, root, whole, up, sub, ns) && sub.Branch?
    ensures Way(m, root, whole, InRight(up, sub.left, sub.node), sub.right, ns)
    ensures sub.node in m && m[sub.node].right == Root(sub.right)
    ensures Next(InRight(up, sub.left, sub.node)) == Next(up)
    ensures HoleRight(InRight(up, sub.left, sub.node)) == HoleRight(up)
    ensures
      var i := |HoleLeft(InRight(up, sub.left, sub.node))| - 1;
      |HoleLeft(up)| <= i < |ns| - |HoleRight(up)| && ns[i] == sub.node
  {
    TurnOrder(up, sub.left, sub.node, sub.right, ns);
    assert HoleRight(InRight(up, sub.left, sub.node)) == HoleRight(up);
    hide InOrder, HoleLeft, HoleRight;
  }

  lemma EndOrder<T>(up: Path<T>, ns: seq<Node<T>>)
    requires ns == HoleLeft(up) + [] + HoleRight(up)
    ensures |HoleLeft(up)| + |HoleRight(up)| == |ns|
    ensures
      var k := |HoleLeft(up)|;
      && HoleLeft(up) == ns[..k] && HoleRight(up) == ns[k..]
      && Next(up) == (if k < |ns| then ns[k] else null)
      && (up.InLeft? ==> k < |ns| && up.node == ns[k])
      && (up.InRight? ==> k > 0 && up.node == ns[k - 1])
  {}

  lemma WayEnds<T>(m: map<Node<T>, Link<T>>, root: Node?<T>, tree: Tree<T>, up: Path<T>, ns: seq<Node<T>>)
    requires Way(m, root, Elems(tree), up, Leaf, ns) && Indexes(m, root, tree, ns)
    ensures |HoleLeft(up)| + |HoleRight(up)| == |ns| && HoleAt(m, root, up, ns, |HoleLeft(up)|)
    ensures
      var k := |HoleLeft(up)|;
      && Next(up) == (if k < |ns| then ns[k] else null)
      && (up.InLeft? ==> k < |ns| && up.node == ns[k])
      && (up.InRight? ==> k > 0 && up.node == ns[k - 1])
  {
    ElemsInOrder(tree);
    EndOrder(up, ns);
    hide HoleLeft, HoleRight, Next, InOrder;
  }

  lemma LeafSpot<T>(m: map<Node<T>, Link<T>>, root: Node?<T>, up: Path<T>, ns: seq<Node<T>>, k: nat, x: Node<T>)
    requires HoleAt(m, root, up, ns, k)
    ensures Spot(up, Leaf, x, Leaf).All() == Members(ns) + {x}
    ensures InOrder(Spot(up, Leaf, x, Leaf).Whole()) == Insert(ns, k, x)
  {
    AroundTheHole(up, Branch(Leaf, x, Leaf));
    assert InOrder(Branch(Leaf, x, Leaf)) == [x] && Elems(Branch(Leaf, x, Leaf)) == {x};
  }

  lemma TopIndexes<T>(m: map<Node<T>, Link<T>>, s: Spot<T>, root: Node?<T>, ns: seq<Node<T>>)
    requires s.up == Top && s.Holds(m, root) && s.All() == Members(ns) && InOrder(s.Whole()) == ns
    ensures Indexes(m, root, s.Whole(), ns) && root == s.x
  {
    TopIsWhole(m, s, root);
  }

  // ------------------------------------------------------------ the operations

  /** The six writes of a rotation that lifts `x` above its parent. */
  method Rewire<T>(x: Node<T>, root: Node?<T>, ghost s: Spot<T>) returns (root': Node?<T>)
    requires s.x == x && s.up != Top && Neighbours(Snap(s.All()), s)
    modifies s.All()`left, s.All()`right, s.All()`parent
    ensures Rotated(old(Snap(s.All())), Snap(s.All()), s)
    ensures root' == if s.up.up.Top? then x else root
  {
    var p := x.parent;
    var g := p.parent;
    if p.left == x {
      var mid := x.right;
      p.left := mid;
      if mid != null { mid.parent := p; }
      x.right := p;
    } else {
      var mid := x.left;
      p.right := mid;
      if mid != null { mid.parent := p; }
      x.left := p;
    }
    p.parent := x;
    x.parent := g;
    if g == null {
      root' := x;
    } else {
      root' := root;
      if g.left == p { g.left := x; } else { g.right := x; }
    }
  }

  /** Lift `x` above its parent. */
  method RotateUp<T>(x: Node<T>, root: Node?<T>, ghost s: Spot<T>) returns (root': Node?<T>)
    requires s.x == x && s.up != Top && s.Holds(Snap(s.All()), root)
    modifies s.All()`left, s.All()`right, s.All()`parent
    ensures s.Lifted().Holds(Snap(s.Lifted().All()), root')
    ensures InOrder(s.Lifted().Whole()) == InOrder(s.Whole())
    ensures s.Lifted().All() == s.All() && Depth(s.Lifted().up) == Depth(s.up) - 1
  {
    HoldsNeighbours(Snap(s.All()), s, root);
    root' := Rewire(x, root, s);
    LiftedHolds(old(Snap(s.All())), Snap(s.All()), s, root);
    LiftedKeeps(s);
  }

  /** The spot of the parent, and back to a child of a spot. */
  ghost function ParentSpot<T>(s: Spot<T>): Spot<T>
    requires s.up != Top
  {
    match s.up
    case InLeft(v, p, c) => Spot(v, s.Sub(), p, c)
    case InRight(v, c, p) => Spot(v, c, p, s.Sub())
  }

  ghost function ChildSpot<T>(s: Spot<T>, left: bool): Spot<T>
    requires if left then s.a.Branch? else s.b.Branch?
  {
    if left then Spot(InLeft(s.up, s.x, s.b), s.a.left, s.a.node, s.a.right)
    else Spot(InRight(s.up, s.a, s.x), s.b.left, s.b.node, s.b.right)
  }

  lemma ParentHolds<T>(m: map<Node<T>, Link<T>>, s: Spot<T>, root: Node?<T>)
    requires s.up != Top && s.Holds(m, root)
    ensures ParentSpot(s).Holds(m, root)
    ensures ParentSpot(s).All() == s.All() && ParentSpot(s).Whole() == s.Whole()
    ensures Depth(ParentSpot(s).up) == Depth(s.up) - 1
  {}

  lemma ChildHolds<T>(m: map<Node<T>, Link<T>>, s: Spot<T>, root: Node?<T>, left: bool)
    requires s.Holds(m, root) && if left then s.a.Branch? else s.b.Branch?
    ensures ChildSpot(s, left).Holds(m, root)
    ensures ChildSpot(s, left).All() == s.All() && ChildSpot(s, left).Whole() == s.Whole()
    ensures Depth(ChildSpot(s, left).up) == Depth(s.up) + 1
  {}

  /** Splay `x` to the root: zig-zig rotates the parent first, zig-zag `x` twice.  The
      in-order sequence stays. */
  method SplayTop<T>(x: Node<T>, root: Node?<T>, ghost s: Spot<T>) returns (root': Node?<T>, ghost s': Spot<T>)
    requires s.x == x && s.Holds(Snap(s.All()), root)
    modifies s.All()`left, s.All()`right, s.All()`parent
    ensures s'.x == x && s'.up == Top && root' == x
    ensures s'.All() == s.All() && s'.Holds(Snap(s.All()), x)
    ensures InOrder(s'.Whole()) == InOrder(s.Whole())
  {
    root', s' := root, s;
    while x.parent != null
      invariant s'.x == x && s'.All() == s.All() && s'.Holds(Snap(s'.All()), root')
      invariant InOrder(s'.Whole()) == InOrder(s.Whole())
      decreases Depth(s'.up)
    {
      var p := x.parent;
      var g := p.parent;
      HoldsNeighbours(Snap(s'.All()), s', root');
      if g != null {
        ghost var q := ParentSpot(s');
        ParentHolds(Snap(s'.All()), s', root');
        HoldsNeighbours(Snap(s'.All()), q, root');
        if (g.left == p) == (p.left == x) {
          root' := RotateUp(p, root', q);
          ghost var left := s'.up.InLeft?;
          ChildHolds(Snap(s'.All()), q.Lifted(), root', left);
          s' := ChildSpot(q.Lifted(), left);
        } else {
          root' := RotateUp(x, root', s');
          s' := s'.Lifted();
        }
      }
      root' := RotateUp(x, root', s');
      s' := s'.Lifted();
    }
  }

  /** Hang the fresh leaf `x` in the hole below `par` (`fjx_splay_node_link`). */
  method LinkLeaf<T>(x: Node<T>, par: Node?<T>, left: bool, root: Node?<T>, ghost up: Path<T>) returns (root': Node?<T>)
    requires PathApart(up) && PathLinked(Snap(PathElems(up)), up, root, null)
    requires par == Above(up) && (par != null ==> left == up.InLeft?) && x !in PathElems(up)
    modifies x`left, x`right, x`parent, PathElems(up)`left, PathElems(up)`right
    ensures Spot(up, Leaf, x, Leaf).Holds(Snap(PathElems(up) + {x}), root')
  {
    ghost var m := Snap(PathElems(up));
    x.parent, x.left, x.right := par, null, null;
    root' := root;
    if par == null {
      root' := x;
    } else if left {
      par.left := x;
    } else {
      par.right := x;
    }
    Replugged(m, Snap(PathElems(up) + {x}), up, root, null, x);
  }
}
