/**
 The pool of stack blocks (src/scheduler.c:68-139, 229-233): a balanced search tree keyed by
 address that finds the block a stack pointer is in, and the list of disposed fibers.
 */
module StackPool {
  import opened Circles
  import opened IntrusiveTree

  /** The stack of a fiber: the addresses from `addr` up to, not including, `top`. */
  datatype Block = Block(addr: int, top: int)

  type Mem = Node<Block>

  /** fiber_memory_in_range */
  predicate InRange(b: Block, a: int) {
    b.addr <= a && a < b.top
  }

  predicate Disjoint(b: Block, c: Block) {
    b.top <= c.addr || c.top <= b.addr
  }

  /** Blocks in the order of their addresses, none empty, none overlapping another. */
  ghost predicate Laid(ns: seq<Mem>) {
    && (forall i :: 0 <= i < |ns| ==> ns[i].item.addr < ns[i].item.top)
    && (forall i, j :: 0 <= i < j < |ns| ==> ns[i].item.top <= ns[j].item.addr)
  }

  /** Room as the system allocates it: not empty and apart from all blocks there are. */
  ghost predicate Fits(ns: seq<Mem>, b: Block) {
    b.addr < b.top && forall i :: 0 <= i < |ns| ==> Disjoint(ns[i].item, b)
  }

  // ------------------------------------------------------------ lookup

  /** No block outside the window of a search holds `a`. */
  ghost predicate Outside(ns: seq<Mem>, lo: int, hi: int, a: int) {
    forall i :: 0 <= i < |ns| ==> i < lo || hi <= i ==> !InRange(ns[i].item, a)
  }

  lemma NarrowLeft(ns: seq<Mem>, lo: int, hi: int, i: int, a: int)
    requires Laid(ns) && Outside(ns, lo, hi, a) && 0 <= i < |ns| && !InRange(ns[i].item, a) && a <= ns[i].item.addr
    ensures Outside(ns, lo, i, a)
  {}

  lemma NarrowRight(ns: seq<Mem>, lo: int, hi: int, i: int, a: int)
    requires Laid(ns) && Outside(ns, lo, hi, a) && 0 <= i < |ns| && !InRange(ns[i].item, a) && ns[i].item.addr < a
    ensures Outside(ns, i + 1, hi, a)
  {}

  /** On the way down to the block that `a` is in, if there is one. */
  ghost predicate Seeking(m: map<Mem, Link<Block>>, root: Node?<Block>, whole: set<Mem>,
                          up: Path<Block>, sub: Tree<Block>, ns: seq<Mem>, a: int)
  {
    Way(m, root, whole, up, sub, ns) && Outside(ns, |HoleLeft(up)|, |ns| - |HoleRight(up)|, a)
  }

  lemma SeekStarts(m: map<Mem, Link<Block>>, root: Node?<Block>, tree: Tree<Block>, ns: seq<Mem>, a: int)
    requires Indexes(m, root, tree, ns)
    ensures Seeking(m, root, Elems(tree), Top, tree, ns, a) && root == Root(tree)
  {
    WayStarts(m, root, tree, ns);
  }

  lemma SeekLeft(m: map<Mem, Link<Block>>, root: Node?<Block>, whole: set<Mem>,
                 up: Path<Block>, sub: Tree<Block>, ns: seq<Mem>, a: int)
    requires Seeking(m, root, whole, up, sub, ns, a) && Laid(ns) && sub.Branch?
    requires !InRange(sub.node.item, a) && a <= sub.node.item.addr
    ensures Seeking(m, root, whole, InLeft(up, sub.node, sub.right), sub.left, ns, a)
    ensures sub.node in m && m[sub.node].left == Root(sub.left)
  {
    WayLeft(m, root, whole, up, sub, ns);
    hide Way, HoleLeft, HoleRight, Laid;
    NarrowLeft(ns, |HoleLeft(up)|, |ns| - |HoleRight(up)|, |ns| - |HoleRight(InLeft(up, sub.node, sub.right))|, a);
  }

  lemma SeekRight(m: map<Mem, Link<Block>>, root: Node?<Block>, whole: set<Mem>,
                  up: Path<Block>, sub: Tree<Block>, ns: seq<Mem>, a: int)
    requires Seeking(m, root, whole, up, sub, ns, a) && Laid(ns) && sub.Branch?
    requires !InRange(sub.node.item, a) && sub.node.item.addr < a
    ensures Seeking(m, root, whole, InRight(up, sub.left, sub.node), sub.right, ns, a)
    ensures sub.node in m && m[sub.node].right == Root(sub.right)
  {
    WayRight(m, root, whole, up, sub, ns);
    hide Way, HoleLeft, HoleRight, Laid;
    NarrowRight(ns, |HoleLeft(up)|, |ns| - |HoleRight(up)|, |HoleLeft(InRight(up, sub.left, sub.node))| - 1, a);
  }

  lemma SeekHere(m: map<Mem, Link<Block>>, root: Node?<Block>, whole: set<Mem>,
                 up: Path<Block>, sub: Tree<Block>, ns: seq<Mem>, a: int)
    requires Seeking(m, root, whole, up, sub, ns, a) && sub.Branch?
    ensures sub.node in ns
  {
    WayLeft(m, root, whole, up, sub, ns);
  }

  lemma SeekFails(m: map<Mem, Link<Block>>, root: Node?<Block>, tree: Tree<Block>, up: Path<Block>, ns: seq<Mem>, a: int)
    requires Seeking(m, root, Elems(tree), up, Leaf, ns, a) && Indexes(m, root, tree, ns)
    ensures forall n :: n in ns ==> !InRange(n.item, a)
  {
    WayEnds(m, root, tree, up, ns);
    hide Way, Indexes, HoleAt, HoleLeft, HoleRight;
  }

  /** query_memory, under the read lock: the block that `a` is in, or null if it is in none. */
  method Query(root: Node?<Block>, a: int, ghost tree: Tree<Block>, ghost ns: seq<Mem>) returns (r: Node?<Block>)
    requires Laid(ns) && Indexes(Snap(Members(ns)), root, tree, ns)
    ensures r != null ==> r in ns && InRange(r.item, a)
    ensures r == null ==> forall n :: n in ns ==> !InRange(n.item, a)
  {
    hide Seeking, Indexes, Laid;
    ghost var m, whole := Snap(Members(ns)), Elems(tree);
    ghost var up, sub := Top, tree;
    r := root;
    SeekStarts(m, root, tree, ns, a);
    while r != null
      invariant Seeking(m, root, whole, up, sub, ns, a) && r == Root(sub)
      decreases sub
    {
      SeekHere(m, root, whole, up, sub, ns, a);
      if InRange(r.item, a) {
        return;
      } else if r.item.addr < a {
        SeekRight(m, root, whole, up, sub, ns, a);
        up, sub := InRight(up, sub.left, r), sub.right;
        r := r.right;
      } else {
        SeekLeft(m, root, whole, up, sub, ns, a);
        up, sub := InLeft(up, r, sub.right), sub.left;
        r := r.left;
      }
    }
    SeekFails(m, root, tree, up, ns, a);
  }

  // ------------------------------------------------------------ insertion

  /** The number of blocks below address `a`. */
  ghost function Rank(ns: seq<Mem>, a: int): (k: nat)
    ensures k <= |ns|
  {
    if ns == [] || ns[0].item.addr >= a then 0 else 1 + Rank(ns[1..], a)
  }

  lemma {:induction false} RankSplits(ns: seq<Mem>, a: int)
    requires Laid(ns)
    ensures forall i :: 0 <= i < |ns| ==> (ns[i].item.addr < a <==> i < Rank(ns, a))
  {
    if ns != [] && ns[0].item.addr < a {
      RankSplits(ns[1..], a);
      forall i | 0 <= i < |ns|
        ensures ns[i].item.addr < a <==> i < Rank(ns, a)
      {
        if i > 0 {
          assert ns[i] == ns[1..][i - 1];
        }
      }
    }
  }

  /** A new block that overlaps none goes between those below and those above it. */
  lemma InsertLaid(ns: seq<Mem>, x: Mem)
    requires Laid(ns) && Fits(ns, x.item)
    ensures Laid(Insert(ns, Rank(ns, x.item.addr), x))
  {
    RankSplits(ns, x.item.addr);
    var k := Rank(ns, x.item.addr);
    var r := Insert(ns, k, x);
    hide Rank;
    InsertAt(ns, k, x);
    hide Insert;
    LaidWith(ns, r, k, x);
  }

  lemma LaidWith(ns: seq<Mem>, r: seq<Mem>, k: nat, x: Mem)
    requires Laid(ns) && Fits(ns, x.item) && k <= |ns| && |r| == |ns| + 1
    requires forall i :: 0 <= i < |ns| ==> (ns[i].item.addr < x.item.addr <==> i < k)
    requires r[k] == x && (forall i :: 0 <= i < k ==> r[i] == ns[i]) && (forall i :: k < i <= |ns| ==> r[i] == ns[i - 1])
    ensures Laid(r)
  {
    forall i | 0 <= i < |r|
      ensures r[i].item.addr < r[i].item.top
    {
      assert i != k ==> r[i] == ns[if i < k then i else i - 1];
    }
    forall i, j | 0 <= i < j < |r|
      ensures r[i].item.top <= r[j].item.addr
    {
      var a, b := if i < k then i else i - 1, if j < k then j else j - 1;
      assert (i != k ==> r[i] == ns[a]) && (j != k ==> r[j] == ns[b]);
      if i == k {
        assert Disjoint(ns[b].item, x.item);
      } else if j == k {
        assert Disjoint(ns[a].item, x.item);
      }
    }
  }

  lemma InsertAt(ns: seq<Mem>, k: nat, x: Mem)
    requires k <= |ns|
    ensures
      var r := Insert(ns, k, x);
      && |r| == |ns| + 1 && r[k] == x
      && (forall i :: 0 <= i < k ==> r[i] == ns[i]) && (forall i :: k < i <= |ns| ==> r[i] == ns[i - 1])
  {}

  /** On the way down to the place of a block at `a`. */
  ghost predicate Placing(m: map<Mem, Link<Block>>, root: Node?<Block>, whole: set<Mem>,
                          up: Path<Block>, sub: Tree<Block>, ns: seq<Mem>, a: int)
  {
    Way(m, root, whole, up, sub, ns) && |HoleLeft(up)| <= Rank(ns, a) <= |ns| - |HoleRight(up)|
  }

  lemma PlaceStarts(m: map<Mem, Link<Block>>, root: Node?<Block>, tree: Tree<Block>, ns: seq<Mem>, a: int)
    requires Indexes(m, root, tree, ns)
    ensures Placing(m, root, Elems(tree), Top, tree, ns, a) && root == Root(tree)
  {
    WayStarts(m, root, tree, ns);
  }

  lemma PlaceLeft(m: map<Mem, Link<Block>>, root: Node?<Block>, whole: set<Mem>,
                  up: Path<Block>, sub: Tree<Block>, ns: seq<Mem>, a: int)
    requires Placing(m, root, whole, up, sub, ns, a) && Laid(ns) && sub.Branch? && a <= sub.node.item.addr
    ensures Placing(m, root, whole, InLeft(up, sub.node, sub.right), sub.left, ns, a)
    ensures sub.node in m && m[sub.node].left == Root(sub.left)
  {
    WayLeft(m, root, whole, up, sub, ns);
    RankSplits(ns, a);
    hide Way, HoleLeft, HoleRight, Laid, Rank;
  }

  lemma PlaceRight(m: map<Mem, Link<Block>>, root: Node?<Block>, whole: set<Mem>,
                   up: Path<Block>, sub: Tree<Block>, ns: seq<Mem>, a: int)
    requires Placing(m, root, whole, up, sub, ns, a) && Laid(ns) && sub.Branch? && sub.node.item.addr < a
    ensures Placing(m, root, whole, InRight(up, sub.left, sub.node), sub.right, ns, a)
    ensures sub.node in m && m[sub.node].right == Root(sub.right)
  {
    WayRight(m, root, whole, up, sub, ns);
    RankSplits(ns, a);
    hide Way, HoleLeft, HoleRight, Laid, Rank;
  }

  lemma PlaceFound(m: map<Mem, Link<Block>>, root: Node?<Block>, tree: Tree<Block>, up: Path<Block>, ns: seq<Mem>, a: int)
    requires Placing(m, root, Elems(tree), up, Leaf, ns, a) && Indexes(m, root, tree, ns)
    ensures HoleAt(m, root, up, ns, Rank(ns, a))
  {
    WayEnds(m, root, tree, up, ns);
    hide Way, Indexes, HoleAt, HoleLeft, HoleRight, Rank;
  }

  /** The search for the place of a new block. */
  method FindHole(root: Node?<Block>, a: int, ghost tree: Tree<Block>, ghost ns: seq<Mem>)
    returns (par: Node?<Block>, left: bool, ghost up: Path<Block>)
    requires Laid(ns) && Indexes(Snap(Members(ns)), root, tree, ns)
    ensures HoleAt(Snap(Members(ns)), root, up, ns, Rank(ns, a))
    ensures par == Above(up) && (par != null ==> left == up.InLeft?)
  {
    hide Placing, Indexes, Laid, HoleAt, Rank;
    ghost var m, whole, sub := Snap(Members(ns)), Elems(tree), tree;
    var it := root;
    par, left, up := null, true, Top;
    PlaceStarts(m, root, tree, ns, a);
    while it != null
      invariant Placing(m, root, whole, up, sub, ns, a) && it == Root(sub)
      invariant par == Above(up) && (par != null ==> left == up.InLeft?)
      decreases sub
    {
      par := it;
      if it.item.addr < a {
        PlaceRight(m, root, whole, up, sub, ns, a);
        left := false;
        up, sub := InRight(up, sub.left, it), sub.right;
        it := it.right;
      } else {
        PlaceLeft(m, root, whole, up, sub, ns, a);
        left := true;
        up, sub := InLeft(up, it, sub.right), sub.left;
        it := it.left;
      }
    }
    PlaceFound(m, root, tree, up, ns, a);
  }

  /** A spot that holds, anywhere in the tree, describes the whole tree. */
  lemma {:induction false} HoldsIndexes(m: map<Mem, Link<Block>>, s: Spot<Block>, root: Node?<Block>, ns: seq<Mem>)
    requires s.Holds(m, root) && s.All() == Members(ns) && InOrder(s.Whole()) == ns
    ensures Indexes(m, root, s.Whole(), ns)
    decreases s.up
  {
    if s.up == Top {
      TopIndexes(m, s, root, ns);
    } else {
      ParentHolds(m, s, root);
      HoldsIndexes(m, ParentSpot(s), root, ns);
    }
  }

  /** Whatever rotations rebalancing makes on its way up from the new node (`lifts` says at
      each node whether it is lifted above its parent or left for its parent), the tree holds
      the same blocks in the same order. */
  method Rebalance(x: Mem, root: Node?<Block>, lifts: seq<bool>, ghost s: Spot<Block>, ghost ns: seq<Mem>)
    returns (root': Node?<Block>, ghost tree: Tree<Block>)
    requires s.x == x && s.All() == Members(ns) && s.Holds(Snap(s.All()), root) && InOrder(s.Whole()) == ns
    modifies s.All()`left, s.All()`right, s.All()`parent
    ensures Indexes(Snap(Members(ns)), root', tree, ns)
  {
    root' := root;
    var cur := x;
    ghost var at := s;
    hide Spot.Holds;
    for i := 0 to |lifts|
      invariant at.x == cur && at.All() == Members(ns) && at.Holds(Snap(at.All()), root') && InOrder(at.Whole()) == ns
    {
      AtTop(Snap(at.All()), at, root');
      if cur.parent != null {
        if lifts[i] {
          root' := RotateUp(cur, root', at);
          at := at.Lifted();
        } else {
          ParentHolds(Snap(at.All()), at, root');
          cur := cur.parent;
          at := ParentSpot(at);
        }
      }
    }
    tree := at.Whole();
    HoldsIndexes(Snap(at.All()), at, root', ns);
  }

  lemma AtTop(m: map<Mem, Link<Block>>, s: Spot<Block>, root: Node?<Block>)
    requires s.Holds(m, root)
    ensures s.x in m && m[s.x].parent == Above(s.up) && (s.up == Top <==> Above(s.up) == null)
  {}

  method Hang(x: Mem, par: Node?<Block>, left: bool, root: Node?<Block>, lifts: seq<bool>,
              ghost up: Path<Block>, ghost ns: seq<Mem>, ghost k: nat)
    returns (root': Node?<Block>, ghost tree: Tree<Block>)
    requires HoleAt(Snap(Members(ns)), root, up, ns, k) && x !in ns
    requires par == Above(up) && (par != null ==> left == up.InLeft?)
    modifies ns, x
    ensures Indexes(Snap(Members(Insert(ns, k, x))), root', tree, Insert(ns, k, x))
  {
    ghost var s := Spot(up, Leaf, x, Leaf);
    LeafSpot(Snap(Members(ns)), root, up, ns, k, x);
    InsertMembers(ns, k, x);
    root' := LinkLeaf(x, par, left, root, up);
    assert PathElems(up) + {x} == s.All();
    hide Spot.Holds;
    root', tree := Rebalance(x, root', lifts, s, Insert(ns, k, x));
  }

  /** The tree is the index of the blocks `ns`. */
  ghost predicate Sound(root: Node?<Block>, tree: Tree<Block>, ns: seq<Mem>)
    reads ns
  {
    Laid(ns) && Indexes(Snap(Members(ns)), root, tree, ns)
  }

  /** insert_memory, under the write lock: link the new node in the hole and rebalance. */
  method InsertBlock(x: Mem, root: Node?<Block>, lifts: seq<bool>, ghost was: Tree<Block>, ghost ns: seq<Mem>)
    returns (root': Node?<Block>, ghost tree: Tree<Block>)
    requires Sound(root, was, ns) && Fits(ns, x.item) && x !in ns
    modifies ns, x
    ensures Sound(root', tree, Insert(ns, Rank(ns, x.item.addr), x))
  {
    InsertLaid(ns, x);
    hide Laid, Indexes, HoleAt, Insert, Rank, Fits;
    var par, left;
    ghost var up;
    par, left, up := FindHole(root, x.item.addr, was, ns);
    root', tree := Hang(x, par, left, root, lifts, up, ns, Rank(ns, x.item.addr));
  }

  class Pool {
    var root: Node?<Block>
    /** The saved stack pointers of the disposed fibers. */
    var disposed: seq<int>
    ghost var blocks: seq<Mem>
    ghost var tree: Tree<Block>

    ghost predicate Valid()
      reads this, blocks
    {
      Sound(root, tree, blocks)
    }

    constructor ()
      ensures Valid() && blocks == [] && disposed == []
    {
      root, disposed, blocks, tree := null, [], [], Leaf;
    }

    method InsertMemory(x: Mem, lifts: seq<bool>)
      requires Valid() && Fits(blocks, x.item) && x !in blocks
      modifies this, blocks, x
      ensures Valid() && blocks == Insert(old(blocks), Rank(old(blocks), x.item.addr), x)
      ensures disposed == old(disposed)
    {
      hide Sound, Insert, Rank, Fits;
      ghost var ns := blocks;
      root, tree := InsertBlock(x, root, lifts, tree, ns);
      blocks := Insert(ns, Rank(ns, x.item.addr), x);
    }

    /** recycle_fiber_pair */
    method Recycle(stackTop: int)
      modifies `disposed
      ensures disposed == old(disposed) + [stackTop]
    {
      disposed := disposed + [stackTop];
    }

    /** get_available_memory: the block of the fiber disposed first, or the new block `mem`. */
    method GetAvailable(mem: Mem, lifts: seq<bool>) returns (r: Node?<Block>)
      requires Valid() && Fits(blocks, mem.item) && mem !in blocks
      modifies this, blocks, mem
      ensures Valid()
      ensures old(disposed) == [] ==>
                r == mem && blocks == Insert(old(blocks), Rank(old(blocks), mem.item.addr), mem) && disposed == []
      ensures old(disposed) != [] ==>
                && blocks == old(blocks) && disposed == old(disposed)[1..]
                && (if r != null then r in blocks && InRange(r.item, old(disposed)[0])
                    else forall n :: n in blocks ==> !InRange(n.item, old(disposed)[0]))
    {
      hide Laid, Indexes, Insert, Rank;
      if disposed == [] {
        InsertMemory(mem, lifts);
        r := mem;
      } else {
        var f := disposed[0];
        disposed := disposed[1..];
        r := Query(root, f, tree, blocks);
      }
    }
  }

  lemma InsertMembers(ns: seq<Mem>, k: nat, x: Mem)
    requires k <= |ns|
    ensures Members(Insert(ns, k, x)) == Members(ns) + {x}
  {
    var r := Insert(ns, k, x);
    assert r[k] == x && forall i :: 0 <= i < |ns| ==> ns[i] == r[if i < k then i else i + 1];
  }

  // ------------------------------------------------------------ who has which block

  /** Who holds a block: a live fiber, an entry of the list of disposed fibers, or a thread
      that has popped the entry and is looking the block up. */
  datatype Holder = Live(fiber: nat) | Listed(entry: nat) | Looking(thread: nat)

  /** The blocks; the saved stack pointers of all fibers that ever exited, of which the first
      `popped` have been popped; the block of each live fiber; and what each thread is looking
      up.  History: who holds each block. */
  datatype State = State(blocks: seq<Block>, saved: seq<int>, popped: nat, owner: map<nat, nat>,
                         looking: map<nat, int>, fibers: nat, holder: seq<Holder>)

  function Init(): State {
    State([], [], 0, map[], map[], 0, [])
  }

  /** What query_memory finds: the place of a block that `a` is in. */
  function Lookup(bs: seq<Block>, a: int): (i: int)
    ensures -1 <= i < |bs| && (i >= 0 ==> InRange(bs[i], a))
  {
    if bs == [] then -1
    else
      var i := Lookup(bs[..|bs| - 1], a);
      if i >= 0 then i else if InRange(bs[|bs| - 1], a) then |bs| - 1 else -1
  }

  predicate FitsAll(bs: seq<Block>, b: Block) {
    b.addr < b.top && forall i :: 0 <= i < |bs| ==> Disjoint(bs[i], b)
  }

  function Hold(holder: seq<Holder>, i: int, h: Holder): seq<Holder> {
    if 0 <= i < |holder| then holder[i := h] else holder
  }

  /** Thread `t` spawns a fiber: it creates the block `b`, if the list is empty, or pops an
      entry to look its block up. */
  function Spawn(s: State, t: nat, b: Block): State {
    if t in s.looking then s
    else if s.popped >= |s.saved| then
      if FitsAll(s.blocks, b) then
        s.(blocks := s.blocks + [b], owner := s.owner[s.fibers := |s.blocks|], fibers := s.fibers + 1,
           holder := s.holder + [Live(s.fibers)])
      else s
    else
      var a := s.saved[s.popped];
      s.(popped := s.popped + 1, looking := s.looking[t := a], holder := Hold(s.holder, Lookup(s.blocks, a), Looking(t)))
  }

  /** The lookup, and the new fiber on the block it finds. */
  function Find(s: State, t: nat): State {
    if t !in s.looking || Lookup(s.blocks, s.looking[t]) < 0 then s
    else
      var i := Lookup(s.blocks, s.looking[t]);
      s.(looking := s.looking - {t}, owner := s.owner[s.fibers := i], fibers := s.fibers + 1,
         holder := Hold(s.holder, i, Live(s.fibers)))
  }

  /** Fiber `f` exits with its stack pointer `a`, which is in its block. */
  function Exit(s: State, f: nat, a: int): State {
    if f !in s.owner || s.owner[f] >= |s.blocks| || !InRange(s.blocks[s.owner[f]], a) then s
    else s.(owner := s.owner - {f}, saved := s.saved + [a], holder := Hold(s.holder, s.owner[f], Listed(|s.saved|)))
  }

  datatype Event = Spawn(thread: nat, block: Block) | Find(thread: nat) | Exit(fiber: nat, stackTop: int)

  function Step(s: State, e: Event): State {
    match e
    case Spawn(t, b) => Spawn(s, t, b)
    case Find(t) => Find(s, t)
    case Exit(f, a) => Exit(s, f, a)
  }

  function Run(events: seq<Event>): State {
    if events == [] then Init() else Step(Run(events[..|events| - 1]), events[|events| - 1])
  }

  ghost predicate Apiece(bs: seq<Block>, i: int, j: int) {
    0 <= i < j < |bs| ==> Disjoint(bs[i], bs[j])
  }

  /** `i` is where `a` is looked up, and `h` holds the block there. */
  ghost predicate HeldAt(s: State, a: int, h: Holder) {
    var i := Lookup(s.blocks, a);
    0 <= i < |s.holder| && s.holder[i] == h
  }

  ghost predicate HolderOk(s: State, i: int) {
    0 <= i < |s.holder| && i < |s.blocks| ==>
      match s.holder[i]
      case Live(f) => f in s.owner && s.owner[f] == i
      case Listed(k) => s.popped <= k < |s.saved| && InRange(s.blocks[i], s.saved[k])
      case Looking(t) => t in s.looking && InRange(s.blocks[i], s.looking[t])
  }

  ghost predicate OwnerOk(s: State, f: nat) {
    f in s.owner ==> f < s.fibers && s.owner[f] < |s.holder| && s.holder[s.owner[f]] == Live(f)
  }

  ghost predicate EntryOk(s: State, k: int) {
    s.popped <= k < |s.saved| ==> HeldAt(s, s.saved[k], Listed(k))
  }

  ghost predicate LookerOk(s: State, t: nat) {
    t in s.looking ==> HeldAt(s, s.looking[t], Looking(t))
  }

  ghost predicate Inv(s: State) {
    && |s.holder| == |s.blocks| && s.popped <= |s.saved|
    && (forall i, j :: Apiece(s.blocks, i, j))
    && (forall i :: HolderOk(s, i)) && (forall f :: OwnerOk(s, f))
    && (forall k :: EntryOk(s, k)) && (forall t :: LookerOk(s, t))
  }

  lemma LookupMore(bs: seq<Block>, b: Block, a: int)
    requires Lookup(bs, a) >= 0
    ensures Lookup(bs + [b], a) == Lookup(bs, a)
  {
    assert (bs + [b])[..|bs|] == bs;
  }

  lemma {:induction false} LookupFinds(bs: seq<Block>, i: nat, a: int)
    requires i < |bs| && InRange(bs[i], a) && forall j, k :: Apiece(bs, j, k)
    ensures Lookup(bs, a) == i
  {
    var n := Lookup(bs, a);
    LookupSome(bs, i, a);
    assert Apiece(bs, i, n) && Apiece(bs, n, i);
  }

  lemma {:induction false} LookupSome(bs: seq<Block>, i: nat, a: int)
    requires i < |bs| && InRange(bs[i], a)
    ensures Lookup(bs, a) >= 0
  {
    if i < |bs| - 1 {
      LookupSome(bs[..|bs| - 1], i, a);
    }
  }

  function Created(s: State, b: Block): State {
    s.(blocks := s.blocks + [b], owner := s.owner[s.fibers := |s.blocks|], fibers := s.fibers + 1,
       holder := s.holder + [Live(s.fibers)])
  }

  lemma CreateHolder(s: State, b: Block, i: int)
    requires Inv(s)
    ensures HolderOk(Created(s, b), i) && EntryOk(Created(s, b), i)
  {
    assert HolderOk(s, i) && EntryOk(s, i);
    if 0 <= i < |s.holder| && s.holder[i].Live? {
      assert OwnerOk(s, s.holder[i].fiber);
    }
    hide Inv, Lookup;
    if s.popped <= i < |s.saved| {
      LookupMore(s.blocks, b, s.saved[i]);
    }
  }

  lemma CreateOwner(s: State, b: Block, f: nat)
    requires Inv(s)
    ensures OwnerOk(Created(s, b), f) && LookerOk(Created(s, b), f)
  {
    assert OwnerOk(s, f) && LookerOk(s, f);
    hide Inv, Lookup;
    if f in s.looking {
      LookupMore(s.blocks, b, s.looking[f]);
    }
  }

  lemma CreateInv(s: State, b: Block)
    requires Inv(s) && FitsAll(s.blocks, b)
    ensures Inv(Created(s, b))
  {
    var s' := Created(s, b);
    forall i, j
      ensures Apiece(s'.blocks, i, j)
    {
      assert Apiece(s.blocks, i, j);
    }
    hide HolderOk, EntryOk, OwnerOk, LookerOk;
    forall i
      ensures HolderOk(s', i) && EntryOk(s', i)
    {
      CreateHolder(s, b, i);
    }
    forall f: nat
      ensures OwnerOk(s', f) && LookerOk(s', f)
    {
      CreateOwner(s, b, f);
    }
  }

  /** One block changes hands. */
  lemma PopInv(s: State, t: nat, b: Block)
    requires Inv(s) && t !in s.looking && s.popped < |s.saved|
    ensures Inv(Spawn(s, t, b))
  {
    var s' := Spawn(s, t, b);
    assert EntryOk(s, s.popped);
    forall i
      ensures HolderOk(s', i) && EntryOk(s', i)
    {
      assert HolderOk(s, i) && EntryOk(s, i);
      if 0 <= i < |s.holder| && s.holder[i] == Listed(s.popped) {
        LookupFinds(s.blocks, i, s.saved[s.popped]);
      }
    }
    forall f: nat
      ensures OwnerOk(s', f) && LookerOk(s', f)
    {
      assert OwnerOk(s, f) && LookerOk(s, f);
    }
  }

  lemma FindInv(s: State, t: nat)
    requires Inv(s)
    ensures Inv(Find(s, t))
  {
    var s' := Find(s, t);
    assert LookerOk(s, t) && OwnerOk(s, s.fibers);
    forall i
      ensures HolderOk(s', i) && EntryOk(s', i)
    {
      assert HolderOk(s, i) && EntryOk(s, i);
      if 0 <= i < |s.holder| && s.holder[i].Live? {
        assert OwnerOk(s, s.holder[i].fiber);
      }
      if 0 <= i < |s.holder| && s.holder[i] == Looking(t) {
        LookupFinds(s.blocks, i, s.looking[t]);
      }
    }
    forall f: nat
      ensures OwnerOk(s', f) && LookerOk(s', f)
    {
      assert OwnerOk(s, f) && LookerOk(s, f);
    }
  }

  lemma ExitInv(s: State, f: nat, a: int)
    requires Inv(s)
    ensures Inv(Exit(s, f, a))
  {
    var s' := Exit(s, f, a);
    assert OwnerOk(s, f);
    if f in s.owner && s.owner[f] < |s.blocks| && InRange(s.blocks[s.owner[f]], a) {
      LookupFinds(s.blocks, s.owner[f], a);
    }
    forall i
      ensures HolderOk(s', i) && EntryOk(s', i)
    {
      assert HolderOk(s, i) && EntryOk(s, i);
    }
    forall g: nat
      ensures OwnerOk(s', g) && LookerOk(s', g)
    {
      assert OwnerOk(s, g) && LookerOk(s, g);
    }
  }

  lemma {:induction false} RunInv(events: seq<Event>)
    ensures Inv(Run(events))
  {
    if events != [] {
      var s := Run(events[..|events| - 1]);
      RunInv(events[..|events| - 1]);
      match events[|events| - 1]
      case Spawn(t, b) =>
        if t !in s.looking && s.popped < |s.saved| {
          PopInv(s, t, b);
        } else if t !in s.looking && FitsAll(s.blocks, b) {
          CreateInv(s, b);
        }
      case Find(t) => FindInv(s, t);
      case Exit(f, a) => ExitInv(s, f, a);
    }
  }

  // ------------------------------------------------------------ theorems over every run

  /** No block is ever owned by two live fibers. */
  lemma OneOwner(events: seq<Event>, f: nat, g: nat)
    requires f in Run(events).owner && g in Run(events).owner && Run(events).owner[f] == Run(events).owner[g]
    ensures f == g
  {
    RunInv(events);
    assert OwnerOk(Run(events), f) && OwnerOk(Run(events), g);
  }

  /** A lookup after a pop never fails: it finds a block, which no live fiber owns, and it is
      the only block that the popped stack pointer is in. */
  lemma LookupFindsAFreeBlock(events: seq<Event>, t: nat, f: nat, j: nat)
    requires t in Run(events).looking
    ensures
      var s := Run(events);
      var i := Lookup(s.blocks, s.looking[t]);
      && 0 <= i < |s.blocks|
      && (f in s.owner ==> s.owner[f] != i)
      && (j < |s.blocks| && InRange(s.blocks[j], s.looking[t]) ==> j == i)
  {
    RunInv(events);
    var s := Run(events);
    assert LookerOk(s, t) && OwnerOk(s, f);
    if j < |s.blocks| && InRange(s.blocks[j], s.looking[t]) {
      LookupFinds(s.blocks, j, s.looking[t]);
    }
  }

  lemma LookupStays(s: State, e: Event, a: int)
    requires Lookup(s.blocks, a) >= 0
    ensures Lookup(Step(s, e).blocks, a) == Lookup(s.blocks, a)
  {
    match e
    case Spawn(t, b) => LookupMore(s.blocks, b, a); hide Lookup;
    case _ =>
  }

  /** The saved stack pointer of an exiting fiber leads back to its own block, whatever other
      blocks have been added and reused meanwhile. */
  lemma ExitLeadsBack(events: seq<Event>, f: nat, a: int, later: seq<Event>)
    requires f in Run(events).owner && Run(events).owner[f] < |Run(events).blocks|
    requires InRange(Run(events).blocks[Run(events).owner[f]], a)
    ensures Lookup(Run(events + later).blocks, a) == Run(events).owner[f]
    decreases |later|
  {
    hide Lookup, Step;
    if later == [] {
      assert events + later == events;
      RunInv(events);
      LookupFinds(Run(events).blocks, Run(events).owner[f], a);
    } else {
      var before := later[..|later| - 1];
      ExitLeadsBack(events, f, a, before);
      assert (events + later)[..|events + later| - 1] == events + before;
      LookupStays(Run(events + before), later[|later| - 1], a);
    }
  }

  /** No block is lost: each has exactly one holder, which will give it back or on. */
  lemma EveryBlockIsHeld(events: seq<Event>, i: nat)
    requires i < |Run(events).blocks|
    ensures |Run(events).holder| == |Run(events).blocks| && HolderOk(Run(events), i)
  {
    RunInv(events);
  }

  // ------------------------------------------------------------ what each event achieves

  lemma RunOn(events: seq<Event>, e: Event)
    ensures Run(events + [e]) == Step(Run(events), e)
  {
    assert (events + [e])[..|events|] == events;
  }

  /** An exit takes the fiber from its block and puts its saved stack pointer at the end of the
      list, to whose entry the block now belongs; nobody else's block changes hands. */
  lemma ExitGivesBack(events: seq<Event>, f: nat, a: int)
    requires f in Run(events).owner && Run(events).owner[f] < |Run(events).blocks|
    requires InRange(Run(events).blocks[Run(events).owner[f]], a)
    ensures
      var s, s' := Run(events), Run(events + [Event.Exit(f, a)]);
      && s'.owner == s.owner - {f} && s'.saved == s.saved + [a] && s'.popped == s.popped && s'.blocks == s.blocks
      && |s'.holder| == |s.holder| == |s.blocks| && s'.holder == s.holder[s.owner[f] := Listed(|s.saved|)]
  {
    RunInv(events);
    RunOn(events, Event.Exit(f, a));
  }

  /** Events that are not steps of thread `t`. */
  predicate Others(events: seq<Event>, t: nat) {
    forall i :: 0 <= i < |events| ==>
      !(events[i].Spawn? && events[i].thread == t) && !(events[i].Find? && events[i].thread == t)
  }

  lemma LooksOn(s: State, t: nat, e: Event)
    requires t in s.looking && Others([e], t)
    ensures t in Step(s, e).looking && Step(s, e).looking[t] == s.looking[t]
  {
    assert [e][0] == e;
    hide Lookup, FitsAll, Hold;
  }

  lemma {:induction false} StillLooking(events: seq<Event>, t: nat, others: seq<Event>)
    requires t in Run(events).looking && Others(others, t)
    ensures t in Run(events + others).looking && Run(events + others).looking[t] == Run(events).looking[t]
  {
    if others == [] {
      assert events + others == events;
    } else {
      var m, last := |others| - 1, others[|others| - 1];
      StillLooking(events, t, others[..m]);
      assert events + others == events + others[..m] + [last];
      RunOn(events + others[..m], last);
      hide Run, Step;
      LooksOn(Run(events + others[..m]), t, last);
    }
  }

  /** A spawn with nothing on the list gives its new fiber the new block. */
  lemma SpawnCreates(events: seq<Event>, t: nat, b: Block)
    requires t !in Run(events).looking && Run(events).popped == |Run(events).saved| && FitsAll(Run(events).blocks, b)
    ensures
      var s, s' := Run(events), Run(events + [Event.Spawn(t, b)]);
      && s'.blocks == s.blocks + [b] && s.fibers !in s.owner && s'.owner == s.owner[s.fibers := |s.blocks|]
      && s'.fibers == s.fibers + 1
  {
    RunInv(events);
    RunOn(events, Event.Spawn(t, b));
    assert OwnerOk(Run(events), Run(events).fibers);
  }

  /** A spawn with something on the list creates no block: it takes the oldest entry, and after
      its lookup, whatever the others do between, its new fiber has the block that the entry's
      stack pointer is in, which no live fiber had. */
  lemma SpawnReuses(events: seq<Event>, t: nat, b: Block, others: seq<Event>, g: nat)
    requires t !in Run(events).looking && Run(events).popped < |Run(events).saved| && Others(others, t)
    ensures
      var s, s1 := Run(events), Run(events + [Event.Spawn(t, b)]);
      var s2, s3 := Run(events + [Event.Spawn(t, b)] + others), Run(events + [Event.Spawn(t, b)] + others + [Event.Find(t)]);
      && s1.blocks == s.blocks && s1.owner == s.owner && s1.saved == s.saved && s1.popped == s.popped + 1
      && s3.blocks == s2.blocks && s3.fibers == s2.fibers + 1 && s2.fibers !in s2.owner && s2.fibers in s3.owner
      && s3.owner[s2.fibers] < |s3.blocks| && InRange(s3.blocks[s3.owner[s2.fibers]], s.saved[s.popped])
      && (g in s2.owner ==> s2.owner[g] != s3.owner[s2.fibers] && g in s3.owner && s3.owner[g] == s2.owner[g])
  {
    var begun := events + [Event.Spawn(t, b)];
    RunOn(events, Event.Spawn(t, b));
    StillLooking(begun, t, others);
    RunOn(begun + others, Event.Find(t));
    LookupFindsAFreeBlock(begun + others, t, g, 0);
    RunInv(begun + others);
    assert OwnerOk(Run(begun + others), Run(begun + others).fibers);
    hide Run, Inv, OwnerOk;
  }
}
