/** Profiles as nested mutable nodes, and counting a sampled stack into one in place. */
module ProfileNodes {
  import opened Profiles

  class Node {
    var count: nat
    var children: map<Ident, Node>
    const ident: Ident
    const info: Info

    constructor (ident: Ident, info: Info)
      ensures this.ident == ident && this.info == info && count == 0 && children == map[]
    {
      this.ident := ident;
      this.info := info;
      count := 0;
      children := map[];
    }
  }

  /** The nodes of a tree, child by child. */
  datatype Footprint = Footprint(all: set<object>, kids: map<Ident, Footprint>)

  /** n stands for t, and the nodes below n are apart from each other. */
  ghost predicate Owns(n: Node, t: Tree, f: Footprint)
    reads f.all
    decreases t
  {
    && n in f.all && n.count == t.count && n.ident == t.ident && n.info == t.info && n.children.Keys == t.children.Keys
    && (forall k :: k in t.children ==> k in f.kids && f.kids[k].all <= f.all - {n})
    && (forall k, k' :: k in t.children && k' in t.children && k != k' ==> f.kids[k].all !! f.kids[k'].all)
    && forall k :: k in t.children ==> Owns(n.children[k], t.children[k], f.kids[k])
  }

  /** What Owns says about the children, for the children in `ks`. */
  ghost predicate KidsOwn(n: Node, t: Tree, f: Footprint, ks: set<Ident>)
    requires ks <= t.children.Keys
    reads f.all, n
  {
    && ks <= n.children.Keys
    && (forall k :: k in ks ==> k in f.kids && f.kids[k].all <= f.all - {n})
    && (forall k, k' :: k in ks && k' in ks && k != k' ==> f.kids[k].all !! f.kids[k'].all)
    && forall k :: k in ks ==> Owns(n.children[k], t.children[k], f.kids[k])
  }

  ghost predicate HeadOwns(n: Node, t: Tree, f: Footprint)
    reads n
  {
    n in f.all && n.count == t.count && n.ident == t.ident && n.info == t.info && n.children.Keys == t.children.Keys
  }

  lemma OwnsParts(n: Node, t: Tree, f: Footprint)
    ensures Owns(n, t, f) <==> HeadOwns(n, t, f) && KidsOwn(n, t, f, t.children.Keys)
  {
  }

  /** One child stands for a new tree, in a footprint that is apart from the others'. */
  lemma ChildReplaced(n: Node, t: Tree, f: Footprint, k: Ident, c: Tree, g: Footprint)
    requires HeadOwns(n, t.(children := t.children[k := c]), f) && KidsOwn(n, t, f, t.children.Keys - {k})
    requires n !in g.all && Owns(n.children[k], c, g)
    requires forall k' :: k' in t.children && k' != k ==> f.kids[k'].all !! g.all
    ensures Owns(n, t.(children := t.children[k := c]), Footprint(f.all + g.all, f.kids[k := g]))
  {
    var t', f' := t.(children := t.children[k := c]), Footprint(f.all + g.all, f.kids[k := g]);
    hide Owns;
    assert HeadOwns(n, t', f');
    assert KidsOwn(n, t', f', t'.children.Keys);
    OwnsParts(n, t', f');
  }

  method Bump(n: Node, ghost t: Tree, ghost f: Footprint)
    requires HeadOwns(n, t, f) && KidsOwn(n, t, f, t.children.Keys)
    modifies n
    ensures HeadOwns(n, t.(count := t.count + 1), f) && KidsOwn(n, t, f, t.children.Keys)
    ensures n.children == old(n.children)
  {
    n.count := n.count + 1;
  }

  /** The child for the frame, made if it is not there. */
  method FindOrMake(n: Node, frame: Frame, ghost t: Tree, ghost f: Footprint) returns (d: Node, ghost g: Footprint)
    requires HeadOwns(n, t, f) && KidsOwn(n, t, f, t.children.Keys)
    modifies n
    ensures n.count == old(n.count) && n.children.Keys == t.children.Keys + {frame.ident} && d == n.children[frame.ident]
    ensures KidsOwn(n, t, f, t.children.Keys - {frame.ident}) && Owns(d, ChildOf(t, frame), g)
    ensures n !in g.all && (g.all <= f.all || fresh(g.all))
    ensures forall k :: k in t.children && k != frame.ident ==> f.kids[k].all !! g.all
  {
    hide Owns;
    var k := frame.ident;
    if k in n.children {
      d, g := n.children[k], f.kids[k];
    } else {
      d := new Node(k, frame.info);
      n.children := n.children[k := d];
      g := Footprint({d}, map[]);
      NewNode(d, ChildOf(t, frame), g);
    }
  }

  /** Counts every node along the stack, making those that are missing. */
  method AddAlong(n: Node, stack: Stack, ghost t: Tree, ghost f: Footprint) returns (ghost f': Footprint)
    requires Owns(n, t, f)
    modifies f.all
    ensures Owns(n, AddStack(t, stack), f') && fresh(f'.all - f.all) && f.all <= f'.all
    decreases |stack|
  {
    hide Owns, KidsOwn;
    OwnsParts(n, t, f);
    Bump(n, t, f);
    ghost var t1 := t.(count := t.count + 1);
    SameKids(n, t, t1, f);
    f' := f;
    if stack == [] {
      OwnsParts(n, t1, f);
    } else {
      var d;
      ghost var g;
      d, g := FindOrMake(n, stack[0], t1, f);
      ghost var k, c := stack[0].ident, ChildOf(t, stack[0]);
      g := AddBelow(n, d, stack, t1, f, g);
      ChildReplaced(n, t1, f, k, AddStack(c, stack[1..]), g);
      f' := Footprint(f.all + g.all, f.kids[k := g]);
    }
  }

  /** The rest of the stack is counted below the child d of n. */
  method AddBelow(n: Node, d: Node, stack: Stack, ghost t: Tree, ghost f: Footprint, ghost g: Footprint)
    returns (ghost g': Footprint)
    requires stack != [] && KidsOwn(n, t, f, t.children.Keys - {stack[0].ident})
    requires Owns(d, ChildOf(t, stack[0]), g) && n !in g.all && n in f.all
    requires forall k :: k in t.children && k != stack[0].ident ==> k in f.kids && f.kids[k].all !! g.all
    modifies g.all
    ensures KidsOwn(n, t, f, t.children.Keys - {stack[0].ident}) && n.children == old(n.children) && n.count == old(n.count)
    ensures Owns(d, AddStack(ChildOf(t, stack[0]), stack[1..]), g') && fresh(g'.all - g.all) && g.all <= g'.all
    ensures n !in g'.all && forall k :: k in t.children && k != stack[0].ident ==> f.kids[k].all !! g'.all
    decreases |stack|, 0
  {
    hide Owns;
    g' := AddAlong(d, stack[1..], ChildOf(t, stack[0]), g);
  }

  lemma SameKids(n: Node, t: Tree, t': Tree, f: Footprint)
    requires t'.children == t.children && KidsOwn(n, t, f, t.children.Keys)
    ensures KidsOwn(n, t', f, t'.children.Keys)
  {
    hide Owns;
  }

  lemma NewNode(d: Node, c: Tree, g: Footprint)
    requires d.count == c.count == 0 && d.children == map[] && c.children == map[] && d.ident == c.ident && d.info == c.info
    requires d in g.all
    ensures Owns(d, c, g)
  {
  }

  /** process: the frames from the innermost outwards are collected up to the file to stop at,
      and then counted from the outside in.  A stack whose innermost frame is to be omitted
      counts nothing. */
  method Process(stack: Stack, state: Node, ghost t: Tree, ghost f: Footprint) returns (counted: bool, ghost f': Footprint)
    requires stack != [] && Owns(state, t, f)
    modifies f.all
    ensures counted <==> !stack[|stack| - 1].omit
    ensures Owns(state, if counted then AddStack(t, Visible(stack)) else t, f') && fresh(f'.all - f.all)
  {
    var last := |stack| - 1;
    if stack[last].omit {
      return false, f;
    }
    var first := last;
    while first > 0 && !stack[first - 1].stop
      invariant 0 <= first <= last && forall i :: first <= i < last ==> !stack[i].stop
    {
      first := first - 1;
    }
    VisibleIs(stack, first);
    f' := AddAlong(state, stack[first..], t, f);
    counted := true;
  }
}
