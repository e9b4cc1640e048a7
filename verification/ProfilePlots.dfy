/** Laying out a profile as nested intervals. */
module ProfilePlots {
  import opened Profiles

  /** The lists that are filled for the plot, entry by entry. */
  datatype Box = Box(start: real, stop: real, height: nat, state: Tree)

  // ---- Counts of children ----------------------------------------------------

  ghost function ChildSum(cs: map<Ident, Tree>, ks: set<Ident>): nat
    requires ks <= cs.Keys
  {
    if ks == {} then 0 else var k :| k in ks; cs[k].count + ChildSum(cs, ks - {k})
  }

  lemma {:induction false} ChildSumAny(cs: map<Ident, Tree>, ks: set<Ident>, k: Ident)
    requires ks <= cs.Keys && k in ks
    ensures ChildSum(cs, ks) == cs[k].count + ChildSum(cs, ks - {k})
    decreases |ks|
  {
    var k' :| k' in ks && ChildSum(cs, ks) == cs[k'].count + ChildSum(cs, ks - {k'});
    if k' != k {
      ChildSumAny(cs, ks - {k'}, k);
      ChildSumAny(cs, ks - {k}, k');
      assert ks - {k'} - {k} == ks - {k} - {k'};
    }
  }

  /** No node's children were counted more often than the node, at any depth. */
  ghost predicate Fits(t: Tree) {
    ChildSum(t.children, t.children.Keys) <= t.count && forall k :: k in t.children ==> Fits(t.children[k])
  }

  function Starting(stacks: seq<Stack>, ks: set<Ident>): nat {
    if stacks == [] then 0
    else
      var last := stacks[|stacks| - 1];
      Starting(stacks[..|stacks| - 1], ks) + if last != [] && last[0].ident in ks then 1 else 0
  }

  lemma {:induction false} StartingSplit(stacks: seq<Stack>, ks: set<Ident>, k: Ident)
    requires k in ks
    ensures Starting(stacks, ks) == |Tails(stacks, k)| + Starting(stacks, ks - {k})
    ensures Starting(stacks, ks) <= |stacks|
  {
    if stacks != [] { StartingSplit(stacks[..|stacks| - 1], ks, k); }
  }

  lemma {:induction false} ChildSumIsStarting(ident: Ident, info: Info, stacks: seq<Stack>, ks: set<Ident>)
    requires ks <= Heads(stacks)
    ensures Shape(ident, info, stacks).children.Keys == Heads(stacks)
    ensures ChildSum(Shape(ident, info, stacks).children, ks) == Starting(stacks, ks) <= |stacks|
    decreases |ks|
  {
    hide Shape, FirstInfo, Tails, Heads;
    ShapeParts(ident, info, stacks);
    if ks == {} {
      NoneStarting(stacks);
    } else {
      var k :| k in ks;
      ShapeParts(k, FirstInfo(stacks, k), Tails(stacks, k));
      ChildSumAny(Shape(ident, info, stacks).children, ks, k);
      ChildSumIsStarting(ident, info, stacks, ks - {k});
      StartingSplit(stacks, ks, k);
    }
  }

  lemma {:induction false} NoneStarting(stacks: seq<Stack>)
    ensures Starting(stacks, {}) == 0
  {
    if stacks != [] { NoneStarting(stacks[..|stacks| - 1]); }
  }

  /** In a profile, children never count more than their parent. */
  lemma {:induction false} ShapeFits(ident: Ident, info: Info, stacks: seq<Stack>)
    ensures Fits(Shape(ident, info, stacks))
    decreases Frames(stacks)
  {
    hide Shape, FirstInfo, Tails, Heads;
    var t := Shape(ident, info, stacks);
    ShapeParts(ident, info, stacks);
    ChildSumIsStarting(ident, info, stacks, Heads(stacks));
    forall k | k in t.children ensures Fits(t.children[k]) {
      TailsShrink(stacks, k);
      ShapeFits(k, FirstInfo(stacks, k), Tails(stacks, k));
    }
  }

  // ---- Boxes -----------------------------------------------------------------

  ghost predicate InBand(bs: seq<Box>, lo: real, hi: real, h: nat) {
    forall b :: b in bs ==> lo <= b.start <= b.stop <= hi && b.height >= h
  }

  predicate Apart(a: Box, b: Box) { a.height != b.height || a.stop <= b.start || b.stop <= a.start }

  ghost predicate AllApart(bs: seq<Box>) {
    forall i, j :: 0 <= i < j < |bs| ==> Apart(bs[i], bs[j])
  }

  predicate Within(b: Box, a: Box) { a.start <= b.start && b.stop <= a.stop && b.height == a.height + 1 }

  predicate IsChild(c: Tree, t: Tree) { exists k :: k in t.children && t.children[k] == c }

  /** Each box but the first lies one level above, and within, the box of its parent. */
  ghost predicate Nested(bs: seq<Box>) {
    forall j :: 0 < j < |bs| ==> HasParent(bs, bs[j])
  }

  ghost predicate HasParent(bs: seq<Box>, b: Box) {
    exists i :: 0 <= i < |bs| && Within(b, bs[i]) && IsChild(b.state, bs[i].state)
  }

  /** Every counted child of a node that has a box has a box too. */
  ghost predicate Complete(bs: seq<Box>) {
    forall i, k :: 0 <= i < |bs| && k in bs[i].state.children && bs[i].state.children[k].count > 0 ==>
      Shown(bs, bs[i], bs[i].state.children[k])
  }

  ghost predicate Shown(bs: seq<Box>, parent: Box, c: Tree) {
    exists j :: 0 <= j < |bs| && bs[j].state == c && Within(bs[j], parent)
  }

  ghost predicate ToScale(bs: seq<Box>, unit: real) {
    forall b :: b in bs ==> b.stop - b.start == b.state.count as real * unit
  }

  /** The layout of t between lo and hi, one count being `unit` wide. */
  ghost predicate Layout(bs: seq<Box>, t: Tree, lo: real, hi: real, h: nat, unit: real) {
    if t.count == 0 then bs == []
    else
      && bs != [] && bs[0] == Box(lo, hi, h, t)
      && InBand(bs, lo, hi, h) && AllApart(bs) && Nested(bs) && Complete(bs) && ToScale(bs, unit)
  }

  /** The boxes of t itself and of its children in `done`, which reach up to x. */
  ghost predicate Partly(bs: seq<Box>, t: Tree, lo: real, hi: real, h: nat, unit: real, done: set<Ident>, x: real) {
    && bs != [] && bs[0] == Box(lo, hi, h, t)
    && InBand(bs[1..], lo, x, h + 1) && AllApart(bs) && Nested(bs) && ToScale(bs, unit)
    && (forall i, k :: 0 < i < |bs| && k in bs[i].state.children && bs[i].state.children[k].count > 0 ==>
          Shown(bs, bs[i], bs[i].state.children[k]))
    && (forall k :: k in done && k in t.children && t.children[k].count > 0 ==> Shown(bs, bs[0], t.children[k]))
  }

  lemma ShownMore(bs: seq<Box>, more: seq<Box>, parent: Box, c: Tree)
    requires Shown(bs, parent, c) || Shown(more, parent, c)
    ensures Shown(bs + more, parent, c)
  {
    if Shown(bs, parent, c) {
      var j :| 0 <= j < |bs| && bs[j].state == c && Within(bs[j], parent);
      assert (bs + more)[j] == bs[j];
    } else {
      var j :| 0 <= j < |more| && more[j].state == c && Within(more[j], parent);
      assert (bs + more)[|bs| + j] == more[j];
    }
  }

  lemma ApartMore(bs: seq<Box>, more: seq<Box>, lo: real, hi: real, h: nat, x: real, y: real, t: Tree)
    requires bs != [] && bs[0] == Box(lo, hi, h, t) && InBand(bs[1..], lo, x, h + 1) && InBand(more, x, y, h + 1)
    requires AllApart(bs) && AllApart(more)
    ensures AllApart(bs + more)
  {
    var all := bs + more;
    forall i, j | 0 <= i < j < |all| ensures Apart(all[i], all[j]) {
      if i < |bs| <= j {
        assert all[j] == more[j - |bs|] && more[j - |bs|] in more;
        if i > 0 { assert bs[1..][i - 1] in bs[1..]; }
      } else if |bs| <= i {
        assert all[i] == more[i - |bs|] && all[j] == more[j - |bs|];
      }
    }
  }

  lemma NestedMore(bs: seq<Box>, more: seq<Box>)
    requires Nested(bs) && Nested(more)
    requires more != [] && bs != [] ==> Within(more[0], bs[0]) && IsChild(more[0].state, bs[0].state)
    requires bs != []
    ensures Nested(bs + more)
  {
    var all := bs + more;
    forall j | 0 < j < |all| ensures HasParent(all, all[j]) {
      if j < |bs| {
        ParentKept(bs, more, bs[j]);
      } else if j == |bs| {
        assert all[j] == more[0] && all[0] == bs[0];
      } else {
        ParentKept(bs, more, more[j - |bs|]);
      }
    }
  }

  lemma ParentKept(bs: seq<Box>, more: seq<Box>, b: Box)
    requires HasParent(bs, b) || HasParent(more, b)
    ensures HasParent(bs + more, b)
  {
    if HasParent(bs, b) {
      var i :| 0 <= i < |bs| && Within(b, bs[i]) && IsChild(b.state, bs[i].state);
      assert (bs + more)[i] == bs[i];
    } else {
      var i :| 0 <= i < |more| && Within(b, more[i]) && IsChild(b.state, more[i].state);
      assert (bs + more)[|bs| + i] == more[i];
    }
  }

  lemma PartlyMore(bs: seq<Box>, more: seq<Box>, t: Tree, lo: real, hi: real, h: nat, unit: real, done: set<Ident>, x: real, k: Ident, y: real)
    requires Partly(bs, t, lo, hi, h, unit, done, x) && k in t.children && lo <= x <= y <= hi
    requires Layout(more, t.children[k], x, y, h + 1, unit)
    ensures Partly(bs + more, t, lo, hi, h, unit, done + {k}, y)
  {
    var all, c := bs + more, t.children[k];
    assert all[1..] == bs[1..] + more;
    assert InBand(more, x, y, h + 1);
    ApartMore(bs, more, lo, hi, h, x, y, t);
    if more != [] { assert IsChild(c, t); }
    NestedMore(bs, more);
    forall i, k' | 0 < i < |all| && k' in all[i].state.children && all[i].state.children[k'].count > 0
      ensures Shown(all, all[i], all[i].state.children[k'])
    {
      if i < |bs| {
        ShownMore(bs, more, bs[i], bs[i].state.children[k']);
      } else {
        assert all[i] == more[i - |bs|];
        ShownMore(bs, more, more[i - |bs|], more[i - |bs|].state.children[k']);
      }
    }
    forall k' | k' in done + {k} && k' in t.children && t.children[k'].count > 0 ensures Shown(all, bs[0], t.children[k']) {
      if k' == k {
        assert more[0].state == c && Within(more[0], bs[0]);
        assert Shown(more, bs[0], c);
      }
      ShownMore(bs, more, bs[0], t.children[k']);
    }
  }

  lemma PartlyDone(bs: seq<Box>, t: Tree, lo: real, hi: real, h: nat, unit: real, x: real)
    requires Partly(bs, t, lo, hi, h, unit, t.children.Keys, x) && lo <= x <= hi && t.count > 0
    ensures Layout(bs, t, lo, hi, h, unit)
  {
    assert bs == [bs[0]] + bs[1..];
  }

  /** n counts to the right of `start`. */
  function At(start: real, n: nat, unit: real): real { start + n as real * unit }

  lemma Unit(start: real, stop: real, count: nat, unit: real)
    requires count > 0 && stop == At(start, count, unit)
    ensures (stop - start) / count as real == unit
  {
  }

  lemma Further(start: real, a: nat, b: nat, unit: real)
    requires a <= b && unit >= 0.0
    ensures At(start, a, unit) <= At(start, b, unit) && At(start, 0, unit) == start
    ensures At(At(start, a, unit), b - a, unit) == At(start, b, unit)
  {
    assert (b - a) as real * unit >= 0.0;
    assert b as real * unit == a as real * unit + (b - a) as real * unit;
  }

  /** One child's width further to the right, and still within the parent. */
  lemma Advance(start: real, stop: real, count: nat, unit: real, laid: nat, child: nat, x: real)
    requires unit >= 0.0 && stop == At(start, count, unit) && laid + child <= count && x == At(start, laid, unit)
    ensures x + child as real * unit == At(x, child, unit) == At(start, laid + child, unit)
    ensures start <= x <= At(x, child, unit) <= stop
  {
    Further(start, 0, laid, unit);
    Further(start, laid, laid + child, unit);
    Further(start, laid + child, count, unit);
  }

  class Plot {
    var boxes: seq<Box>

    constructor ()
      ensures boxes == []
    {
      boxes := [];
    }

    /** traverse: a box for the node, then its children from left to right. */
    method Traverse(t: Tree, start: real, stop: real, height: nat, ghost unit: real)
      requires Fits(t) && unit >= 0.0 && stop == At(start, t.count, unit)
      modifies this
      ensures old(boxes) <= boxes && Layout(boxes[|old(boxes)|..], t, start, stop, height, unit)
      decreases t
    {
      hide Layout, Partly, Fits, ChildSum, At;
      if t.count == 0 {
        NoBoxes(t, start, stop, height, unit);
        assert boxes[|boxes|..] == [];
        return;
      }
      ghost var before := boxes;
      boxes := boxes + [Box(start, stop, height, t)];
      Unit(start, stop, t.count, unit);
      var delta := (stop - start) / t.count as real;
      var x := start;
      var todo := t.children.Keys;
      ghost var laid: nat := 0;
      ChildrenFit(t);
      Further(start, 0, t.count, unit);
      FirstBox(t, start, stop, height, unit);
      assert boxes[|before|..] == [Box(start, stop, height, t)];
      while todo != {}
        invariant todo <= t.children.Keys && before <= boxes
        invariant laid + ChildSum(t.children, todo) <= t.count && x == At(start, laid, unit) && start <= x <= stop
        invariant Partly(boxes[|before|..], t, start, stop, height, unit, t.children.Keys - todo, x)
      {
        var k :| k in todo;
        var c := t.children[k];
        ghost var had := boxes;
        ChildSumAny(t.children, todo, k);
        Advance(start, stop, t.count, unit, laid, c.count, x);
        var width := c.count as real * delta;
        assert x + width == At(x, c.count, unit);
        Traverse(c, x, x + width, height + 1, unit);
        assert boxes[|before|..] == had[|before|..] + boxes[|had|..];
        PartlyMore(had[|before|..], boxes[|had|..], t, start, stop, height, unit, t.children.Keys - todo, x, k, x + width);
        assert t.children.Keys - (todo - {k}) == t.children.Keys - todo + {k};
        x := x + width;
        laid := laid + c.count;
        todo := todo - {k};
      }
      assert t.children.Keys - todo == t.children.Keys;
      PartlyDone(boxes[|before|..], t, start, stop, height, unit, x);
    }

    /** The whole profile between 0 and 1. */
    method PlotData(stacks: seq<Stack>, state: Tree)
      requires state == Profile(stacks) && boxes == []
      modifies this
      ensures Layout(boxes, state, 0.0, 1.0, 0, if state.count == 0 then 0.0 else 1.0 / state.count as real)
    {
      ProfileIsShape(stacks);
      ShapeFits(ROOT, NO_INFO, stacks);
      if state.count > 0 {
        Traverse(state, 0.0, 1.0, 0, 1.0 / state.count as real);
      }
      assert boxes[0..] == boxes;
    }
  }

  lemma ChildrenFit(t: Tree)
    requires Fits(t)
    ensures ChildSum(t.children, t.children.Keys) <= t.count
    ensures forall k :: k in t.children ==> Fits(t.children[k])
  {
  }

  lemma NoBoxes(t: Tree, lo: real, hi: real, h: nat, unit: real)
    requires t.count == 0
    ensures Layout([], t, lo, hi, h, unit)
  {
  }

  lemma FirstBox(t: Tree, lo: real, hi: real, h: nat, unit: real)
    requires hi == At(lo, t.count, unit) && lo <= hi
    ensures Partly([Box(lo, hi, h, t)], t, lo, hi, h, unit, t.children.Keys - t.children.Keys, lo)
  {
  }
}
