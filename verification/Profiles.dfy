/** Call-stack profiles: trees of counts, how sampled stacks are added to them, and how
    profiles are merged. */
module Profiles {
  import opened Lists

  type Ident = string

  /** What is shown for a frame; it includes the current line, so that two samples of one
      function can differ in it. */
  type Info = nat

  /** One frame of a call stack.  `omit` and `stop` say whether its file name ends in one of
      the names to omit, or in the name to stop at. */
  datatype Frame = Frame(ident: Ident, info: Info, omit: bool, stop: bool)

  /** Outermost frame first. */
  type Stack = seq<Frame>

  datatype Tree = Tree(count: nat, children: map<Ident, Tree>, ident: Ident, info: Info)

  const ROOT: Ident := "root"
  const NO_INFO: Info := 0

  function Create(): Tree { Tree(0, map[], ROOT, NO_INFO) }

  /** The frames that are counted: from the innermost outwards, up to a frame whose caller is
      in the file to stop at.  The innermost frame itself is not asked. */
  function Visible(stack: Stack): Stack {
    if stack == [] then [] else stack[FirstVisible(stack, |stack| - 1)..]
  }

  function FirstVisible(stack: Stack, i: nat): (first: nat)
    requires i < |stack|
    ensures first <= i && (forall j :: first <= j < i ==> !stack[j].stop) && (first > 0 ==> stack[first - 1].stop)
  {
    if i == 0 || stack[i - 1].stop then i else FirstVisible(stack, i - 1)
  }

  /** They are the longest end of the stack without a caller in the file to stop at. */
  lemma VisibleIs(stack: Stack, first: nat)
    requires first < |stack| && (forall j :: first <= j < |stack| - 1 ==> !stack[j].stop)
    requires first > 0 ==> stack[first - 1].stop
    ensures Visible(stack) == stack[first..]
  {
    var first' := FirstVisible(stack, |stack| - 1);
    hide FirstVisible;
    assert first' == first;
  }

  // ---- Adding a stack --------------------------------------------------------

  function ChildOf(t: Tree, f: Frame): Tree {
    if f.ident in t.children then t.children[f.ident] else Tree(0, map[], f.ident, f.info)
  }

  /** Every node along the stack is counted once more, and made if it is not there. */
  function AddStack(t: Tree, stack: Stack): Tree
    decreases |stack|
  {
    if stack == [] then t.(count := t.count + 1)
    else t.(count := t.count + 1,
            children := t.children[stack[0].ident := AddStack(ChildOf(t, stack[0]), stack[1..])])
  }

  function AddAll(t: Tree, stacks: seq<Stack>): Tree
    decreases |stacks|
  {
    if stacks == [] then t else AddStack(AddAll(t, stacks[..|stacks| - 1]), stacks[|stacks| - 1])
  }

  /** The profile of a series of samples. */
  function Profile(stacks: seq<Stack>): Tree { AddAll(Create(), stacks) }

  // ---- What a profile is -----------------------------------------------------

  /** The stacks that begin with k, without that first frame, in order. */
  function Tails(stacks: seq<Stack>, k: Ident): seq<Stack> {
    if stacks == [] then []
    else
      var rest, last := Tails(stacks[..|stacks| - 1], k), stacks[|stacks| - 1];
      if last != [] && last[0].ident == k then rest + [last[1..]] else rest
  }

  function Heads(stacks: seq<Stack>): set<Ident> {
    set s: Stack | s in stacks && s != [] :: s[0].ident
  }

  /** What is shown for k is what the first stack that begins with k says. */
  function FirstInfo(stacks: seq<Stack>, k: Ident): Info {
    if stacks == [] then NO_INFO
    else if stacks[0] != [] && stacks[0][0].ident == k then stacks[0][0].info
    else FirstInfo(stacks[1..], k)
  }

  function Frames(stacks: seq<Stack>): nat {
    if stacks == [] then 0 else Frames(stacks[..|stacks| - 1]) + |stacks[|stacks| - 1]|
  }

  lemma {:induction false} TailsShrink(stacks: seq<Stack>, k: Ident)
    ensures Frames(Tails(stacks, k)) + |Tails(stacks, k)| <= Frames(stacks)
    ensures k in Heads(stacks) <==> Tails(stacks, k) != []
    ensures |Tails(stacks, k)| <= |stacks|
  {
    if stacks != [] {
      var front, last := stacks[..|stacks| - 1], stacks[|stacks| - 1];
      TailsShrink(front, k);
      assert stacks == front + [last];
      assert forall s :: s in stacks <==> s in front || s == last;
      if last != [] && last[0].ident == k {
        var rest := Tails(front, k);
        assert Tails(stacks, k)[..|rest|] == rest;
        assert last in stacks;
      } else {
        assert k in Heads(stacks) ==> exists s: Stack :: s in front && s != [] && s[0].ident == k;
      }
    }
  }

  /** The tree of a series of stacks, said directly: a node counts the stacks that run through
      it, and has a child for every frame that comes next in one of them. */
  function Shape(ident: Ident, info: Info, stacks: seq<Stack>): Tree
    decreases Frames(stacks)
  {
    Tree(|stacks|,
         map k | k in Heads(stacks) ::
           (TailsShrink(stacks, k); Shape(k, FirstInfo(stacks, k), Tails(stacks, k))),
         ident, info)
  }

  lemma HeadsMore(stacks: seq<Stack>, s: Stack)
    ensures Heads(stacks + [s]) == Heads(stacks) + if s == [] then {} else {s[0].ident}
  {
    assert forall x :: x in stacks + [s] <==> x in stacks || x == s;
    if s != [] { assert s in stacks + [s]; }
  }

  lemma TailsMore(stacks: seq<Stack>, s: Stack, k: Ident)
    ensures Tails(stacks + [s], k) == Tails(stacks, k) + if s != [] && s[0].ident == k then [s[1..]] else []
  {
    assert (stacks + [s])[..|stacks|] == stacks;
  }

  lemma {:induction false} FirstInfoMore(stacks: seq<Stack>, s: Stack, k: Ident)
    ensures k in Heads(stacks) ==> FirstInfo(stacks + [s], k) == FirstInfo(stacks, k)
    ensures k !in Heads(stacks) && s != [] && s[0].ident == k ==> FirstInfo(stacks + [s], k) == s[0].info
  {
    if stacks != [] {
      assert (stacks + [s])[1..] == stacks[1..] + [s];
      FirstInfoMore(stacks[1..], s, k);
      assert forall x :: x in stacks <==> x == stacks[0] || x in stacks[1..];
    }
  }

  lemma ShapeParts(ident: Ident, info: Info, stacks: seq<Stack>)
    ensures var t := Shape(ident, info, stacks);
            && t.count == |stacks| && t.ident == ident && t.info == info && t.children.Keys == Heads(stacks)
            && forall k :: k in Heads(stacks) ==> t.children[k] == Shape(k, FirstInfo(stacks, k), Tails(stacks, k))
  {
  }

  /** The child that a stack goes through, as it is before that stack is counted. */
  lemma ChildShape(ident: Ident, info: Info, stacks: seq<Stack>, s: Stack)
    requires s != []
    ensures var k := s[0].ident;
            ChildOf(Shape(ident, info, stacks), s[0]) == Shape(k, FirstInfo(stacks + [s], k), Tails(stacks, k))
  {
    hide Shape, FirstInfo, Tails, Heads;
    var k := s[0].ident;
    FirstInfoMore(stacks, s, k);
    TailsShrink(stacks, k);
    ShapeParts(ident, info, stacks);
    if k !in Heads(stacks) {
      ShapeParts(k, s[0].info, []);
      NoHeads();
    }
  }

  lemma NoHeads()
    ensures Heads([]) == {}
  {
  }

  /** Adding one stack to the tree of a series gives the tree of the longer series. */
  lemma {:induction false} AddToShape(ident: Ident, info: Info, stacks: seq<Stack>, s: Stack)
    ensures AddStack(Shape(ident, info, stacks), s) == Shape(ident, info, stacks + [s])
    decreases |s|
  {
    hide Shape, FirstInfo, Tails, Heads, ChildOf;
    var t, t' := Shape(ident, info, stacks), Shape(ident, info, stacks + [s]);
    ShapeParts(ident, info, stacks);
    ShapeParts(ident, info, stacks + [s]);
    HeadsMore(stacks, s);
    forall k | k in t'.children
      ensures k in AddStack(t, s).children && t'.children[k] == AddStack(t, s).children[k]
    {
      TailsMore(stacks, s, k);
      FirstInfoMore(stacks, s, k);
      if s != [] && s[0].ident == k {
        ChildShape(ident, info, stacks, s);
        AddToShape(k, FirstInfo(stacks + [s], k), Tails(stacks, k), s[1..]);
      } else {
        assert Tails(stacks + [s], k) == Tails(stacks, k);
      }
    }
    assert AddStack(t, s).children == t'.children;
  }

  /** A profile is the tree of its samples. */
  lemma {:induction false} ProfileIsShape(stacks: seq<Stack>)
    ensures Profile(stacks) == Shape(ROOT, NO_INFO, stacks)
  {
    if stacks == [] {
      assert Shape(ROOT, NO_INFO, []).children == map[];
    } else {
      var front, last := stacks[..|stacks| - 1], stacks[|stacks| - 1];
      ProfileIsShape(front);
      AddToShape(ROOT, NO_INFO, front, last);
      assert stacks == front + [last];
    }
  }

  // ---- What the counts say ---------------------------------------------------

  /** The count at a path below t; 0 if there is no such node. */
  function CountAt(t: Tree, path: seq<Ident>): nat
    decreases |path|
  {
    if path == [] then t.count
    else if path[0] in t.children then CountAt(t.children[path[0]], path[1..])
    else 0
  }

  /** The stack runs through the path. */
  predicate Through(stack: Stack, path: seq<Ident>) {
    |path| <= |stack| && forall i :: 0 <= i < |path| ==> stack[i].ident == path[i]
  }

  function HowMany(stacks: seq<Stack>, path: seq<Ident>): nat {
    if stacks == [] then 0
    else HowMany(stacks[..|stacks| - 1], path) + if Through(stacks[|stacks| - 1], path) then 1 else 0
  }

  lemma ThroughFirst(stack: Stack, path: seq<Ident>)
    requires path != []
    ensures Through(stack, path) <==> stack != [] && stack[0].ident == path[0] && Through(stack[1..], path[1..])
  {
    if stack != [] && stack[0].ident == path[0] && Through(stack[1..], path[1..]) {
      forall i | 0 <= i < |path| ensures stack[i].ident == path[i] {
        if i > 0 { assert stack[i] == stack[1..][i - 1] && path[i] == path[1..][i - 1]; }
      }
    }
    if Through(stack, path) {
      assert forall i :: 0 <= i < |path| - 1 ==> stack[1..][i] == stack[i + 1] && path[1..][i] == path[i + 1];
    }
  }

  lemma {:induction false} HowManyTails(stacks: seq<Stack>, path: seq<Ident>)
    requires path != []
    ensures HowMany(stacks, path) == HowMany(Tails(stacks, path[0]), path[1..])
  {
    if stacks != [] {
      var front, last := stacks[..|stacks| - 1], stacks[|stacks| - 1];
      HowManyTails(front, path);
      ThroughFirst(last, path);
      if last != [] && last[0].ident == path[0] {
        var rest := Tails(front, path[0]);
        assert Tails(stacks, path[0]) == rest + [last[1..]];
        assert (rest + [last[1..]])[..|rest|] == rest;
      }
    }
  }

  lemma {:induction false} AllThroughEmpty(stacks: seq<Stack>)
    ensures HowMany(stacks, []) == |stacks|
  {
    if stacks != [] { AllThroughEmpty(stacks[..|stacks| - 1]); }
  }

  /** Each count is the number of sampled stacks that run through the path. */
  lemma {:induction false} CountsAreSamples(ident: Ident, info: Info, stacks: seq<Stack>, path: seq<Ident>)
    ensures CountAt(Shape(ident, info, stacks), path) == HowMany(stacks, path)
    decreases |path|
  {
    hide Shape, FirstInfo, Tails, Heads;
    ShapeParts(ident, info, stacks);
    if path == [] {
      AllThroughEmpty(stacks);
    } else {
      var k := path[0];
      HowManyTails(stacks, path);
      TailsShrink(stacks, k);
      if k in Heads(stacks) {
        CountsAreSamples(k, FirstInfo(stacks, k), Tails(stacks, k), path[1..]);
      }
    }
  }

  // ---- Merging ---------------------------------------------------------------

  function AllKeys(ts: seq<Tree>): set<Ident> {
    if ts == [] then {} else AllKeys(ts[..|ts| - 1]) + ts[|ts| - 1].children.Keys
  }

  /** The children named k of those trees that have one. */
  function Select(ts: seq<Tree>, k: Ident): (cs: seq<Tree>)
    ensures k in AllKeys(ts) <==> cs != []
    ensures forall c :: c in cs ==> exists t :: t in ts && k in t.children && c == t.children[k]
  {
    if ts == [] then []
    else
      var front, last := ts[..|ts| - 1], ts[|ts| - 1];
      if k in last.children then Select(front, k) + [last.children[k]] else Select(front, k)
  }

  function TotalCount(ts: seq<Tree>): nat {
    if ts == [] then 0 else TotalCount(ts[..|ts| - 1]) + ts[|ts| - 1].count
  }

  ghost function Height(t: Tree): (h: nat)
    ensures forall k :: k in t.children ==> Height(t.children[k]) < h
  {
    var hs := set k | k in t.children :: Height(t.children[k]);
    assert forall k :: k in t.children ==> Height(t.children[k]) in hs;
    1 + MaxOf(hs)
  }

  ghost function MaxOf(s: set<nat>): (m: nat)
    ensures forall x :: x in s ==> x <= m
    ensures s != {} ==> m in s
  {
    if s == {} then 0
    else
      var x :| x in s;
      var m := MaxOf(s - {x});
      assert forall y :: y in s ==> y == x || y in s - {x};
      if s == {x} || x > m then x else m
  }

  ghost function Tallest(ts: seq<Tree>): (h: nat)
    ensures forall t :: t in ts ==> Height(t) <= h
    ensures ts != [] ==> exists t :: t in ts && Height(t) == h
  {
    if ts == [] then 0
    else
      var h := Tallest(ts[1..]);
      assert ts[0] in ts && forall t :: t in ts ==> t == ts[0] || t in ts[1..];
      if ts[1..] == [] || Height(ts[0]) > h then Height(ts[0]) else h
  }

  lemma SelectIsChildren(ts: seq<Tree>, k: Ident)
    ensures k in AllKeys(ts) <==> Select(ts, k) != []
    ensures forall c :: c in Select(ts, k) ==> exists t :: t in ts && k in t.children && c == t.children[k]
  {
  }

  lemma {:induction false} TallestOf(ts: seq<Tree>) returns (t: Tree)
    requires ts != []
    ensures t in ts && Height(t) == Tallest(ts) && forall t' :: t' in ts ==> Height(t') <= Tallest(ts)
  {
    t := ts[0];
    if ts[1..] != [] {
      var t' := TallestOf(ts[1..]);
      if Height(ts[0]) <= Tallest(ts[1..]) { t := t'; }
    }
    assert forall x :: x in ts ==> x == ts[0] || x in ts[1..];
  }

  lemma ChildLower(t: Tree, k: Ident)
    requires k in t.children
    ensures Height(t.children[k]) < Height(t)
  {
  }

  lemma NoKeys()
    ensures AllKeys([]) == {}
  {
  }

  lemma SelectLower(ts: seq<Tree>, k: Ident)
    requires k in AllKeys(ts)
    ensures Select(ts, k) != [] && ts != [] && Tallest(Select(ts, k)) < Tallest(ts)
  {
    hide Height, MaxOf, Tallest, Select, AllKeys;
    SelectIsChildren(ts, k);
    if ts == [] { NoKeys(); }
    var c := TallestOf(Select(ts, k));
    var t :| t in ts && k in t.children && c == t.children[k];
    var _ := TallestOf(ts);
    ChildLower(t, k);
  }

  /** merge, for one tree or more of one identifier. */
  function MergeAll(ts: seq<Tree>): Tree
    requires ts != []
    decreases Tallest(ts)
  {
    Tree(TotalCount(ts),
         map k | k in AllKeys(ts) :: (SelectLower(ts, k); MergeAll(Select(ts, k))),
         ts[0].ident, ts[0].info)
  }

  /** The profiles of several series, as children of that name or as roots. */
  function Shapes(ident: Ident, infos: seq<Info>, xss: seq<seq<Stack>>): (ts: seq<Tree>)
    requires |infos| == |xss|
    ensures |ts| == |xss|
  {
    if xss == [] then []
    else
      var n := |xss| - 1;
      Shapes(ident, infos[..n], xss[..n]) + [Shape(ident, infos[n], xss[n])]
  }

  /** The series below k of those series that have stacks through k, and what they show for it. */
  function Below(xss: seq<seq<Stack>>, k: Ident): seq<seq<Stack>> {
    if xss == [] then []
    else
      var rest, last := Below(xss[..|xss| - 1], k), xss[|xss| - 1];
      if k in Heads(last) then rest + [Tails(last, k)] else rest
  }

  function BelowInfos(xss: seq<seq<Stack>>, k: Ident): (infos: seq<Info>)
    ensures |infos| == |Below(xss, k)|
  {
    if xss == [] then []
    else
      var rest, last := BelowInfos(xss[..|xss| - 1], k), xss[|xss| - 1];
      if k in Heads(last) then rest + [FirstInfo(last, k)] else rest
  }

  lemma {:induction false} HeadsConcat(a: seq<Stack>, b: seq<Stack>)
    ensures Heads(a + b) == Heads(a) + Heads(b)
  {
    assert forall s :: s in a + b <==> s in a || s in b;
  }

  lemma {:induction false} TailsConcat(a: seq<Stack>, b: seq<Stack>, k: Ident)
    ensures Tails(a + b, k) == Tails(a, k) + Tails(b, k)
  {
    if b == [] {
      assert a + b == a;
    } else {
      var front, last := b[..|b| - 1], b[|b| - 1];
      TailsConcat(a, front, k);
      assert a + b == (a + front) + [last] && b == front + [last];
      TailsMore(a + front, last, k);
      TailsMore(front, last, k);
    }
  }

  lemma {:induction false} FirstInfoConcat(a: seq<Stack>, b: seq<Stack>, k: Ident)
    ensures FirstInfo(a + b, k) == if k in Heads(a) then FirstInfo(a, k) else FirstInfo(b, k)
  {
    if a == [] {
      assert a + b == b;
    } else {
      FirstInfoConcat(a[1..], b, k);
      assert (a + b)[1..] == a[1..] + b;
      HeadsConcat([a[0]], a[1..]);
      assert [a[0]] + a[1..] == a;
      OneHead(a[0]);
    }
  }

  lemma OneHead(s: Stack)
    ensures Heads([s]) == if s == [] then {} else {s[0].ident}
  {
    assert s in [s];
  }

  /** Key by key, merging the shapes is merging the series below. */
  lemma {:induction false} MergeParts(ident: Ident, infos: seq<Info>, xss: seq<seq<Stack>>, k: Ident)
    requires |infos| == |xss|
    ensures TotalCount(Shapes(ident, infos, xss)) == |Flatten(xss)|
    ensures k in AllKeys(Shapes(ident, infos, xss)) <==> k in Heads(Flatten(xss))
    ensures k in Heads(Flatten(xss)) <==> Below(xss, k) != []
    ensures Select(Shapes(ident, infos, xss), k) == Shapes(k, BelowInfos(xss, k), Below(xss, k))
    ensures Flatten(Below(xss, k)) == Tails(Flatten(xss), k)
    ensures k in Heads(Flatten(xss)) ==> BelowInfos(xss, k)[0] == FirstInfo(Flatten(xss), k)
  {
    if xss == [] {
      NoHeads();
    } else {
      var n := |xss| - 1;
      var front, last := xss[..n], xss[n];
      MergeParts(ident, infos[..n], front, k);
      var ts := Shapes(ident, infos[..n], front);
      assert (ts + [Shape(ident, infos[n], last)])[..n] == ts;
      ShapeParts(ident, infos[n], last);
      HeadsConcat(Flatten(front), last);
      TailsConcat(Flatten(front), last, k);
      FirstInfoConcat(Flatten(front), last, k);
      hide Shape, Heads, Tails, FirstInfo;
      TailsShrink(last, k);
      if k in Heads(last) {
        BelowMore(k, BelowInfos(front, k), Below(front, k), FirstInfo(last, k), Tails(last, k));
      } else {
        assert Flatten(front) + last == Flatten(xss);
        assert Tails(Flatten(front), k) + [] == Tails(Flatten(front), k);
      }
    }
  }

  lemma BelowMore(k: Ident, infos: seq<Info>, xss: seq<seq<Stack>>, info: Info, xs: seq<Stack>)
    requires |infos| == |xss|
    ensures Shapes(k, infos + [info], xss + [xs]) == Shapes(k, infos, xss) + [Shape(k, info, xs)]
    ensures Flatten(xss + [xs]) == Flatten(xss) + xs
  {
    hide Shape;
    assert (infos + [info])[..|infos|] == infos && (xss + [xs])[..|xss|] == xss;
  }

  lemma MergeAllParts(ts: seq<Tree>)
    requires ts != []
    ensures var m := MergeAll(ts);
            && m.count == TotalCount(ts) && m.ident == ts[0].ident && m.info == ts[0].info && m.children.Keys == AllKeys(ts)
            && forall k :: k in AllKeys(ts) ==> Select(ts, k) != [] && m.children[k] == MergeAll(Select(ts, k))
  {
  }

  /** Merging profiles of one node is profiling all their samples in order. */
  lemma {:induction false} MergeIsConcat(ident: Ident, infos: seq<Info>, xss: seq<seq<Stack>>)
    requires |infos| == |xss| && xss != []
    ensures MergeAll(Shapes(ident, infos, xss)) == Shape(ident, infos[0], Flatten(xss))
    decreases Frames(Flatten(xss))
  {
    hide Shape, MergeAll, Heads, Tails, FirstInfo, AllKeys, Select, Shapes, Flatten, Below, BelowInfos, TotalCount;
    var ts, all := Shapes(ident, infos, xss), Flatten(xss);
    var m, t := MergeAll(ts), Shape(ident, infos[0], all);
    ShapeParts(ident, infos[0], all);
    ShapeParts(ident, infos[0], xss[0]);
    FirstShape(ident, infos, xss);
    MergeAllParts(ts);
    forall k ensures k in m.children <==> k in t.children
    {
      MergeParts(ident, infos, xss, k);
    }
    forall k | k in t.children ensures m.children[k] == t.children[k] {
      MergeParts(ident, infos, xss, k);
      TailsShrink(all, k);
      MergeIsConcat(k, BelowInfos(xss, k), Below(xss, k));
    }
    MergeParts(ident, infos, xss, ROOT);
    assert m.children == t.children;
  }

  lemma {:induction false} FirstShape(ident: Ident, infos: seq<Info>, xss: seq<seq<Stack>>)
    requires |infos| == |xss| && xss != []
    ensures Shapes(ident, infos, xss)[0] == Shape(ident, infos[0], xss[0])
  {
    if |xss| > 1 { FirstShape(ident, infos[..|xss| - 1], xss[..|xss| - 1]); }
  }

  datatype Result = Ok(tree: Tree) | MixedIdentifiers

  /** merge: an empty profile for no arguments, an error for different identifiers. */
  function Merge(ts: seq<Tree>): Result {
    if ts == [] then Ok(Create())
    else if exists i :: 0 <= i < |ts| && ts[i].ident != ts[0].ident then MixedIdentifiers
    else Ok(MergeAll(ts))
  }

  /** An error is raised exactly for identifiers that differ. */
  lemma MixedExactly(ts: seq<Tree>)
    ensures Merge(ts) == MixedIdentifiers <==> exists i, j :: 0 <= i < j < |ts| && ts[i].ident != ts[j].ident
  {
  }

  lemma {:induction false} RootShapes(xss: seq<seq<Stack>>)
    ensures Shapes(ROOT, seq(|xss|, i => NO_INFO), xss) == seq(|xss|, i requires 0 <= i < |xss| => Profile(xss[i]))
  {
    if xss != [] {
      var n := |xss| - 1;
      RootShapes(xss[..n]);
      ProfileIsShape(xss[n]);
      hide Shape, Profile;
      assert seq(|xss|, i => NO_INFO)[..n] == seq(n, i => NO_INFO);
      assert Shapes(ROOT, seq(n, i => NO_INFO), xss[..n]) == seq(n, i requires 0 <= i < n => Profile(xss[..n][i]));
    }
  }

  /** Profiling any number of series, none included, and merging is profiling them all, one
      after the other. */
  lemma MergeOfProfiles(xss: seq<seq<Stack>>)
    ensures Merge(seq(|xss|, i requires 0 <= i < |xss| => Profile(xss[i]))) == Ok(Profile(Flatten(xss)))
  {
    var infos, ts := seq(|xss|, i => NO_INFO), seq(|xss|, i requires 0 <= i < |xss| => Profile(xss[i]));
    RootShapes(xss);
    ProfileIsShape(Flatten(xss));
    if xss == [] {
      assert Flatten(xss) == [] && ts == [];
    } else {
      forall i | 0 <= i < |ts| ensures ts[i].ident == ROOT {
        ProfileIsShape(xss[i]);
        ShapeParts(ROOT, NO_INFO, xss[i]);
      }
      hide Shape, Profile, MergeAll;
      MergeIsConcat(ROOT, infos, xss);
    }
  }
}
