/** Orders of tasks that respect the dependencies. */
module Schedules {
  import opened Graphs
  import opened RedisBits

  ghost predicate IsEdge(g: Graph, edge: Edge)
    requires g.WellFormed()
  {
    edge.dst in g.tasks && edge.src in g.deps[edge.dst]
  }

  lemma {:induction false} MaxLevel(g: Graph, ts: set<Task>) returns (x: Task)
    requires g.WellFormed() && ts <= g.tasks && ts != {}
    ensures x in ts && forall y :: y in ts ==> g.level[y] <= g.level[x]
    decreases |ts|
  {
    x :| x in ts;
    if ts != {x} {
      var y := MaxLevel(g, ts - {x});
      assert forall z :: z in ts ==> z == x || z in ts - {x};
      if g.level[x] < g.level[y] { x := y; }
    }
  }

  lemma {:induction false} MinLevel(g: Graph, ts: set<Task>) returns (x: Task)
    requires g.WellFormed() && ts <= g.tasks && ts != {}
    ensures x in ts && forall y :: y in ts ==> g.level[x] <= g.level[y]
    decreases |ts|
  {
    x :| x in ts;
    if ts != {x} {
      var y := MinLevel(g, ts - {x});
      assert forall z :: z in ts ==> z == x || z in ts - {x};
      if g.level[y] < g.level[x] { x := y; }
    }
  }

  ghost function AllAbove(g: Graph, t: Task): set<Task>
    requires g.WellFormed()
  {
    set x | x in g.tasks && g.Above(x, t)
  }

  lemma {:induction false} AboveClosed(g: Graph, y: Task, x: Task, t: Task)
    requires g.WellFormed() && g.HasEdge(y, x) && g.Above(x, t)
    ensures g.Above(y, t)
    decreases g.level[t]
  {
    if x in g.deps[t] {
      assert g.Above(y, x);
    } else {
      var b :| b in g.deps[t] && g.Above(x, b);
      AboveClosed(g, y, x, b);
    }
  }

  lemma AboveThrough(g: Graph, z: Task, y: Task, x: Task)
    requires g.WellFormed() && g.HasEdge(y, x)
    ensures g.Above(z, y) ==> g.Above(z, x)
  {
  }

  lemma {:induction false} AboveTransitive(g: Graph, y: Task, x: Task, t: Task)
    requires g.WellFormed() && g.Above(y, x) && g.Above(x, t)
    ensures g.Above(y, t)
    decreases g.level[t]
  {
    if x in g.deps[t] {
      AboveThrough(g, y, x, t);
    } else {
      var b :| b in g.deps[t] && g.Above(x, b);
      AboveTransitive(g, y, x, b);
      AboveThrough(g, y, b, t);
    }
  }

  lemma {:induction false} AboveIsLower(g: Graph, x: Task, t: Task)
    requires g.WellFormed() && g.Above(x, t)
    ensures x in g.tasks && t in g.tasks && g.level[x] < g.level[t]
    decreases g.level[t]
  {
    if x !in g.deps[t] {
      var b :| b in g.deps[t] && g.Above(x, b);
      AboveIsLower(g, x, b);
    }
  }

  lemma OnlyDependency(g: Graph, d: Task, t: Task)
    requires g.WellFormed() && t in g.tasks && d in g.deps[t] && |g.deps[t]| <= 1
    ensures g.deps[t] == {d}
  {
    SmallerSubset({d}, g.deps[t]);
    SubsetOfSameSize({d}, g.deps[t]);
  }

  /** No other dependency of t has to wait for a. */
  ghost predicate Last(g: Graph, a: Task, t: Task)
    requires g.WellFormed()
  {
    g.HasEdge(a, t) && forall c :: c in g.deps[t] ==> !g.Above(a, c)
  }

  lemma AboveNotHeld(g: Graph, a: Task, t: Task, z: Task)
    requires g.WellFormed() && Last(g, a, t) && g.Above(z, t)
    ensures !g.HasEdge(a, z)
  {
    if g.HasEdge(a, z) {
      if z in g.deps[t] {
        assert g.Above(a, z);
      } else {
        var y :| y in g.deps[t] && g.Above(z, y);
        AboveClosed(g, a, z, y);
      }
    }
  }

  /** All above t can be run before anything is needed that waits for a or b. */
  lemma AboveIsClosed(g: Graph, a: Task, b: Task, t: Task)
    requires g.WellFormed() && Last(g, a, t) && Last(g, b, t)
    ensures AllAbove(g, t) <= g.tasks && t !in AllAbove(g, t) && g.deps[t] <= AllAbove(g, t)
    ensures forall z :: z in AllAbove(g, t) ==> g.deps[z] <= AllAbove(g, t) - {a, b}
  {
    if g.Above(t, t) { AboveIsLower(g, t, t); }
    forall z, y | z in AllAbove(g, t) && y in g.deps[z] ensures y in AllAbove(g, t) - {a, b} {
      AboveNotHeld(g, a, t, z);
      AboveNotHeld(g, b, t, z);
      AboveClosed(g, y, z, t);
    }
    forall y | y in g.deps[t] ensures y in AllAbove(g, t) { assert g.Above(y, t); }
  }

  lemma SameSet(a: set<Task>, b: set<Task>)
    requires a <= b
    ensures (forall x :: x in b ==> x in a) ==> a == b
  {
  }

  /** The next task of goal to be run. */
  lemma NextOf(g: Graph, done: set<Task>, held: set<Task>, goal: set<Task>) returns (z: Task)
    requires g.WellFormed() && done <= goal <= g.tasks && done != goal
    requires forall z :: z in goal ==> g.deps[z] <= goal - held
    ensures z in goal && z !in done && g.deps[z] <= done - held
  {
    var left := goal - done;
    SameSet(done, goal);
    var x :| x in goal && x !in done;
    assert x in left;
    z := MinLevel(g, left);
    forall y | y in g.deps[z] ensures y in done - held {
      assert y in goal && g.level[y] < g.level[z];
    }
  }
}
