/** The proxy counts with INCR and GET as two separate commands; executors decide on the number
    that INCR returns, or check with GET before they count.  A count that overlaps with the
    proxy's can make both see the full counter, so that a task is claimed twice and its second
    execution counts its out-edges again.  This module finds plans for which that does no harm
    in any run, and SplitHarms plans for which it does. */
module SplitCounters {
  import opened Graphs
  import opened Plans
  import opened RedisBits
  import opened Schedules

  datatype State = State(
    counters: map<Task, nat>,
    claims: map<Task, nat>,     // how often each task was claimed
    runs: map<Task, nat>,       // how often each task was executed
    uncounted: multiset<Edge>,  // out-edges of executions, not dealt with yet
    taken: multiset<Edge>,      // edges claimed by a check, and not counted yet
    asked: multiset<Edge>)      // edges whose INCR was applied and whose GET was not
  {
    function Counter(t: Task): nat { if t in counters then counters[t] else 0 }

    function Claims(t: Task): nat { if t in claims then claims[t] else 0 }

    function Runs(t: Task): nat { if t in runs then runs[t] else 0 }

    ghost function Bump(t: Task): State { this.(counters := counters[t := Counter(t) + 1]) }

    ghost function ClaimIf(won: bool, t: Task): State {
      if won then this.(claims := claims[t := Claims(t) + 1]) else this
    }
  }

  datatype Step =
    | Execute(t: Task)
    | Count(edge: Edge)     // an executor's INCR, which returns the counter
    | Check(edge: Edge)     // an executor's GET that finds only this edge missing
    | Bookkeep(edge: Edge)  // INCR after such a check
    | Incr(edge: Edge)      // the proxy's INCR
    | Get(edge: Edge)       // the proxy's GET

  /** The proxy invokes what has become ready only after it has counted all that its message was
      about: if only the proxy can have made t's claims, one such message has been dealt with for
      each execution of t. */
  ghost predicate MessageOver(plan: Plan, s: State, t: Task)
    requires plan.g.WellFormed() && t in plan.g.tasks
  {
    forall a, x :: plan.g.deps[t] == {a} && plan.ToProxy(a, t) && plan.g.HasEdge(a, x) && plan.ToProxy(a, x) ==>
      s.Runs(t) + 1 <= s.Runs(a) - s.uncounted[Edge(a, x)] - s.asked[Edge(a, x)]
  }

  ghost predicate Enabled(plan: Plan, s: State, step: Step)
    requires plan.g.WellFormed()
  {
    if step.Execute? then
      step.t in plan.g.tasks && s.Runs(step.t) < s.Claims(step.t) && MessageOver(plan, s, step.t)
    else
      var e := step.edge;
      && IsEdge(plan.g, e)
      && match step
         case Count(_) => e in s.uncounted && !plan.ToProxy(e.src, e.dst)
         case Check(_) => e in s.uncounted && plan.Peekable(e.src, e.dst) && s.Counter(e.dst) + 1 == |plan.g.deps[e.dst]|
         case Bookkeep(_) => e in s.taken
         case Incr(_) => e in s.uncounted && plan.ToProxy(e.src, e.dst)
         case Get(_) => e in s.asked
  }

  ghost predicate Full(g: Graph, s: State, t: Task)
    requires g.WellFormed() && t in g.tasks
  {
    s.Counter(t) == |g.deps[t]|
  }

  ghost function Apply(plan: Plan, s: State, step: Step): State
    requires plan.g.WellFormed() && Enabled(plan, s, step)
  {
    match step
    case Execute(t) =>
      s.(runs := s.runs[t := s.Runs(t) + 1], uncounted := s.uncounted + multiset(plan.g.OutEdges(t)))
    case Count(e) =>
      var s' := s.Bump(e.dst).(uncounted := s.uncounted - multiset{e});
      s'.ClaimIf(Full(plan.g, s', e.dst), e.dst)
    case Check(e) =>
      s.(uncounted := s.uncounted - multiset{e}, taken := s.taken + multiset{e}).ClaimIf(true, e.dst)
    case Bookkeep(e) => s.Bump(e.dst).(taken := s.taken - multiset{e})
    case Incr(e) => s.Bump(e.dst).(uncounted := s.uncounted - multiset{e}, asked := s.asked + multiset{e})
    case Get(e) => s.(asked := s.asked - multiset{e}).ClaimIf(Full(plan.g, s, e.dst), e.dst)
  }

  ghost function Init(plan: Plan): State
    requires plan.g.WellFormed()
  {
    State(map[], map t | t in plan.g.tasks && plan.g.deps[t] == {} :: 1, map[], multiset{}, multiset{}, multiset{})
  }

  ghost predicate CanRun(plan: Plan, s: State, steps: seq<Step>)
    requires plan.g.WellFormed()
    decreases |steps|
  {
    steps == [] || (Enabled(plan, s, steps[0]) && CanRun(plan, Apply(plan, s, steps[0]), steps[1..]))
  }

  ghost function RunFrom(plan: Plan, s: State, steps: seq<Step>): State
    requires plan.g.WellFormed() && CanRun(plan, s, steps)
    decreases |steps|
  {
    if steps == [] then s else RunFrom(plan, Apply(plan, s, steps[0]), steps[1..])
  }

  ghost predicate Reachable(plan: Plan, s: State)
    requires plan.g.WellFormed()
  {
    exists steps :: CanRun(plan, Init(plan), steps) && RunFrom(plan, Init(plan), steps) == s
  }

  // ---- What can go wrong -----------------------------------------------------

  /** t was claimed before one of its dependencies was executed. */
  ghost predicate Early(g: Graph, s: State, t: Task)
    requires g.WellFormed() && t in g.tasks
  {
    s.Claims(t) > 0 && exists d :: d in g.deps[t] && s.Runs(d) == 0
  }

  /** All dependencies of t were executed and counted, and t was not claimed. */
  ghost predicate LostTask(g: Graph, s: State, t: Task)
    requires g.WellFormed() && t in g.tasks
  {
    && s.Claims(t) == 0
    && forall d :: d in g.deps[t] ==> s.Runs(d) > 0 && Edge(d, t) !in s.uncounted && Edge(d, t) !in s.asked
  }

  ghost predicate SafeState(g: Graph, s: State)
    requires g.WellFormed()
  {
    forall t :: t in g.tasks ==> !Early(g, s, t) && !LostTask(g, s, t)
  }

  /** No run claims a task early or loses one. */
  ghost predicate Safe(plan: Plan)
    requires plan.g.WellFormed()
  {
    forall s :: Reachable(plan, s) ==> SafeState(plan.g, s)
  }

  /** The proxy counts an edge into t. */
  ghost predicate SplitInto(plan: Plan, t: Task)
    requires plan.g.WellFormed() && t in plan.g.tasks
  {
    exists d :: d in plan.g.deps[t] && plan.ToProxy(d, t)
  }

  ghost predicate CheckedInto(plan: Plan, t: Task)
    requires plan.g.WellFormed() && t in plan.g.tasks
  {
    exists d :: d in plan.g.deps[t] && plan.Peekable(d, t)
  }

  /** c is not run before the proxy has dealt with the message about a: it, or a task above it, is
      invoked by the proxy because of that message alone. */
  ghost predicate Waits(plan: Plan, a: Task, c: Task)
    requires plan.g.WellFormed()
    decreases if c in plan.g.tasks then plan.g.level[c] else 0
  {
    c in plan.g.tasks &&
    ((plan.g.deps[c] == {a} && plan.ToProxy(a, c)) || exists y :: y in plan.g.deps[c] && Waits(plan, a, y))
  }

  /** A count of a -> t by the proxy may overlap with all others into t. */
  ghost predicate Overlaps(plan: Plan, a: Task, t: Task)
    requires plan.g.WellFormed() && t in plan.g.tasks
  {
    a in plan.g.deps[t] && plan.ToProxy(a, t) && forall c :: c in plan.g.deps[t] && c != a ==> !Waits(plan, a, c)
  }

  /** t can be claimed twice: by two overlapping counts, one of them the proxy's, or because a
      dependency of it is executed twice and some executor checks before it counts. */
  ghost predicate CanDouble(plan: Plan, t: Task)
    requires plan.g.WellFormed()
    decreases if t in plan.g.tasks then plan.g.level[t] else 0
  {
    t in plan.g.tasks &&
    (|| (|plan.g.deps[t]| >= 2 && exists a :: Overlaps(plan, a, t))
     || (CheckedInto(plan, t) && exists d :: d in plan.g.deps[t] && CanDouble(plan, d)))
  }

  /** If t is executed twice, u is neither lost nor claimed early: the proxy counts no edge into
      u, and all that u needs besides t was needed by t as well. */
  ghost predicate Bears(plan: Plan, t: Task, u: Task)
    requires plan.g.WellFormed() && u in plan.g.tasks
  {
    !SplitInto(plan, u) && forall d :: d in plan.g.deps[u] ==> d == t || plan.g.Above(d, t)
  }

  /** Every dependent of a task that can be claimed twice bears it. */
  ghost predicate Harmless(plan: Plan)
    requires plan.g.WellFormed()
  {
    forall t, u :: plan.g.HasEdge(t, u) && CanDouble(plan, t) ==> Bears(plan, t, u)
  }

  // ---- Enough ----------------------------------------------------------------

  /** The dependencies that are executed once at most, and were executed and counted. */
  ghost function Done(plan: Plan, s: State, t: Task): set<Task>
    requires plan.g.WellFormed() && t in plan.g.tasks
  {
    set d | d in plan.g.deps[t] && !CanDouble(plan, d) && s.Runs(d) > 0 && Edge(d, t) !in s.uncounted && Edge(d, t) !in s.taken
  }

  /** How often d -> t was counted. */
  ghost function Times(s: State, d: Task, t: Task): int {
    s.Runs(d) - s.uncounted[Edge(d, t)] - s.taken[Edge(d, t)]
  }

  /** Each edge is counted at most once for each execution of its source. */
  ghost predicate EdgeRight(plan: Plan, s: State, e: Edge)
    requires plan.g.WellFormed()
  {
    && (e in s.uncounted || e in s.taken || e in s.asked ==> IsEdge(plan.g, e))
    && (e in s.asked ==> plan.ToProxy(e.src, e.dst)) && (e in s.taken ==> plan.Peekable(e.src, e.dst))
    && s.uncounted[e] + s.taken[e] + s.asked[e] <= s.Runs(e.src)
    && (IsEdge(plan.g, e) && plan.g.deps[e.dst] == {e.src} ==>
          s.Claims(e.dst) + s.uncounted[e] + s.asked[e] <= s.Runs(e.src))
  }

  ghost predicate Asked(s: State, t: Task) {
    exists e :: e in s.asked && e.dst == t
  }

  ghost predicate Taken(s: State, t: Task) {
    exists e :: e in s.taken && e.dst == t
  }

  ghost predicate Fed(plan: Plan, t: Task)
    requires plan.g.WellFormed() && t in plan.g.tasks
  {
    exists w :: w in plan.g.deps[t] && CanDouble(plan, w)
  }

  /** The counter is the number of INCRs; at most one dependency is counted more than once. */
  ghost predicate CounterRight(plan: Plan, s: State, t: Task)
    requires plan.g.WellFormed() && t in plan.g.tasks
  {
    && (!Fed(plan, t) ==> s.Counter(t) == |Done(plan, s, t)|)
    && (forall w :: w in plan.g.deps[t] && CanDouble(plan, w) ==> s.Counter(t) == |Done(plan, s, t)| + Times(s, w, t))
  }

  ghost predicate ClaimsRight(plan: Plan, s: State, t: Task)
    requires plan.g.WellFormed() && t in plan.g.tasks
  {
    var n := |plan.g.deps[t]|;
    && s.Runs(t) <= s.Claims(t)
    && (s.Claims(t) > 0 ==> forall d :: d in plan.g.deps[t] ==> s.Runs(d) > 0)
    && (s.Counter(t) >= n ==> s.Claims(t) > 0 || Asked(s, t))
    && (Taken(s, t) ==> s.Claims(t) > 0 && s.Counter(t) + 1 >= n)
    && (plan.g.deps[t] == {} ==> s.Claims(t) == 1)
    && (!CanDouble(plan, t) ==> s.Claims(t) <= 1)
    && (OneClaim(plan, t) ==> s.Claims(t) <= if s.Counter(t) >= n || Taken(s, t) then 1 else 0)
  }

  /** Whoever sees the counter full, or full but for its own edge, is alone in that. */
  ghost predicate OneClaim(plan: Plan, t: Task)
    requires plan.g.WellFormed() && t in plan.g.tasks
  {
    plan.g.deps[t] != {} && (forall a :: !Overlaps(plan, a, t)) && (Fed(plan, t) ==> !CheckedInto(plan, t))
  }

  ghost predicate TaskRight(plan: Plan, s: State, t: Task)
    requires plan.g.WellFormed()
  {
    t in plan.g.tasks ==> CounterRight(plan, s, t) && ClaimsRight(plan, s, t)
  }

  /** If c has run, and had to wait for the message about a, that is over. */
  ghost predicate WaitRight(plan: Plan, s: State, a: Task, c: Task)
    requires plan.g.WellFormed()
  {
    !CanDouble(plan, a) && Waits(plan, a, c) && s.Runs(c) > 0 ==> NoneLeftOf(plan, s, a)
  }

  ghost predicate NoneLeftOf(plan: Plan, s: State, a: Task)
    requires plan.g.WellFormed()
  {
    forall x :: plan.g.HasEdge(a, x) && plan.ToProxy(a, x) ==> s.uncounted[Edge(a, x)] == 0 && s.asked[Edge(a, x)] == 0
  }

  ghost predicate Inv(plan: Plan, s: State)
    requires plan.g.WellFormed()
  {
    && (forall a, c {:trigger WaitRight(plan, s, a, c)} :: WaitRight(plan, s, a, c))
    && (forall e {:trigger EdgeRight(plan, s, e)} :: EdgeRight(plan, s, e))
    && (forall t {:trigger TaskRight(plan, s, t)} :: TaskRight(plan, s, t))
  }

  lemma InitInv(plan: Plan)
    requires plan.g.WellFormed()
    ensures Inv(plan, Init(plan))
  {
    var s := Init(plan);
    forall t ensures TaskRight(plan, s, t) {
      if t in plan.g.tasks {
        assert Done(plan, s, t) == {};
        hide CanDouble, Done;
      }
    }
  }

  /** At most one dependency of u can be executed twice. */
  lemma OneFeeds(plan: Plan, u: Task, w: Task, w': Task)
    requires plan.g.WellFormed() && Harmless(plan) && plan.g.HasEdge(w, u) && plan.g.HasEdge(w', u)
    requires CanDouble(plan, w) && CanDouble(plan, w')
    ensures w == w'
  {
    hide CanDouble;
    assert Bears(plan, w, u) && Bears(plan, w', u);
    if w != w' {
      AboveIsLower(plan.g, w, w');
      AboveIsLower(plan.g, w', w);
    }
  }

  // Execute(t): t has been claimed more often than executed, and its out-edges become uncounted.

  lemma ExecuteKeepsEdge(plan: Plan, s: State, t: Task, e: Edge)
    requires plan.g.WellFormed() && EdgeRight(plan, s, e) && Enabled(plan, s, Execute(t))
    ensures EdgeRight(plan, Apply(plan, s, Execute(t)), e)
  {
    assert e in plan.g.OutEdges(t) <==> IsEdge(plan.g, e) && e.src == t by { assert e == Edge(e.src, e.dst); }
    hide Graph.OutEdges;
  }

  lemma ExecuteKeepsCounter(plan: Plan, s: State, t: Task, t': Task)
    requires plan.g.WellFormed() && t' in plan.g.tasks && CounterRight(plan, s, t') && Enabled(plan, s, Execute(t))
    requires CanDouble(plan, t) || s.Runs(t) == 0
    ensures CounterRight(plan, Apply(plan, s, Execute(t)), t')
  {
    var s' := Apply(plan, s, Execute(t));
    assert forall d :: d in plan.g.deps[t'] ==> (Edge(d, t') in plan.g.OutEdges(t) <==> d == t);
    hide Graph.OutEdges, CanDouble;
    assert Done(plan, s', t') == Done(plan, s, t');
  }

  lemma ExecuteKeepsClaims(plan: Plan, s: State, t: Task, t': Task)
    requires plan.g.WellFormed() && t' in plan.g.tasks && ClaimsRight(plan, s, t') && Enabled(plan, s, Execute(t))
    ensures ClaimsRight(plan, Apply(plan, s, Execute(t)), t')
  {
    hide Graph.OutEdges, CanDouble, OneClaim;
  }

  lemma {:induction false} WaitsIsBelow(plan: Plan, a: Task, c: Task)
    requires plan.g.WellFormed() && Waits(plan, a, c)
    ensures plan.g.Above(a, c)
    decreases plan.g.level[c]
  {
    if !(plan.g.deps[c] == {a} && plan.ToProxy(a, c)) {
      var y :| y in plan.g.deps[c] && Waits(plan, a, y);
      WaitsIsBelow(plan, a, y);
    }
  }

  /** What is above a task that has run, or been claimed, has run. */
  lemma {:induction false} AboveRan(plan: Plan, s: State, x: Task, t: Task)
    requires plan.g.WellFormed() && Inv(plan, s) && plan.g.Above(x, t) && s.Claims(t) > 0
    ensures s.Runs(x) > 0
    decreases plan.g.level[t]
  {
    assert TaskRight(plan, s, t);
    hide CanDouble, CounterRight, EdgeRight, WaitRight;
    if x !in plan.g.deps[t] {
      var y :| y in plan.g.deps[t] && plan.g.Above(x, y);
      assert TaskRight(plan, s, y);
      AboveRan(plan, s, x, y);
    }
  }

  lemma RanIsClaimed(plan: Plan, s: State, t: Task)
    requires plan.g.WellFormed() && Inv(plan, s) && t in plan.g.tasks
    ensures s.Runs(t) <= s.Claims(t)
  {
    assert TaskRight(plan, s, t);
    hide CanDouble, CounterRight;
  }

  lemma RareRunsOnce(plan: Plan, s: State, a: Task)
    requires plan.g.WellFormed() && Inv(plan, s) && a in plan.g.tasks && !CanDouble(plan, a)
    ensures s.Runs(a) <= 1
  {
    assert TaskRight(plan, s, a);
    hide CanDouble, CounterRight;
  }

  lemma ExecuteKeepsWait(plan: Plan, s: State, t: Task, a: Task, c: Task)
    requires plan.g.WellFormed() && Inv(plan, s) && Enabled(plan, s, Execute(t))
    ensures WaitRight(plan, Apply(plan, s, Execute(t)), a, c)
  {
    var s' := Apply(plan, s, Execute(t));
    if !CanDouble(plan, a) && Waits(plan, a, c) && s'.Runs(c) > 0 {
      assert s.Claims(c) > 0 by { assert TaskRight(plan, s, c); hide CounterRight, CanDouble; }
      WaitsIsBelow(plan, a, c);
      AboveRan(plan, s, a, c);
      AboveIsLower(plan.g, a, c);
      RareRunsOnce(plan, s, a);
      WaitedFor(plan, s, t, a, c);
      assert t != a by { assert TaskRight(plan, s, a); hide CounterRight, CanDouble; }
      hide CanDouble, Inv, Waits;
      ExecuteKeepsNoneLeft(plan, s, t, a);
    }
  }

  lemma ExecuteKeepsNoneLeft(plan: Plan, s: State, t: Task, a: Task)
    requires plan.g.WellFormed() && Enabled(plan, s, Execute(t)) && NoneLeftOf(plan, s, a) && t != a
    ensures NoneLeftOf(plan, Apply(plan, s, Execute(t)), a)
  {
    forall x | plan.g.HasEdge(a, x) && plan.ToProxy(a, x) ensures Edge(a, x) !in plan.g.OutEdges(t) && s.uncounted[Edge(a, x)] == 0 {
    }
    hide Enabled;
  }

  /** When c can be run, or has run, the message that it had to wait for is over. */
  lemma WaitedFor(plan: Plan, s: State, t: Task, a: Task, c: Task)
    requires plan.g.WellFormed() && Inv(plan, s) && Enabled(plan, s, Execute(t)) && !CanDouble(plan, a) && Waits(plan, a, c)
    requires c == t || s.Runs(c) > 0
    requires s.Runs(a) <= 1
    ensures NoneLeftOf(plan, s, a)
  {
    assert WaitRight(plan, s, a, c);
    if s.Runs(c) == 0 {
      if plan.g.deps[c] == {a} && plan.ToProxy(a, c) {
        hide CanDouble, Inv;
      } else {
        var y :| y in plan.g.deps[c] && Waits(plan, a, y);
        assert TaskRight(plan, s, c) && WaitRight(plan, s, a, y);
        hide CanDouble, CounterRight, EdgeRight;
      }
    }
  }

  lemma ExecuteKeepsInv(plan: Plan, s: State, t: Task)
    requires plan.g.WellFormed() && Inv(plan, s) && Enabled(plan, s, Execute(t))
    ensures Inv(plan, Apply(plan, s, Execute(t)))
  {
    assert TaskRight(plan, s, t);
    assert CanDouble(plan, t) || s.Runs(t) == 0 by { hide CanDouble, CounterRight, EdgeRight, WaitRight; }
    hide Apply, CanDouble, CounterRight, ClaimsRight, Enabled, EdgeRight, WaitRight;
    forall e ensures EdgeRight(plan, Apply(plan, s, Execute(t)), e) {
      assert EdgeRight(plan, s, e);
      ExecuteKeepsEdge(plan, s, t, e);
    }
    forall a, c ensures WaitRight(plan, Apply(plan, s, Execute(t)), a, c) {
      ExecuteKeepsWait(plan, s, t, a, c);
    }
    forall t' ensures TaskRight(plan, Apply(plan, s, Execute(t)), t') {
      assert TaskRight(plan, s, t');
      if t' in plan.g.tasks {
        hide Inv;
        ExecuteKeepsCounter(plan, s, t, t');
        ExecuteKeepsClaims(plan, s, t, t');
      }
    }
  }

  // The other steps concern one edge.

  /** From s to s', only the edge e, the counter of its target and its claims have changed. */
  ghost predicate OnlyEdge(s: State, s': State, e: Edge) {
    && s'.runs == s.runs
    && (forall x :: x != e ==> s'.uncounted[x] == s.uncounted[x] && s'.taken[x] == s.taken[x] && s'.asked[x] == s.asked[x])
    && (forall t {:trigger s'.Counter(t)} {:trigger s'.Claims(t)} :: t != e.dst ==> s'.Counter(t) == s.Counter(t) && s'.Claims(t) == s.Claims(t))
  }

  /** From s to s', the edge e has moved: what has been added to each count of it. */
  ghost predicate Moved(s: State, s': State, e: Edge, uncounted: int, taken: int, asked: int, counter: int, claims: int) {
    && OnlyEdge(s, s', e)
    && s'.uncounted[e] == s.uncounted[e] + uncounted && s'.taken[e] == s.taken[e] + taken && s'.asked[e] == s.asked[e] + asked
    && s'.Counter(e.dst) == s.Counter(e.dst) + counter && s'.Claims(e.dst) == s.Claims(e.dst) + claims
  }

  ghost function Won(plan: Plan, s: State, t: Task, counter: nat): nat
    requires plan.g.WellFormed() && t in plan.g.tasks
  {
    if s.Counter(t) + counter == |plan.g.deps[t]| then 1 else 0
  }

  lemma CountMoves(plan: Plan, s: State, e: Edge)
    requires plan.g.WellFormed() && Enabled(plan, s, Count(e))
    ensures Moved(s, Apply(plan, s, Count(e)), e, -1, 0, 0, 1, Won(plan, s, e.dst, 1))
  {
    hide Graph.WellFormed;
  }

  lemma CheckMoves(plan: Plan, s: State, e: Edge)
    requires plan.g.WellFormed() && Enabled(plan, s, Check(e))
    ensures Moved(s, Apply(plan, s, Check(e)), e, -1, 1, 0, 0, 1)
  {
    hide Graph.WellFormed;
  }

  lemma BookkeepMoves(plan: Plan, s: State, e: Edge)
    requires plan.g.WellFormed() && Enabled(plan, s, Bookkeep(e))
    ensures Moved(s, Apply(plan, s, Bookkeep(e)), e, 0, -1, 0, 1, 0)
  {
    hide Graph.WellFormed;
  }

  lemma IncrMoves(plan: Plan, s: State, e: Edge)
    requires plan.g.WellFormed() && Enabled(plan, s, Incr(e))
    ensures Moved(s, Apply(plan, s, Incr(e)), e, -1, 0, 1, 1, 0)
  {
    hide Graph.WellFormed;
  }

  lemma GetMoves(plan: Plan, s: State, e: Edge)
    requires plan.g.WellFormed() && Enabled(plan, s, Get(e))
    ensures Moved(s, Apply(plan, s, Get(e)), e, 0, 0, -1, 0, Won(plan, s, e.dst, 0))
  {
    hide Graph.WellFormed;
  }

  lemma OtherTaskRight(plan: Plan, s: State, s': State, e: Edge, t: Task)
    requires plan.g.WellFormed() && t in plan.g.tasks && t != e.dst && OnlyEdge(s, s', e) && TaskRight(plan, s, t)
    ensures TaskRight(plan, s', t)
  {
    assert forall d: Task :: s'.uncounted[Edge(d, t)] == s.uncounted[Edge(d, t)] && s'.taken[Edge(d, t)] == s.taken[Edge(d, t)];
    assert Done(plan, s', t) == Done(plan, s, t);
    assert Asked(s', t) <==> Asked(s, t) by { SameAsked(s, s', e, t); }
    assert Taken(s', t) <==> Taken(s, t) by { SameAsked(s, s', e, t); }
    hide CanDouble, Done, OneClaim, Asked, Taken, OnlyEdge;
    assert s'.Counter(t) == s.Counter(t) && s'.Claims(t) == s.Claims(t) && forall d :: s'.Runs(d) == s.Runs(d);
  }

  lemma SameAsked(s: State, s': State, e: Edge, t: Task)
    requires t != e.dst && OnlyEdge(s, s', e)
    ensures Asked(s', t) <==> Asked(s, t)
    ensures Taken(s', t) <==> Taken(s, t)
  {
    if Asked(s, t) { var x :| x in s.asked && x.dst == t; assert s'.asked[x] == s.asked[x]; }
    if Asked(s', t) { var x :| x in s'.asked && x.dst == t; assert s'.asked[x] == s.asked[x]; }
    if Taken(s, t) { var x :| x in s.taken && x.dst == t; assert s'.taken[x] == s.taken[x]; }
    if Taken(s', t) { var x :| x in s'.taken && x.dst == t; assert s'.taken[x] == s.taken[x]; }
  }

  lemma OtherEdgeRight(plan: Plan, s: State, s': State, e: Edge, x: Edge)
    requires plan.g.WellFormed() && x != e && OnlyEdge(s, s', e) && EdgeRight(plan, s, x) && IsEdge(plan.g, e)
    ensures EdgeRight(plan, s', x)
  {
    assert s'.uncounted[x] == s.uncounted[x] && s'.taken[x] == s.taken[x] && s'.asked[x] == s.asked[x];
    if IsEdge(plan.g, x) && plan.g.deps[x.dst] == {x.src} { assert x.dst == e.dst ==> e.src == x.src; }
    assert x.dst == e.dst && x.src == e.src ==> x == e;
    hide Graph.WellFormed, Plan.ToProxy, Plan.Peekable;
  }

  /** A count makes the number of times and the counter larger by one; a check or a GET leaves
      both as they are. */
  lemma CounterMoves(plan: Plan, s: State, s': State, e: Edge, u: int, k: int, a: int, c: int, l: int)
    requires plan.g.WellFormed() && IsEdge(plan.g, e) && Moved(s, s', e, u, k, a, c, l) && u + k + c == 0 && 0 <= c <= 1
    requires CounterRight(plan, s, e.dst) && EdgeRight(plan, s, e) && (CanDouble(plan, e.src) || s.Runs(e.src) <= 1)
    requires forall w :: w in plan.g.deps[e.dst] && CanDouble(plan, w) && CanDouble(plan, e.src) ==> w == e.src
    requires c == 1 ==> s.uncounted[e] + s.taken[e] >= 1
    requires c == 0 ==> s.uncounted[e] + s.taken[e] == s'.uncounted[e] + s'.taken[e]
    ensures CounterRight(plan, s', e.dst)
    ensures Done(plan, s', e.dst) == Done(plan, s, e.dst) + if c == 1 && !CanDouble(plan, e.src) then {e.src} else {}
  {
    var t := e.dst;
    TimesMove(s, s', e, u, k, a, c, l);
    CountedOnce(plan, s, e, c);
    hide CanDouble, Graph.WellFormed, OnlyEdge, EdgeRight, Times;
    DoneMoves(plan, s, s', e, c);
    hide Done;
    if c == 1 && !CanDouble(plan, e.src) {
      assert |Done(plan, s', t)| == |Done(plan, s, t)| + 1;
    }
  }

  lemma TimesMove(s: State, s': State, e: Edge, u: int, k: int, a: int, c: int, l: int)
    requires Moved(s, s', e, u, k, a, c, l) && u + k + c == 0
    ensures s'.runs == s.runs && forall d :: s'.Runs(d) == s.Runs(d)
    ensures forall d: Task :: d != e.src ==>
              s'.uncounted[Edge(d, e.dst)] == s.uncounted[Edge(d, e.dst)] && s'.taken[Edge(d, e.dst)] == s.taken[Edge(d, e.dst)]
    ensures forall d: Task :: Times(s', d, e.dst) == Times(s, d, e.dst) + if d == e.src then c else 0
  {
    assert e == Edge(e.src, e.dst);
  }

  lemma CountedOnce(plan: Plan, s: State, e: Edge, c: int)
    requires plan.g.WellFormed() && IsEdge(plan.g, e) && EdgeRight(plan, s, e)
    requires c == 1 ==> s.uncounted[e] + s.taken[e] >= 1
    ensures c == 1 ==> e.src !in Done(plan, s, e.dst)
    ensures s.uncounted[e] + s.taken[e] <= s.Runs(e.src)
  {
    assert e == Edge(e.src, e.dst);
    DoneAreDeps(plan, s, e.dst);
    hide CanDouble, Done;
  }

  lemma DoneMoves(plan: Plan, s: State, s': State, e: Edge, c: int)
    requires plan.g.WellFormed() && IsEdge(plan.g, e) && 0 <= c <= 1
    requires forall d: Task :: d != e.src ==>
               s'.uncounted[Edge(d, e.dst)] == s.uncounted[Edge(d, e.dst)] && s'.taken[Edge(d, e.dst)] == s.taken[Edge(d, e.dst)]
    requires s'.uncounted[e] + s'.taken[e] + c == s.uncounted[e] + s.taken[e] <= s.Runs(e.src) && s'.runs == s.runs
    requires CanDouble(plan, e.src) || s.Runs(e.src) <= 1
    ensures Done(plan, s', e.dst) == Done(plan, s, e.dst) + if c == 1 && !CanDouble(plan, e.src) then {e.src} else {}
  {
    assert e == Edge(e.src, e.dst);
    hide CanDouble, Graph.WellFormed;
  }

  // What a counter tells, if it is right.

  lemma DoneWithin(plan: Plan, s: State, t: Task)
    requires plan.g.WellFormed() && t in plan.g.tasks
    ensures Done(plan, s, t) <= plan.g.deps[t] && |Done(plan, s, t)| <= |plan.g.deps[t]|
    ensures |Done(plan, s, t)| == |plan.g.deps[t]| ==> Done(plan, s, t) == plan.g.deps[t]
    ensures forall d :: d in plan.g.deps[t] && d !in Done(plan, s, t) ==> |Done(plan, s, t)| < |plan.g.deps[t]|
    ensures forall d :: d in plan.g.deps[t] && d !in Done(plan, s, t) && |Done(plan, s, t)| + 1 == |plan.g.deps[t]| ==>
              Done(plan, s, t) == plan.g.deps[t] - {d}
    ensures forall d, w :: d in plan.g.deps[t] && w in plan.g.deps[t] && d != w && d !in Done(plan, s, t) && w !in Done(plan, s, t) ==>
              |Done(plan, s, t)| + 2 <= |plan.g.deps[t]|
  {
    var done, deps := Done(plan, s, t), plan.g.deps[t];
    hide Done, CanDouble;
    assert done <= deps by { DoneAreDeps(plan, s, t); }
    SmallerSubset(done, deps);
    if |done| == |deps| { SubsetOfSameSize(done, deps); }
    forall d | d in deps && d !in done ensures |done| < |deps| && (|done| + 1 == |deps| ==> done == deps - {d}) {
      SmallerSubset(done, deps - {d});
      if |done| + 1 == |deps| { SubsetOfSameSize(done, deps - {d}); }
    }
    forall d, w | d in deps && w in deps && d != w && d !in done && w !in done ensures |done| + 2 <= |deps| {
      SmallerSubset(done, deps - {d} - {w});
    }
  }

  lemma DoneAreDeps(plan: Plan, s: State, t: Task)
    requires plan.g.WellFormed() && t in plan.g.tasks
    ensures Done(plan, s, t) <= plan.g.deps[t]
    ensures forall d :: d in Done(plan, s, t) ==> s.Runs(d) > 0 && !CanDouble(plan, d) && Edge(d, t) !in s.uncounted && Edge(d, t) !in s.taken
  {
    hide CanDouble;
  }

  /** A full counter means that every dependency was executed, and so does one that lacks
      only an edge that was not counted. */
  lemma FullMeansRan(plan: Plan, s: State, t: Task, missing: set<Task>)
    requires plan.g.WellFormed() && Harmless(plan) && Inv(plan, s) && t in plan.g.tasks && missing <= plan.g.deps[t] && |missing| <= 1
    requires s.Counter(t) + |missing| >= |plan.g.deps[t]| && CounterRight(plan, s, t)
    requires forall d :: d in missing ==> s.Runs(d) > 0 && d !in Done(plan, s, t)
    ensures forall d :: d in plan.g.deps[t] ==> s.Runs(d) > 0
  {
    hide CanDouble, EdgeRight, TaskRight;
    DoneWithin(plan, s, t);
    DoneAreDeps(plan, s, t);
    if w :| w in plan.g.deps[t] && CanDouble(plan, w) {
      hide Done;
      assert s.Runs(w) >= Times(s, w, t) && s.Runs(w) > 0;
      forall d | d in plan.g.deps[t] ensures s.Runs(d) > 0 {
        assert plan.g.HasEdge(w, t) && Bears(plan, w, t);
        if d != w { RanIsClaimed(plan, s, w); AboveRan(plan, s, d, w); }
      }
    } else {
      hide Done;
      forall d | d in plan.g.deps[t] ensures s.Runs(d) > 0 {
        if d !in Done(plan, s, t) {
          assert |missing| == 1;
          var m :| m in missing;
          assert missing == {m};
        }
      }
    }
  }

  // The counts of e's target after a step on e.

  /** e is an edge into t, and all is right with both before the step. */
  ghost predicate Before(plan: Plan, s: State, e: Edge)
    requires plan.g.WellFormed()
  {
    && Harmless(plan) && Inv(plan, s) && IsEdge(plan.g, e)
  }

  lemma BeforeOnce(plan: Plan, s: State, e: Edge)
    requires plan.g.WellFormed() && Before(plan, s, e)
    ensures CanDouble(plan, e.src) || s.Runs(e.src) <= 1
    ensures forall w :: w in plan.g.deps[e.dst] && CanDouble(plan, w) && CanDouble(plan, e.src) ==> w == e.src
    ensures EdgeRight(plan, s, e) && CounterRight(plan, s, e.dst) && ClaimsRight(plan, s, e.dst)
    ensures forall d :: plan.g.HasEdge(d, e.dst) && !CanDouble(plan, d) ==> s.Runs(d) <= 1
  {
    hide CanDouble, CounterRight, OneClaim;
    assert TaskRight(plan, s, e.src) && TaskRight(plan, s, e.dst);
    forall w | w in plan.g.deps[e.dst] && CanDouble(plan, w) && CanDouble(plan, e.src) ensures w == e.src {
      OneFeeds(plan, e.dst, w, e.src);
    }
    forall d | plan.g.HasEdge(d, e.dst) && !CanDouble(plan, d) ensures s.Runs(d) <= 1 {
      assert TaskRight(plan, s, d);
    }
  }

  /** Without a split edge into t, or another one that is counted twice, the counter cannot
      grow beyond the number of dependencies. */
  lemma CounterWithin(plan: Plan, s: State, t: Task)
    requires plan.g.WellFormed() && t in plan.g.tasks && CounterRight(plan, s, t) && !Fed(plan, t)
    ensures s.Counter(t) <= |plan.g.deps[t]|
    ensures forall d :: d in plan.g.deps[t] && d !in Done(plan, s, t) ==> s.Counter(t) < |plan.g.deps[t]|
  {
    DoneWithin(plan, s, t);
  }

  /** A split edge leads only into tasks none of whose dependencies is executed twice. */
  lemma FedIsUnsplit(plan: Plan, t: Task)
    requires plan.g.WellFormed() && Harmless(plan) && t in plan.g.tasks
    ensures Fed(plan, t) ==> !SplitInto(plan, t)
  {
    hide CanDouble;
    if Fed(plan, t) {
      var w :| w in plan.g.deps[t] && CanDouble(plan, w);
      assert plan.g.HasEdge(w, t) && Bears(plan, w, t);
    }
  }

  lemma SplitIsRare(plan: Plan, d: Task, t: Task)
    requires plan.g.WellFormed() && Harmless(plan) && plan.g.HasEdge(d, t) && SplitInto(plan, t)
    ensures !CanDouble(plan, d) && !Fed(plan, t)
  {
    FedIsUnsplit(plan, t);
    hide CanDouble, SplitInto;
  }

  lemma NotTwiceFed(plan: Plan, t: Task)
    requires plan.g.WellFormed() && t in plan.g.tasks && !CanDouble(plan, t)
    ensures Fed(plan, t) ==> !CheckedInto(plan, t)
    ensures |plan.g.deps[t]| <= 1 || forall a :: !Overlaps(plan, a, t)
  {
  }

  /** t is claimed once at most unless it can be claimed twice. */
  lemma AtMostOnce(plan: Plan, s: State, s': State, e: Edge)
    requires plan.g.WellFormed() && Before(plan, s, e) && OnlyEdge(s, s', e) && EdgeRight(plan, s', e)
    requires OneClaim(plan, e.dst) ==> s'.Claims(e.dst) <= 1
    ensures !CanDouble(plan, e.dst) ==> s'.Claims(e.dst) <= 1
  {
    var t := e.dst;
    if !CanDouble(plan, t) && !OneClaim(plan, t) {
      FedIsUnsplit(plan, t);
      NotTwiceFed(plan, t);
      BeforeOnce(plan, s, e);
      hide CanDouble, Bears;
      OnlyDependency(plan.g, e.src, t);
    }
  }

  lemma EdgeStaysRight(plan: Plan, s: State, s': State, e: Edge, u: int, k: int, a: int, c: int, l: int)
    requires plan.g.WellFormed() && IsEdge(plan.g, e) && EdgeRight(plan, s, e) && Moved(s, s', e, u, k, a, c, l)
    requires u + k + a <= 0 && l + u + a <= 0
    requires (a > 0 ==> plan.ToProxy(e.src, e.dst)) && (k > 0 ==> plan.Peekable(e.src, e.dst)) && u <= 0
    ensures EdgeRight(plan, s', e)
  {
    hide Plan.ToProxy, Plan.Peekable, Graph.WellFormed;
  }

  /** When a count or a check can claim t, no other check has. */
  lemma NoneTaken(plan: Plan, s: State, e: Edge)
    requires plan.g.WellFormed() && Before(plan, s, e) && e in s.uncounted && OneClaim(plan, e.dst)
    requires s.Counter(e.dst) + 1 >= |plan.g.deps[e.dst]|
    ensures !Taken(s, e.dst)
  {
    var t := e.dst;
    BeforeOnce(plan, s, e);
    if x :| x in s.taken && x.dst == t {
      assert EdgeRight(plan, s, x);
      hide CanDouble, Before, ClaimsRight;
      DoneWithin(plan, s, t);
      DoneAreDeps(plan, s, t);
    }
  }

  lemma SourceRan(plan: Plan, s: State, e: Edge)
    requires plan.g.WellFormed() && IsEdge(plan.g, e) && EdgeRight(plan, s, e) && (e in s.uncounted || e in s.taken || e in s.asked)
    ensures s.Runs(e.src) > 0 && (e in s.uncounted || e in s.taken ==> e.src !in Done(plan, s, e.dst))
  {
    assert e == Edge(e.src, e.dst);
    DoneAreDeps(plan, s, e.dst);
    hide CanDouble, Done;
  }

  /** Who claims t now: whoever counts or checks its last edge, when all dependencies have run. */
  lemma ClaimantsRan(plan: Plan, s: State, e: Edge)
    requires plan.g.WellFormed() && Before(plan, s, e) && e in s.uncounted && s.Counter(e.dst) + 1 >= |plan.g.deps[e.dst]|
    ensures forall d :: d in plan.g.deps[e.dst] ==> s.Runs(d) > 0
  {
    BeforeOnce(plan, s, e);
    SourceRan(plan, s, e);
    hide CanDouble, ClaimsRight, EdgeRight;
    FullMeansRan(plan, s, e.dst, {e.src});
  }

  lemma CountKeepsClaims(plan: Plan, s: State, s': State, e: Edge)
    requires plan.g.WellFormed() && Before(plan, s, e) && e in s.uncounted && s'.asked == s.asked && s'.taken == s.taken
    requires Moved(s, s', e, -1, 0, 0, 1, Won(plan, s, e.dst, 1)) && EdgeRight(plan, s', e)
    ensures ClaimsRight(plan, s', e.dst)
  {
    var t := e.dst;
    BeforeOnce(plan, s, e);
    if s.Counter(t) + 1 == |plan.g.deps[t]| {
      ClaimantsRan(plan, s, e);
      if OneClaim(plan, t) { NoneTaken(plan, s, e); }
    }
    AtMostOnce(plan, s, s', e);
    hide CanDouble, Before, EdgeRight, CounterRight, OneClaim, OnlyEdge;
    assert Asked(s', t) == Asked(s, t) && Taken(s', t) == Taken(s, t);
    assert forall d :: s'.Runs(d) == s.Runs(d) by { SameRuns(s, s', e); }
  }

  lemma SameRuns(s: State, s': State, e: Edge)
    requires OnlyEdge(s, s', e)
    ensures forall d :: s'.Runs(d) == s.Runs(d)
  {
  }

  lemma CheckKeepsClaims(plan: Plan, s: State, s': State, e: Edge)
    requires plan.g.WellFormed() && Before(plan, s, e) && e in s.uncounted && s.Counter(e.dst) + 1 == |plan.g.deps[e.dst]|
    requires Moved(s, s', e, -1, 1, 0, 0, 1) && EdgeRight(plan, s', e)
    ensures ClaimsRight(plan, s', e.dst)
  {
    var t := e.dst;
    BeforeOnce(plan, s, e);
    ClaimantsRan(plan, s, e);
    if OneClaim(plan, t) { NoneTaken(plan, s, e); }
    AtMostOnce(plan, s, s', e);
    assert e in s'.taken;
    hide CanDouble, Before, EdgeRight, CounterRight, OneClaim, OnlyEdge;
    assert Taken(s', t);
    assert forall d :: s'.Runs(d) == s.Runs(d) by { SameRuns(s, s', e); }
  }

  lemma BookkeepKeepsClaims(plan: Plan, s: State, s': State, e: Edge)
    requires plan.g.WellFormed() && Before(plan, s, e) && e in s.taken && s'.asked == s.asked && s'.taken == s.taken - multiset{e}
    requires Moved(s, s', e, 0, -1, 0, 1, 0)
    ensures ClaimsRight(plan, s', e.dst)
  {
    BeforeOnce(plan, s, e);
    hide CanDouble, Before, EdgeRight, CounterRight, OneClaim, OnlyEdge;
    assert Taken(s, e.dst) && Asked(s', e.dst) == Asked(s, e.dst);
    assert forall d :: s'.Runs(d) == s.Runs(d) by { SameRuns(s, s', e); }
  }

  /** The proxy is not the last to count a -> t if some other dependency of t waits for it. */
  lemma NotTheLast(plan: Plan, s: State, e: Edge)
    requires plan.g.WellFormed() && Before(plan, s, e) && plan.ToProxy(e.src, e.dst) && OneClaim(plan, e.dst)
    ensures e in s.uncounted ==> s.Counter(e.dst) + 1 < |plan.g.deps[e.dst]|
    ensures e in s.asked ==> s.Counter(e.dst) < |plan.g.deps[e.dst]|
  {
    var a, t := e.src, e.dst;
    assert e == Edge(a, t) && SplitInto(plan, t) && !Overlaps(plan, a, t);
    var c :| c in plan.g.deps[t] && c != a && Waits(plan, a, c);
    assert WaitRight(plan, s, a, c);
    FedIsUnsplit(plan, t);
    BeforeOnce(plan, s, e);
    DoneWithin(plan, s, t);
    DoneAreDeps(plan, s, t);
    SplitIsRare(plan, a, t);
    hide CanDouble, Waits, Inv, ClaimsRight, Done, EdgeRight;
  }

  lemma IncrKeepsClaims(plan: Plan, s: State, s': State, e: Edge)
    requires plan.g.WellFormed() && Before(plan, s, e) && plan.ToProxy(e.src, e.dst) && s'.taken == s.taken && e in s.uncounted
    requires Moved(s, s', e, -1, 0, 1, 1, 0)
    ensures ClaimsRight(plan, s', e.dst)
  {
    BeforeOnce(plan, s, e);
    if OneClaim(plan, e.dst) { NotTheLast(plan, s, e); }
    assert e in s'.asked;
    hide CanDouble, Before, EdgeRight, CounterRight, OneClaim, OnlyEdge;
    assert Asked(s', e.dst) && Taken(s', e.dst) == Taken(s, e.dst);
    assert forall d :: s'.Runs(d) == s.Runs(d) by { SameRuns(s, s', e); }
  }

  lemma GetKeepsClaims(plan: Plan, s: State, s': State, e: Edge)
    requires plan.g.WellFormed() && Before(plan, s, e) && e in s.asked && s'.taken == s.taken
    requires Moved(s, s', e, 0, 0, -1, 0, Won(plan, s, e.dst, 0)) && EdgeRight(plan, s', e)
    ensures ClaimsRight(plan, s', e.dst)
  {
    var t := e.dst;
    BeforeOnce(plan, s, e);
    AskedIsSplit(plan, s, e);
    assert SplitInto(plan, t);
    if OneClaim(plan, t) { NotTheLast(plan, s, e); }
    FedIsUnsplit(plan, t);
    CounterWithin(plan, s, t);
    AtMostOnce(plan, s, s', e);
    hide CanDouble, EdgeRight, OneClaim, OnlyEdge, SplitInto;
    if s.Counter(t) == |plan.g.deps[t]| { GetMeansRan(plan, s, e); }
    hide Before, CounterRight;
    assert Taken(s', t) == Taken(s, t);
    assert forall d :: s'.Runs(d) == s.Runs(d) by { SameRuns(s, s', e); }
  }

  lemma GetMeansRan(plan: Plan, s: State, e: Edge)
    requires plan.g.WellFormed() && Before(plan, s, e) && s.Counter(e.dst) == |plan.g.deps[e.dst]|
    ensures forall d :: d in plan.g.deps[e.dst] ==> s.Runs(d) > 0
  {
    BeforeOnce(plan, s, e);
    hide CanDouble, EdgeRight, ClaimsRight;
    FullMeansRan(plan, s, e.dst, {});
  }

  /** What a step on e has to keep for e and its target. */
  ghost predicate KeepsOwn(plan: Plan, s: State, s': State, e: Edge)
    requires plan.g.WellFormed() && IsEdge(plan.g, e)
  {
    && OnlyEdge(s, s', e) && EdgeRight(plan, s', e) && CounterRight(plan, s', e.dst) && ClaimsRight(plan, s', e.dst)
    && s'.uncounted[e] + s'.asked[e] <= s.uncounted[e] + s.asked[e]
  }

  lemma CountKeepsOwn(plan: Plan, s: State, e: Edge)
    requires plan.g.WellFormed() && Before(plan, s, e) && Enabled(plan, s, Count(e))
    ensures KeepsOwn(plan, s, Apply(plan, s, Count(e)), e)
  {
    var s' := Apply(plan, s, Count(e));
    assert s'.asked == s.asked && s'.taken == s.taken && e in s.uncounted;
    CountMoves(plan, s, e);
    BeforeOnce(plan, s, e);
    hide Apply, Enabled, CanDouble, Before, EdgeRight, CounterRight, ClaimsRight, OnlyEdge;
    CounterMoves(plan, s, s', e, -1, 0, 0, 1, Won(plan, s, e.dst, 1));
    EdgeStaysRight(plan, s, s', e, -1, 0, 0, 1, Won(plan, s, e.dst, 1));
    CountKeepsClaims(plan, s, s', e);
  }

  lemma CheckKeepsOwn(plan: Plan, s: State, e: Edge)
    requires plan.g.WellFormed() && Before(plan, s, e) && Enabled(plan, s, Check(e))
    ensures KeepsOwn(plan, s, Apply(plan, s, Check(e)), e)
  {
    var s' := Apply(plan, s, Check(e));
    assert e in s.uncounted && plan.Peekable(e.src, e.dst) && s.Counter(e.dst) + 1 == |plan.g.deps[e.dst]|;
    CheckMoves(plan, s, e);
    BeforeOnce(plan, s, e);
    hide Apply, Enabled, CanDouble, Before, EdgeRight, CounterRight, ClaimsRight, OnlyEdge;
    CounterMoves(plan, s, s', e, -1, 1, 0, 0, 1);
    EdgeStaysRight(plan, s, s', e, -1, 1, 0, 0, 1);
    CheckKeepsClaims(plan, s, s', e);
  }

  lemma BookkeepKeepsOwn(plan: Plan, s: State, e: Edge)
    requires plan.g.WellFormed() && Before(plan, s, e) && Enabled(plan, s, Bookkeep(e))
    ensures KeepsOwn(plan, s, Apply(plan, s, Bookkeep(e)), e)
  {
    var s' := Apply(plan, s, Bookkeep(e));
    assert s'.asked == s.asked && s'.taken == s.taken - multiset{e} && e in s.taken;
    BookkeepMoves(plan, s, e);
    BeforeOnce(plan, s, e);
    hide Apply, Enabled, CanDouble, Before, EdgeRight, CounterRight, ClaimsRight, OnlyEdge;
    CounterMoves(plan, s, s', e, 0, -1, 0, 1, 0);
    EdgeStaysRight(plan, s, s', e, 0, -1, 0, 1, 0);
    BookkeepKeepsClaims(plan, s, s', e);
  }

  lemma IncrKeepsOwn(plan: Plan, s: State, e: Edge)
    requires plan.g.WellFormed() && Before(plan, s, e) && Enabled(plan, s, Incr(e))
    ensures KeepsOwn(plan, s, Apply(plan, s, Incr(e)), e)
  {
    var s' := Apply(plan, s, Incr(e));
    assert s'.taken == s.taken && e in s.uncounted && plan.ToProxy(e.src, e.dst);
    IncrMoves(plan, s, e);
    BeforeOnce(plan, s, e);
    hide Apply, Enabled, CanDouble, Before, EdgeRight, CounterRight, ClaimsRight, OnlyEdge;
    CounterMoves(plan, s, s', e, -1, 0, 1, 1, 0);
    EdgeStaysRight(plan, s, s', e, -1, 0, 1, 1, 0);
    IncrKeepsClaims(plan, s, s', e);
  }

  lemma GetKeepsOwn(plan: Plan, s: State, e: Edge)
    requires plan.g.WellFormed() && Before(plan, s, e) && Enabled(plan, s, Get(e))
    ensures KeepsOwn(plan, s, Apply(plan, s, Get(e)), e)
  {
    var s' := Apply(plan, s, Get(e));
    assert s'.taken == s.taken && e in s.asked;
    GetMoves(plan, s, e);
    BeforeOnce(plan, s, e);
    AskedIsSplit(plan, s, e);
    hide Apply, Enabled, CanDouble, Before, EdgeRight, CounterRight, ClaimsRight, OnlyEdge;
    CounterMoves(plan, s, s', e, 0, 0, -1, 0, Won(plan, s, e.dst, 0));
    EdgeStaysRight(plan, s, s', e, 0, 0, -1, 0, Won(plan, s, e.dst, 0));
    GetKeepsClaims(plan, s, s', e);
  }

  lemma AskedIsSplit(plan: Plan, s: State, e: Edge)
    requires plan.g.WellFormed() && EdgeRight(plan, s, e) && e in s.asked
    ensures plan.ToProxy(e.src, e.dst)
  {
  }

  lemma EdgeStepKeepsInv(plan: Plan, s: State, s': State, e: Edge)
    requires plan.g.WellFormed() && Before(plan, s, e) && KeepsOwn(plan, s, s', e)
    ensures Inv(plan, s')
  {
    hide EdgeRight, CounterRight, ClaimsRight, WaitRight;
    forall x ensures EdgeRight(plan, s', x) {
      assert EdgeRight(plan, s, x);
      hide OnlyEdge, Before;
      if x != e { OtherEdgeRight(plan, s, s', e, x); }
    }
    forall a, c ensures WaitRight(plan, s', a, c) {
      assert WaitRight(plan, s, a, c);
      StillWaitRight(plan, s, s', e, a, c);
    }
    forall t ensures TaskRight(plan, s', t) {
      assert TaskRight(plan, s, t);
      hide OnlyEdge, Before;
      if t in plan.g.tasks && t != e.dst { OtherTaskRight(plan, s, s', e, t); }
    }
  }

  lemma StillWaitRight(plan: Plan, s: State, s': State, e: Edge, a: Task, c: Task)
    requires plan.g.WellFormed() && WaitRight(plan, s, a, c) && OnlyEdge(s, s', e)
    requires s'.uncounted[e] + s'.asked[e] <= s.uncounted[e] + s.asked[e]
    ensures WaitRight(plan, s', a, c)
  {
    hide CanDouble, Waits, Plan.ToProxy, Graph.WellFormed;
    if NoneLeftOf(plan, s, a) {
      forall x | plan.g.HasEdge(a, x) && plan.ToProxy(a, x) ensures s'.uncounted[Edge(a, x)] == 0 && s'.asked[Edge(a, x)] == 0 {
        if Edge(a, x) != e { assert s'.uncounted[Edge(a, x)] == s.uncounted[Edge(a, x)]; }
      }
    }
  }

  lemma StepKeepsInv(plan: Plan, s: State, step: Step)
    requires plan.g.WellFormed() && Harmless(plan) && Inv(plan, s) && Enabled(plan, s, step)
    ensures Inv(plan, Apply(plan, s, step))
  {
    hide Inv, Harmless, Apply, KeepsOwn;
    match step {
      case Execute(t) => ExecuteKeepsInv(plan, s, t);
      case Count(e) => CountKeepsOwn(plan, s, e); EdgeStepKeepsInv(plan, s, Apply(plan, s, step), e);
      case Check(e) => CheckKeepsOwn(plan, s, e); EdgeStepKeepsInv(plan, s, Apply(plan, s, step), e);
      case Bookkeep(e) => BookkeepKeepsOwn(plan, s, e); EdgeStepKeepsInv(plan, s, Apply(plan, s, step), e);
      case Incr(e) => IncrKeepsOwn(plan, s, e); EdgeStepKeepsInv(plan, s, Apply(plan, s, step), e);
      case Get(e) => GetKeepsOwn(plan, s, e); EdgeStepKeepsInv(plan, s, Apply(plan, s, step), e);
    }
  }

  lemma {:induction false} RunKeepsInv(plan: Plan, s: State, steps: seq<Step>)
    requires plan.g.WellFormed() && Harmless(plan) && Inv(plan, s) && CanRun(plan, s, steps)
    ensures Inv(plan, RunFrom(plan, s, steps))
    decreases |steps|
  {
    hide Inv, Apply, Enabled, Harmless;
    if steps != [] {
      StepKeepsInv(plan, s, steps[0]);
      RunKeepsInv(plan, Apply(plan, s, steps[0]), steps[1..]);
    }
  }

  lemma IsTaken(s: State, e: Edge)
    requires e in s.taken
    ensures Taken(s, e.dst)
  {
  }

  /** If all dependencies ran and were counted, the counter is full. */
  lemma AllCounted(plan: Plan, s: State, t: Task)
    requires plan.g.WellFormed() && t in plan.g.tasks && LostTask(plan.g, s, t) && TaskRight(plan, s, t)
    requires Harmless(plan)
    ensures s.Counter(t) >= |plan.g.deps[t]|
  {
    forall d | d in plan.g.deps[t] ensures Edge(d, t) !in s.taken {
      if Edge(d, t) in s.taken { IsTaken(s, Edge(d, t)); }
    }
    if w :| w in plan.g.deps[t] && CanDouble(plan, w) {
      forall d | d in plan.g.deps[t] && CanDouble(plan, d) ensures d == w { OneFeeds(plan, t, w, d); }
      hide CanDouble;
      assert Done(plan, s, t) == plan.g.deps[t] - {w};
      assert Times(s, w, t) == s.Runs(w);
    } else {
      hide CanDouble;
      assert Done(plan, s, t) == plan.g.deps[t];
    }
  }

  lemma InvIsSafe(plan: Plan, s: State, t: Task)
    requires plan.g.WellFormed() && Harmless(plan) && Inv(plan, s) && t in plan.g.tasks
    ensures !Early(plan.g, s, t) && !LostTask(plan.g, s, t)
  {
    assert TaskRight(plan, s, t);
    if LostTask(plan.g, s, t) {
      AllCounted(plan, s, t);
      var d := AskedBy(plan, s, t);
    }
  }

  lemma AskedBy(plan: Plan, s: State, t: Task) returns (d: Task)
    requires plan.g.WellFormed() && Inv(plan, s) && t in plan.g.tasks && Asked(s, t)
    ensures d in plan.g.deps[t] && Edge(d, t) in s.asked
  {
    var e :| e in s.asked && e.dst == t;
    assert EdgeRight(plan, s, e) && e == Edge(e.src, t);
    d := e.src;
  }

  lemma HarmlessIsSafe(plan: Plan)
    requires plan.g.WellFormed() && Harmless(plan)
    ensures Safe(plan)
  {
    forall s | Reachable(plan, s) ensures SafeState(plan.g, s) {
      var steps :| CanRun(plan, Init(plan), steps) && RunFrom(plan, Init(plan), steps) == s;
      InitInv(plan);
      hide Inv, Init, Harmless, Early, LostTask;
      RunKeepsInv(plan, Init(plan), steps);
      forall t | t in plan.g.tasks ensures !Early(plan.g, s, t) && !LostTask(plan.g, s, t) {
        InvIsSafe(plan, s, t);
      }
    }
  }

  /** Where for each count of the proxy some other dependency waits for that very message, nothing is
      claimed twice, and no harm is done. */
  lemma WaitingIsSafe(plan: Plan)
    requires plan.g.WellFormed()
    requires forall a, t {:trigger Overlaps(plan, a, t)} :: t in plan.g.tasks && |plan.g.deps[t]| >= 2 ==> !Overlaps(plan, a, t)
    ensures Safe(plan) && forall t :: !CanDouble(plan, t)
  {
    forall t ensures !CanDouble(plan, t) { NoneDoubles(plan, t); }
    hide CanDouble;
    HarmlessIsSafe(plan);
  }

  lemma {:induction false} NoneDoubles(plan: Plan, t: Task)
    requires plan.g.WellFormed()
    requires forall a, t {:trigger Overlaps(plan, a, t)} :: t in plan.g.tasks && |plan.g.deps[t]| >= 2 ==> !Overlaps(plan, a, t)
    ensures !CanDouble(plan, t)
    decreases if t in plan.g.tasks then plan.g.level[t] else 0
  {
    if t in plan.g.tasks {
      forall d | d in plan.g.deps[t] ensures !CanDouble(plan, d) { NoneDoubles(plan, d); }
      hide Overlaps;
    }
  }
}
