/** Plans under which splitting the proxy's counts does harm in a run in which every task waits
    until all out-edges of its dependencies have been counted. */
module SplitHarms {
  import opened Graphs
  import opened Plans
  import opened RedisBits
  import opened Schedules
  import opened SplitCounters

  // ---- Runs in which tasks wait for the counts of their dependencies ---------

  /** No dependency of t has an edge left to count. */
  ghost predicate Patient(plan: Plan, s: State, step: Step)
    requires plan.g.WellFormed()
  {
    step.Execute? ==> forall d, x :: plan.g.HasEdge(d, step.t) && plan.g.HasEdge(d, x) ==>
      var e := Edge(d, x); s.uncounted[e] == 0 && s.taken[e] == 0 && s.asked[e] == 0
  }

  ghost predicate LeadsTo(plan: Plan, s: State, steps: seq<Step>, s': State)
    requires plan.g.WellFormed()
    decreases |steps|
  {
    if steps == [] then s' == s
    else Enabled(plan, s, steps[0]) && Patient(plan, s, steps[0]) && LeadsTo(plan, Apply(plan, s, steps[0]), steps[1..], s')
  }

  /** Some such run leads to s. */
  ghost predicate InOrder(plan: Plan, s: State)
    requires plan.g.WellFormed()
  {
    exists steps :: LeadsTo(plan, Init(plan), steps, s)
  }

  ghost predicate SafeInOrder(plan: Plan)
    requires plan.g.WellFormed()
  {
    forall s :: InOrder(plan, s) ==> SafeState(plan.g, s)
  }

  lemma {:induction false} LeadsToRuns(plan: Plan, s: State, steps: seq<Step>, s': State)
    requires plan.g.WellFormed() && LeadsTo(plan, s, steps, s')
    ensures CanRun(plan, s, steps) && RunFrom(plan, s, steps) == s'
    decreases |steps|
  {
    hide Apply, Enabled, Patient;
    if steps != [] { LeadsToRuns(plan, Apply(plan, s, steps[0]), steps[1..], s'); }
  }

  /** These are runs of the machine. */
  lemma InOrderReachable(plan: Plan, s: State)
    requires plan.g.WellFormed() && InOrder(plan, s)
    ensures Reachable(plan, s)
  {
    hide Init;
    var steps :| LeadsTo(plan, Init(plan), steps, s);
    LeadsToRuns(plan, Init(plan), steps, s);
  }

  lemma {:induction false} LeadsToMore(plan: Plan, s: State, steps: seq<Step>, s': State, step: Step)
    requires plan.g.WellFormed() && LeadsTo(plan, s, steps, s') && Enabled(plan, s', step) && Patient(plan, s', step)
    ensures LeadsTo(plan, s, steps + [step], Apply(plan, s', step))
    decreases |steps|
  {
    hide Apply, Enabled, Patient;
    if steps == [] {
      assert [step][1..] == [];
      assert LeadsTo(plan, Apply(plan, s', step), [], Apply(plan, s', step));
    } else {
      LeadsToMore(plan, Apply(plan, s, steps[0]), steps[1..], s', step);
      assert (steps + [step])[1..] == steps[1..] + [step];
    }
  }

  lemma OneStep(plan: Plan, s: State, step: Step)
    requires plan.g.WellFormed() && InOrder(plan, s) && Enabled(plan, s, step) && Patient(plan, s, step)
    ensures InOrder(plan, Apply(plan, s, step))
  {
    hide Apply, Enabled, Patient, Init;
    var steps :| LeadsTo(plan, Init(plan), steps, s);
    LeadsToMore(plan, Init(plan), steps, s, step);
  }

  // ---- Counting --------------------------------------------------------------

  lemma AskOne(plan: Plan, s: State, e: Edge) returns (s': State)
    requires plan.g.WellFormed() && InOrder(plan, s) && IsEdge(plan.g, e) && e in s.uncounted && plan.ToProxy(e.src, e.dst)
    ensures InOrder(plan, s') && Moved(s, s', e, -1, 0, 1, 1, 0)
  {
    hide InOrder;
    OneStep(plan, s, Incr(e));
    IncrMoves(plan, s, e);
    s' := Apply(plan, s, Incr(e));
  }

  lemma HearOne(plan: Plan, s: State, e: Edge) returns (s': State)
    requires plan.g.WellFormed() && InOrder(plan, s) && IsEdge(plan.g, e) && e in s.asked
    ensures InOrder(plan, s') && Moved(s, s', e, 0, 0, -1, 0, Won(plan, s, e.dst, 0))
  {
    hide InOrder;
    OneStep(plan, s, Get(e));
    GetMoves(plan, s, e);
    s' := Apply(plan, s, Get(e));
  }

  /** An edge is counted, whoever does it, without anybody in between. */
  lemma CountOne(plan: Plan, s: State, e: Edge) returns (s': State)
    requires plan.g.WellFormed() && InOrder(plan, s) && IsEdge(plan.g, e) && e in s.uncounted
    ensures InOrder(plan, s') && Moved(s, s', e, -1, 0, 0, 1, Won(plan, s, e.dst, 1))
  {
    hide InOrder, Plan.ToProxy;
    if plan.ToProxy(e.src, e.dst) {
      var s1 := AskOne(plan, s, e);
      s' := HearOne(plan, s1, e);
    } else {
      OneStep(plan, s, Count(e));
      CountMoves(plan, s, e);
      s' := Apply(plan, s, Count(e));
    }
  }

  /** From s to s', the edges from z to xs have been counted once each. */
  ghost predicate CountedOut(plan: Plan, s: State, s': State, z: Task, xs: set<Task>)
    requires plan.g.WellFormed()
  {
    && s'.runs == s.runs
    && (forall e: Edge {:trigger s'.uncounted[e]} :: s'.uncounted[e] + (if e.src == z && e.dst in xs then 1 else 0) == s.uncounted[e])
    && (forall e: Edge {:trigger s'.taken[e]} {:trigger s'.asked[e]} :: s'.taken[e] == s.taken[e] && s'.asked[e] == s.asked[e])
    && (forall x: Task {:trigger s'.Counter(x)} {:trigger s'.Claims(x)} ::
          && s'.Counter(x) == s.Counter(x) + (if x in xs then 1 else 0) && s'.Claims(x) >= s.Claims(x)
          && (x in xs && x in plan.g.tasks && s'.Counter(x) == |plan.g.deps[x]| ==> s'.Claims(x) > 0))
  }

  lemma CountedOneOut(plan: Plan, s: State, s1: State, z: Task, x: Task)
    requires plan.g.WellFormed() && x in plan.g.tasks && Moved(s, s1, Edge(z, x), -1, 0, 0, 1, Won(plan, s, x, 1))
    ensures CountedOut(plan, s, s1, z, {x})
  {
    hide Graph.WellFormed;
    forall e: Edge ensures s1.uncounted[e] + (if e.src == z && e.dst in {x} then 1 else 0) == s.uncounted[e] {
      assert e == Edge(e.src, e.dst);
    }
    forall e: Edge ensures s1.taken[e] == s.taken[e] && s1.asked[e] == s.asked[e] {
      assert e == Edge(z, x) || e != Edge(z, x);
    }
  }

  lemma CountedMoreOut(plan: Plan, s: State, s1: State, s': State, z: Task, xs: set<Task>, ys: set<Task>)
    requires plan.g.WellFormed() && CountedOut(plan, s, s1, z, xs) && CountedOut(plan, s1, s', z, ys) && xs !! ys
    ensures CountedOut(plan, s, s', z, xs + ys)
  {
    hide Graph.WellFormed;
  }

  lemma {:induction false} CountOut(plan: Plan, s: State, z: Task, xs: set<Task>) returns (s': State)
    requires plan.g.WellFormed() && InOrder(plan, s)
    requires forall x :: x in xs ==> plan.g.HasEdge(z, x) && Edge(z, x) in s.uncounted
    ensures InOrder(plan, s') && CountedOut(plan, s, s', z, xs)
    decreases |xs|
  {
    hide InOrder;
    if xs == {} {
      s' := s;
    } else {
      var x :| x in xs;
      assert IsEdge(plan.g, Edge(z, x));
      var s1 := CountOne(plan, s, Edge(z, x));
      CountedOneOut(plan, s, s1, z, x);
      forall y | y in xs - {x} ensures plan.g.HasEdge(z, y) && Edge(z, y) in s1.uncounted {
        assert s1.uncounted[Edge(z, y)] == s.uncounted[Edge(z, y)];
      }
      s' := CountOut(plan, s1, z, xs - {x});
      CountedMoreOut(plan, s, s1, s', z, {x}, xs - {x});
      assert {x} + (xs - {x}) == xs;
    }
  }

  // ---- Running tasks one after the other -------------------------------------

  ghost predicate RunsAre(s: State, done: set<Task>, twice: set<Task>) {
    forall x {:trigger s.Runs(x)} :: s.Runs(x) == (if x in done then 1 else 0) + (if x in twice then 1 else 0)
  }

  ghost predicate EdgesAre(plan: Plan, s: State, done: set<Task>, held: set<Task>)
    requires plan.g.WellFormed()
  {
    forall e {:trigger s.uncounted[e]} {:trigger s.taken[e]} {:trigger s.asked[e]} :: IsEdge(plan.g, e) ==>
      s.uncounted[e] == (if e.src in held && e.src in done then 1 else 0) && s.taken[e] == 0 && s.asked[e] == 0
  }

  ghost predicate CounterIs(plan: Plan, s: State, done: set<Task>, twice: set<Task>, held: set<Task>, z: Task)
    requires plan.g.WellFormed() && z in plan.g.tasks
  {
    && s.Counter(z) == |plan.g.deps[z] * (done - held)| + |plan.g.deps[z] * twice|
    && (s.Counter(z) >= |plan.g.deps[z]| ==> s.Claims(z) > 0)
  }

  /** `done` have run, those of `twice` twice; all their out-edges are counted, but those of `held`. */
  ghost predicate Tidy(plan: Plan, s: State, done: set<Task>, twice: set<Task>, held: set<Task>)
    requires plan.g.WellFormed()
  {
    && InOrder(plan, s) && done <= plan.g.tasks && twice <= done && twice !! held
    && RunsAre(s, done, twice) && EdgesAre(plan, s, done, held)
    && (forall z {:trigger CounterIs(plan, s, done, twice, held, z)} :: z in plan.g.tasks ==> CounterIs(plan, s, done, twice, held, z))
  }

  lemma InitCounter(plan: Plan, held: set<Task>, z: Task)
    requires plan.g.WellFormed() && z in plan.g.tasks
    ensures CounterIs(plan, Init(plan), {}, {}, held, z)
  {
    assert plan.g.deps[z] * ({} - held) == {} && plan.g.deps[z] * {} == {};
  }

  lemma TidyStart(plan: Plan, held: set<Task>) returns (s: State)
    requires plan.g.WellFormed()
    ensures Tidy(plan, s, {}, {}, held)
  {
    s := Init(plan);
    assert LeadsTo(plan, s, [], s);
    assert RunsAre(s, {}, {}) && EdgesAre(plan, s, {}, held);
    hide LeadsTo, RunsAre, EdgesAre, CounterIs, Init;
    forall z | z in plan.g.tasks ensures CounterIs(plan, s, {}, {}, held, z) { InitCounter(plan, held, z); }
  }

  /** A task whose dependencies have all run and been counted has been claimed, or is lost. */
  lemma ClaimedOrLost(plan: Plan, s: State, done: set<Task>, twice: set<Task>, held: set<Task>, z: Task)
    requires plan.g.WellFormed() && Tidy(plan, s, done, twice, held) && z in plan.g.tasks && plan.g.deps[z] <= done - held
    ensures SafeState(plan.g, s) ==> s.Claims(z) > 0
  {
    hide InOrder;
    forall d | d in plan.g.deps[z] ensures s.Runs(d) > 0 && Edge(d, z) !in s.uncounted && Edge(d, z) !in s.asked {
      assert IsEdge(plan.g, Edge(d, z)) && s.uncounted[Edge(d, z)] == 0 && s.asked[Edge(d, z)] == 0;
    }
    hide Tidy;
    if s.Claims(z) == 0 { assert LostTask(plan.g, s, z); }
  }

  /** From s to s1, z has been executed. */
  ghost predicate JustRan(plan: Plan, s: State, s1: State, z: Task)
    requires plan.g.WellFormed()
  {
    && s1.counters == s.counters && s1.claims == s.claims && s1.taken == s.taken && s1.asked == s.asked
    && (forall x {:trigger s1.Runs(x)} :: s1.Runs(x) == s.Runs(x) + if x == z then 1 else 0)
    && (forall e {:trigger s1.uncounted[e]} :: s1.uncounted[e] == s.uncounted[e] + if IsEdge(plan.g, e) && e.src == z then 1 else 0)
  }

  lemma ExecuteOnce(plan: Plan, s: State, z: Task) returns (s': State)
    requires plan.g.WellFormed() && InOrder(plan, s) && Enabled(plan, s, Execute(z)) && Patient(plan, s, Execute(z))
    ensures InOrder(plan, s') && JustRan(plan, s, s', z)
  {
    hide InOrder;
    OneStep(plan, s, Execute(z));
    s' := Apply(plan, s, Execute(z));
    forall e ensures s'.uncounted[e] == s.uncounted[e] + if IsEdge(plan.g, e) && e.src == z then 1 else 0 {
      assert e in plan.g.OutEdges(z) <==> IsEdge(plan.g, e) && e.src == z by { assert e == Edge(e.src, e.dst); }
    }
  }

  lemma CanExecute(plan: Plan, s: State, done: set<Task>, twice: set<Task>, held: set<Task>, z: Task)
    requires plan.g.WellFormed() && Tidy(plan, s, done, twice, held) && z in plan.g.tasks && plan.g.deps[z] <= done - held && z !in done
    requires s.Claims(z) > 0
    ensures Enabled(plan, s, Execute(z)) && Patient(plan, s, Execute(z))
  {
    hide InOrder;
    forall d, x | plan.g.HasEdge(d, z) && plan.g.HasEdge(d, x)
      ensures s.uncounted[Edge(d, x)] == 0 && s.taken[Edge(d, x)] == 0 && s.asked[Edge(d, x)] == 0 && s.Runs(d) > 0
    {
      assert IsEdge(plan.g, Edge(d, x));
    }
    assert s.Runs(z) == 0;
  }

  /** z is run, and its out-edges are counted unless it is held. */
  lemma RunOne(plan: Plan, s: State, done: set<Task>, twice: set<Task>, held: set<Task>, z: Task) returns (s': State)
    requires plan.g.WellFormed() && Tidy(plan, s, done, twice, held) && z in plan.g.tasks && plan.g.deps[z] <= done - held && z !in done
    requires s.Claims(z) > 0
    ensures Tidy(plan, s', done + {z}, twice, held)
  {
    CanExecute(plan, s, done, twice, held, z);
    hide InOrder, Enabled, Patient;
    var s1 := ExecuteOnce(plan, s, z);
    if z in held {
      s' := s1;
      RanHeld(plan, s, s', done, twice, held, z);
    } else {
      forall x | x in plan.g.Downstream(z) ensures plan.g.HasEdge(z, x) && Edge(z, x) in s1.uncounted {
        assert IsEdge(plan.g, Edge(z, x)) && s1.uncounted[Edge(z, x)] >= 1;
      }
      hide Tidy;
      s' := CountOut(plan, s1, z, plan.g.Downstream(z));
      RanCounted(plan, s, s1, s', done, twice, held, z);
    }
  }

  lemma RunsMore(plan: Plan, s: State, s1: State, s': State, done: set<Task>, twice: set<Task>, z: Task)
    requires plan.g.WellFormed() && JustRan(plan, s, s1, z) && s'.runs == s1.runs && RunsAre(s, done, twice) && z !in done
    ensures RunsAre(s', done + {z}, twice)
  {
    forall x ensures s'.Runs(x) == (if x in done + {z} then 1 else 0) + (if x in twice then 1 else 0) {
      assert s1.Runs(x) == s.Runs(x) + if x == z then 1 else 0;
    }
  }

  lemma EdgesHeld(plan: Plan, s: State, s': State, done: set<Task>, held: set<Task>, z: Task)
    requires plan.g.WellFormed() && JustRan(plan, s, s', z) && EdgesAre(plan, s, done, held) && z in held && z !in done
    ensures EdgesAre(plan, s', done + {z}, held)
  {
    hide Graph.WellFormed, IsEdge;
  }

  lemma CounterHeld(plan: Plan, s: State, s': State, done: set<Task>, twice: set<Task>, held: set<Task>, z: Task, x: Task)
    requires plan.g.WellFormed() && x in plan.g.tasks && CounterIs(plan, s, done, twice, held, x) && JustRan(plan, s, s', z) && z in held
    ensures CounterIs(plan, s', done + {z}, twice, held, x)
  {
    assert done + {z} - held == done - held;
    assert s'.Counter(x) == s.Counter(x) && s'.Claims(x) == s.Claims(x);
  }

  lemma RanHeld(plan: Plan, s: State, s': State, done: set<Task>, twice: set<Task>, held: set<Task>, z: Task)
    requires plan.g.WellFormed() && Tidy(plan, s, done, twice, held) && z in plan.g.tasks && z !in done && z in held && InOrder(plan, s')
    requires JustRan(plan, s, s', z)
    ensures Tidy(plan, s', done + {z}, twice, held)
  {
    hide InOrder, RunsAre, EdgesAre, CounterIs, JustRan, Graph.WellFormed;
    RunsMore(plan, s, s', s', done, twice, z);
    EdgesHeld(plan, s, s', done, held, z);
    forall x | x in plan.g.tasks ensures CounterIs(plan, s', done + {z}, twice, held, x) {
      assert CounterIs(plan, s, done, twice, held, x);
      CounterHeld(plan, s, s', done, twice, held, z, x);
    }
  }

  lemma RanCounted(plan: Plan, s: State, s1: State, s': State, done: set<Task>, twice: set<Task>, held: set<Task>, z: Task)
    requires plan.g.WellFormed() && Tidy(plan, s, done, twice, held) && z in plan.g.tasks && z !in done && z !in held && InOrder(plan, s')
    requires JustRan(plan, s, s1, z) && CountedOut(plan, s1, s', z, plan.g.Downstream(z))
    ensures Tidy(plan, s', done + {z}, twice, held)
  {
    assert s'.runs == s1.runs;
    hide InOrder, RunsAre, EdgesAre, CounterIs, JustRan, CountedOut, Graph.WellFormed, Graph.Downstream;
    RunsMore(plan, s, s1, s', done, twice, z);
    EdgesCountedOut(plan, s, s1, s', done, held, z);
    forall x | x in plan.g.tasks ensures CounterIs(plan, s', done + {z}, twice, held, x) {
      assert CounterIs(plan, s, done, twice, held, x);
      CounterCountedOut(plan, s, s1, s', done, twice, held, z, x);
    }
  }

  lemma EdgesCountedOut(plan: Plan, s: State, s1: State, s': State, done: set<Task>, held: set<Task>, z: Task)
    requires plan.g.WellFormed() && EdgesAre(plan, s, done, held) && z !in held && z !in done
    requires JustRan(plan, s, s1, z) && CountedOut(plan, s1, s', z, plan.g.Downstream(z))
    ensures EdgesAre(plan, s', done + {z}, held)
  {
    forall e | IsEdge(plan.g, e)
      ensures s'.uncounted[e] == (if e.src in held && e.src in done + {z} then 1 else 0) && s'.taken[e] == 0 && s'.asked[e] == 0
    {
      assert s1.taken[e] == s.taken[e] && s1.asked[e] == s.asked[e];
      assert s1.uncounted[e] == s.uncounted[e] + if e.src == z then 1 else 0;
    }
  }

  lemma CounterCountedOut(plan: Plan, s: State, s1: State, s': State, done: set<Task>, twice: set<Task>, held: set<Task>, z: Task, x: Task)
    requires plan.g.WellFormed() && x in plan.g.tasks && CounterIs(plan, s, done, twice, held, x) && z !in done && z !in held
    requires JustRan(plan, s, s1, z) && CountedOut(plan, s1, s', z, plan.g.Downstream(z))
    ensures CounterIs(plan, s', done + {z}, twice, held, x)
  {
    assert s1.Counter(x) == s.Counter(x) && s1.Claims(x) == s.Claims(x);
    assert x in plan.g.Downstream(z) <==> z in plan.g.deps[x];
    hide Graph.WellFormed, Graph.Downstream;
    OneMoreOf(plan.g.deps[x], done - held, z);
    assert done + {z} - held == done - held + {z};
  }

  lemma OneMoreOf(deps: set<Task>, done: set<Task>, z: Task)
    requires z !in done
    ensures |deps * (done + {z})| == |deps * done| + if z in deps then 1 else 0
  {
    if z in deps {
      assert deps * (done + {z}) == deps * done + {z};
    } else {
      assert deps * (done + {z}) == deps * done;
    }
  }

  /** All of goal is run, unless harm is done on the way. */
  lemma {:induction false} RunAll(plan: Plan, s: State, done: set<Task>, twice: set<Task>, held: set<Task>, goal: set<Task>)
    returns (s': State)
    requires plan.g.WellFormed() && Tidy(plan, s, done, twice, held) && done <= goal <= plan.g.tasks
    requires forall z :: z in goal ==> plan.g.deps[z] <= goal - held
    ensures InOrder(plan, s') && (SafeState(plan.g, s') ==> Tidy(plan, s', goal, twice, held))
    decreases goal - done
  {
    assert InOrder(plan, s);
    hide InOrder, Tidy, SafeState;
    if !SafeState(plan.g, s) || done == goal {
      s' := s;
    } else {
      var z := NextOf(plan.g, done, held, goal);
      ClaimedOrLost(plan, s, done, twice, held, z);
      var s1 := RunOne(plan, s, done, twice, held, z);
      assert z in goal - done && z !in goal - (done + {z});
      s' := RunAll(plan, s1, done + {z}, twice, held, goal);
    }
  }

  // ---- Two counts that overlap for sure --------------------------------------

  /** Two dependencies may be the last, and the proxy counts one of them. */
  ghost predicate SureDouble(plan: Plan, t: Task)
    requires plan.g.WellFormed()
  {
    exists a, b :: a != b && Last(plan.g, a, t) && Last(plan.g, b, t) && plan.ToProxy(a, t)
  }

  /** Then u can be lost if the proxy counts t -> u, and claimed early if u needs a task that t does
      not need. */
  ghost predicate SureHarm(plan: Plan)
    requires plan.g.WellFormed()
  {
    exists t, u :: plan.g.HasEdge(t, u) && SureDouble(plan, t) &&
      (plan.ToProxy(t, u) || exists y :: y in plan.g.deps[u] && y != t && !plan.g.Above(y, t))
  }

  /** From s to s', a -> t and b -> t have been counted, and t was claimed twice. */
  ghost predicate Overlapped(plan: Plan, s: State, s': State, t: Task, a: Task, b: Task)
    requires plan.g.WellFormed()
  {
    && s'.runs == s.runs && s'.Claims(t) >= 2 && s'.Counter(t) == s.Counter(t) + 2
    && (forall x: Task {:trigger s'.Counter(x)} {:trigger s'.Claims(x)} :: x != t ==> s'.Counter(x) == s.Counter(x) && s'.Claims(x) == s.Claims(x))
    && (forall e: Edge {:trigger s'.uncounted[e]} :: s'.uncounted[e] + (if e == Edge(a, t) || e == Edge(b, t) then 1 else 0) == s.uncounted[e])
    && (forall e: Edge {:trigger s'.taken[e]} {:trigger s'.asked[e]} :: s'.taken[e] == s.taken[e] && s'.asked[e] == s.asked[e])
  }

  /** The proxy's GET of a -> t comes after b's count, and both see the full counter. */
  lemma Overlap(plan: Plan, s: State, t: Task, a: Task, b: Task) returns (s': State)
    requires plan.g.WellFormed() && InOrder(plan, s) && plan.g.HasEdge(a, t) && plan.g.HasEdge(b, t) && a != b && plan.ToProxy(a, t)
    requires Edge(a, t) in s.uncounted && Edge(b, t) in s.uncounted && s.Counter(t) + 2 == |plan.g.deps[t]|
    ensures InOrder(plan, s') && Overlapped(plan, s, s', t, a, b)
  {
    hide InOrder, Plan.ToProxy;
    assert IsEdge(plan.g, Edge(a, t)) && IsEdge(plan.g, Edge(b, t));
    var s1 := AskOne(plan, s, Edge(a, t));
    assert s1.uncounted[Edge(b, t)] == s.uncounted[Edge(b, t)];
    var s2 := CountOne(plan, s1, Edge(b, t));
    assert s2.asked[Edge(a, t)] == s1.asked[Edge(a, t)];
    s' := HearOne(plan, s2, Edge(a, t));
    hide Graph.WellFormed;
    ThreeMoves(plan, s, s1, s2, s', t, a, b);
  }

  lemma ThreeMoves(plan: Plan, s: State, s1: State, s2: State, s': State, t: Task, a: Task, b: Task)
    requires plan.g.WellFormed() && t in plan.g.tasks && a != b && s.Counter(t) + 2 == |plan.g.deps[t]|
    requires Moved(s, s1, Edge(a, t), -1, 0, 1, 1, 0) && Moved(s1, s2, Edge(b, t), -1, 0, 0, 1, Won(plan, s1, t, 1))
    requires Moved(s2, s', Edge(a, t), 0, 0, -1, 0, Won(plan, s2, t, 0))
    ensures Overlapped(plan, s, s', t, a, b)
  {
    hide Graph.WellFormed;
    forall e: Edge
      ensures s'.uncounted[e] + (if e == Edge(a, t) || e == Edge(b, t) then 1 else 0) == s.uncounted[e]
      ensures s'.taken[e] == s.taken[e] && s'.asked[e] == s.asked[e]
    {
      assert e == Edge(a, t) || e != Edge(a, t);
      assert e == Edge(b, t) || e != Edge(b, t);
    }
  }

  lemma AllButTwo(deps: set<Task>, done: set<Task>, a: Task, b: Task)
    requires a != b && a in deps && b in deps && deps <= done
    ensures |deps * (done - {a, b})| + 2 == |deps|
  {
    assert deps * (done - {a, b}) == deps - {a} - {b};
  }

  /** t has been claimed twice, and is to be run twice. */
  lemma MakeDouble(plan: Plan, s: State, t: Task, a: Task, b: Task) returns (s': State)
    requires plan.g.WellFormed() && a != b && Last(plan.g, a, t) && Last(plan.g, b, t) && plan.ToProxy(a, t)
    requires Tidy(plan, s, AllAbove(plan.g, t), {}, {a, b})
    ensures Tidy(plan, s', AllAbove(plan.g, t), {}, {}) && s'.Claims(t) >= 2
  {
    var done := AllAbove(plan.g, t);
    AboveIsClosed(plan.g, a, b, t);
    AllButTwo(plan.g.deps[t], done, a, b);
    assert CounterIs(plan, s, done, {}, {a, b}, t) && plan.g.deps[t] * {} == {};
    HeldEdges(plan, s, done, a, b);
    assert plan.g.HasEdge(a, t) && plan.g.HasEdge(b, t) && a in done && b in done;
    hide InOrder, AllAbove, Plan.ToProxy, Last, RunsAre, EdgesAre, Tidy;
    var s1 := Overlap(plan, s, t, a, b);
    LeftAfter(plan, s, s1, t, a, b);
    hide Overlapped;
    var s2 := CountOut(plan, s1, a, plan.g.Downstream(a) - {t});
    OthersLeft(plan, s1, s2, a, b, plan.g.Downstream(a) - {t});
    s' := CountOut(plan, s2, b, plan.g.Downstream(b) - {t});
    hide CountedOut;
    NoneHeld(plan, s, s1, s2, s', done, t, a, b);
  }

  lemma LeftAfter(plan: Plan, s: State, s1: State, t: Task, a: Task, b: Task)
    requires plan.g.WellFormed() && Overlapped(plan, s, s1, t, a, b)
    requires forall x :: plan.g.HasEdge(a, x) ==> Edge(a, x) in s.uncounted
    requires forall x :: plan.g.HasEdge(b, x) ==> Edge(b, x) in s.uncounted
    ensures forall x :: x in plan.g.Downstream(a) - {t} ==> Edge(a, x) in s1.uncounted
    ensures forall x :: x in plan.g.Downstream(b) - {t} ==> Edge(b, x) in s1.uncounted
  {
    forall x | x in plan.g.Downstream(a) - {t} ensures Edge(a, x) in s1.uncounted {
      assert s1.uncounted[Edge(a, x)] == s.uncounted[Edge(a, x)];
    }
    forall x | x in plan.g.Downstream(b) - {t} ensures Edge(b, x) in s1.uncounted {
      assert s1.uncounted[Edge(b, x)] == s.uncounted[Edge(b, x)];
    }
  }

  lemma OthersLeft(plan: Plan, s1: State, s2: State, a: Task, b: Task, xs: set<Task>)
    requires plan.g.WellFormed() && CountedOut(plan, s1, s2, a, xs) && a != b
    ensures forall x {:trigger Edge(b, x)} :: Edge(b, x) in s1.uncounted ==> Edge(b, x) in s2.uncounted
  {
    forall x | Edge(b, x) in s1.uncounted ensures Edge(b, x) in s2.uncounted {
      assert s2.uncounted[Edge(b, x)] == s1.uncounted[Edge(b, x)];
    }
  }

  lemma HeldEdges(plan: Plan, s: State, done: set<Task>, a: Task, b: Task)
    requires plan.g.WellFormed() && EdgesAre(plan, s, done, {a, b}) && a in done && b in done
    ensures forall x :: plan.g.HasEdge(a, x) ==> Edge(a, x) in s.uncounted
    ensures forall x :: plan.g.HasEdge(b, x) ==> Edge(b, x) in s.uncounted
  {
    forall x | plan.g.HasEdge(a, x) ensures Edge(a, x) in s.uncounted { assert IsEdge(plan.g, Edge(a, x)); }
    forall x | plan.g.HasEdge(b, x) ensures Edge(b, x) in s.uncounted { assert IsEdge(plan.g, Edge(b, x)); }
  }

  /** All edges of a and b have been counted as well. */
  lemma NoneHeld(plan: Plan, s: State, s1: State, s2: State, s': State, done: set<Task>, t: Task, a: Task, b: Task)
    requires plan.g.WellFormed() && Tidy(plan, s, done, {}, {a, b}) && a in done && b in done && a != b && InOrder(plan, s')
    requires plan.g.HasEdge(a, t) && plan.g.HasEdge(b, t) && Overlapped(plan, s, s1, t, a, b)
    requires CountedOut(plan, s1, s2, a, plan.g.Downstream(a) - {t}) && CountedOut(plan, s2, s', b, plan.g.Downstream(b) - {t})
    ensures Tidy(plan, s', done, {}, {}) && s'.Claims(t) >= 2
  {
    assert s'.runs == s.runs;
    assert s'.Claims(t) >= s2.Claims(t) >= s1.Claims(t);
    hide InOrder, RunsAre, EdgesAre, CounterIs, CountedOut, Overlapped, Graph.WellFormed, Graph.Downstream;
    SameRunsAre(s, s', done);
    NoEdgeHeld(plan, s, s1, s2, s', done, t, a, b);
    forall x | x in plan.g.tasks ensures CounterIs(plan, s', done, {}, {}, x) {
      assert CounterIs(plan, s, done, {}, {a, b}, x);
      CounterUnheld(plan, s, s1, s2, s', done, t, a, b, x);
    }
  }

  lemma SameRunsAre(s: State, s': State, done: set<Task>)
    requires RunsAre(s, done, {}) && s'.runs == s.runs
    ensures RunsAre(s', done, {})
  {
    forall x ensures s'.Runs(x) == (if x in done then 1 else 0) + (if x in {} then 1 else 0) { assert s'.Runs(x) == s.Runs(x); }
  }

  lemma NoEdgeHeld(plan: Plan, s: State, s1: State, s2: State, s': State, done: set<Task>, t: Task, a: Task, b: Task)
    requires plan.g.WellFormed() && EdgesAre(plan, s, done, {a, b}) && a in done && b in done && a != b
    requires Overlapped(plan, s, s1, t, a, b)
    requires CountedOut(plan, s1, s2, a, plan.g.Downstream(a) - {t}) && CountedOut(plan, s2, s', b, plan.g.Downstream(b) - {t})
    ensures EdgesAre(plan, s', done, {})
  {
    forall e | IsEdge(plan.g, e) ensures s'.uncounted[e] == 0 && s'.taken[e] == 0 && s'.asked[e] == 0 {
      assert e == Edge(e.src, e.dst) && e.dst in plan.g.Downstream(e.src);
      assert s2.uncounted[e] + (if e.src == a && e.dst != t then 1 else 0) == s1.uncounted[e];
      assert s'.uncounted[e] + (if e.src == b && e.dst != t then 1 else 0) == s2.uncounted[e];
      assert s'.taken[e] == s2.taken[e] == s1.taken[e] == s.taken[e];
      assert s'.asked[e] == s2.asked[e] == s1.asked[e] == s.asked[e];
    }
  }

  lemma CounterUnheld(plan: Plan, s: State, s1: State, s2: State, s': State, done: set<Task>, t: Task, a: Task, b: Task, x: Task)
    requires plan.g.WellFormed() && x in plan.g.tasks && CounterIs(plan, s, done, {}, {a, b}, x) && a in done && b in done && a != b
    requires plan.g.HasEdge(a, t) && plan.g.HasEdge(b, t) && Overlapped(plan, s, s1, t, a, b)
    requires CountedOut(plan, s1, s2, a, plan.g.Downstream(a) - {t}) && CountedOut(plan, s2, s', b, plan.g.Downstream(b) - {t})
    ensures CounterIs(plan, s', done, {}, {}, x)
  {
    var deps := plan.g.deps[x];
    CountedByBoth(plan, s, s1, s2, s', t, a, b, x);
    hide Graph.WellFormed, Graph.Downstream, Overlapped, CountedOut;
    assert deps * {} == {};
    TwoMoreOf(deps, done, a, b);
  }

  lemma TwoMoreOf(deps: set<Task>, done: set<Task>, a: Task, b: Task)
    requires a in done && b in done && a != b
    ensures |deps * (done - {})| == |deps * (done - {a, b})| + (if a in deps then 1 else 0) + (if b in deps then 1 else 0)
  {
    OneMoreOf(deps, done - {a, b}, a);
    OneMoreOf(deps, done - {a, b} + {a}, b);
    assert done - {a, b} + {a} + {b} == done && done - {} == done;
  }

  lemma CountedByBoth(plan: Plan, s: State, s1: State, s2: State, s': State, t: Task, a: Task, b: Task, x: Task)
    requires plan.g.WellFormed() && x in plan.g.tasks && (s.Counter(x) >= |plan.g.deps[x]| ==> s.Claims(x) > 0)
    requires plan.g.HasEdge(a, t) && plan.g.HasEdge(b, t) && Overlapped(plan, s, s1, t, a, b)
    requires CountedOut(plan, s1, s2, a, plan.g.Downstream(a) - {t}) && CountedOut(plan, s2, s', b, plan.g.Downstream(b) - {t})
    ensures s'.Counter(x) == s.Counter(x) + (if a in plan.g.deps[x] then 1 else 0) + (if b in plan.g.deps[x] then 1 else 0)
    ensures s'.Counter(x) >= |plan.g.deps[x]| ==> s'.Claims(x) > 0
  {
    assert x in plan.g.Downstream(a) <==> a in plan.g.deps[x];
    assert x in plan.g.Downstream(b) <==> b in plan.g.deps[x];
    hide Graph.Downstream;
    assert s'.Claims(x) >= s2.Claims(x) >= s1.Claims(x);
  }

  // ---- What the second execution does ----------------------------------------

  /** t is run twice; its out-edges are left for now. */
  lemma RunTwice(plan: Plan, s: State, done: set<Task>, t: Task) returns (s': State)
    requires plan.g.WellFormed() && Tidy(plan, s, done, {}, {}) && t in plan.g.tasks && t !in done && plan.g.deps[t] <= done
    requires |plan.g.deps[t]| >= 2 && s.Claims(t) >= 2
    ensures InOrder(plan, s') && RanTwice(plan, s, s', t)
  {
    CanExecute(plan, s, done, {}, {}, t);
    assert s.Runs(t) == 0 && EdgesAre(plan, s, done, {});
    hide InOrder, Enabled, Patient, Tidy, EdgesAre;
    var s1 := ExecuteOnce(plan, s, t);
    StillPatient(plan, s, s1, done, t);
    s' := ExecuteOnce(plan, s1, t);
    hide Graph.WellFormed, IsEdge;
  }

  ghost predicate RanTwice(plan: Plan, s: State, s': State, t: Task)
    requires plan.g.WellFormed()
  {
    && s'.counters == s.counters && s'.claims == s.claims && s'.taken == s.taken && s'.asked == s.asked
    && (forall x {:trigger s'.Runs(x)} :: s'.Runs(x) == s.Runs(x) + if x == t then 2 else 0)
    && (forall e {:trigger s'.uncounted[e]} :: s'.uncounted[e] == s.uncounted[e] + if IsEdge(plan.g, e) && e.src == t then 2 else 0)
  }

  lemma StillPatient(plan: Plan, s: State, s1: State, done: set<Task>, t: Task)
    requires plan.g.WellFormed() && EdgesAre(plan, s, done, {}) && JustRan(plan, s, s1, t) && t in plan.g.tasks
    requires |plan.g.deps[t]| >= 2 && s.Claims(t) >= 2 && s.Runs(t) == 0
    ensures Patient(plan, s1, Execute(t)) && Enabled(plan, s1, Execute(t))
  {
    assert s1.Runs(t) == 1 && s1.Claims(t) == s.Claims(t);
    assert forall a :: plan.g.deps[t] != {a};
    forall d, x | plan.g.HasEdge(d, t) && plan.g.HasEdge(d, x)
      ensures s1.uncounted[Edge(d, x)] == 0 && s1.taken[Edge(d, x)] == 0 && s1.asked[Edge(d, x)] == 0
    {
      assert IsEdge(plan.g, Edge(d, x)) && s.uncounted[Edge(d, x)] == 0 && s.taken[Edge(d, x)] == 0 && s.asked[Edge(d, x)] == 0;
      assert d != t;
    }
  }

  /** Before t has run, no dependent of it is claimed, or harm is done. */
  lemma NotYetClaimed(plan: Plan, s: State, t: Task, u: Task)
    requires plan.g.WellFormed() && plan.g.HasEdge(t, u) && s.Runs(t) == 0
    ensures SafeState(plan.g, s) ==> s.Claims(u) == 0
  {
    if s.Claims(u) > 0 { assert Early(plan.g, s, u); }
  }

  /** Both messages about t count t -> u before either asks for the counter. */
  lemma LoseIt(plan: Plan, s: State, done: set<Task>, t: Task, u: Task) returns (s': State)
    requires plan.g.WellFormed() && Tidy(plan, s, done, {}, {}) && t in plan.g.tasks && t !in done && plan.g.deps[t] <= done
    requires |plan.g.deps[t]| >= 2 && s.Claims(t) >= 2 && plan.g.HasEdge(t, u) && plan.ToProxy(t, u) && plan.g.deps[u] - {t} <= done
    ensures InOrder(plan, s') && !SafeState(plan.g, s')
  {
    assert s.Runs(t) == 0 && CounterIs(plan, s, done, {}, {}, u) && EdgesAre(plan, s, done, {});
    NotYetClaimed(plan, s, t, u);
    AllButOne(plan.g.deps[u], done, t);
    assert IsEdge(plan.g, Edge(t, u)) && s.asked[Edge(t, u)] == 0;
    assert InOrder(plan, s);
    hide InOrder, SafeState, Plan.ToProxy;
    if !SafeState(plan.g, s) {
      s' := s;
    } else {
      var s0 := RunTwice(plan, s, done, t);
      var s1 := AskOne(plan, s0, Edge(t, u));
      var s2 := AskOne(plan, s1, Edge(t, u));
      var s3 := HearOne(plan, s2, Edge(t, u));
      s' := HearOne(plan, s3, Edge(t, u));
      hide Tidy;
      assert s'.Claims(u) == 0;
      LostIt(plan, s, s0, s1, s2, s3, s', done, t, u);
    }
  }

  lemma LostIt(plan: Plan, s: State, s0: State, s1: State, s2: State, s3: State, s': State, done: set<Task>, t: Task, u: Task)
    requires plan.g.WellFormed() && Tidy(plan, s, done, {}, {}) && t !in done && plan.g.HasEdge(t, u) && plan.g.deps[u] - {t} <= done
    requires RanTwice(plan, s, s0, t) && s'.Claims(u) == 0
    requires Moved(s0, s1, Edge(t, u), -1, 0, 1, 1, 0) && Moved(s1, s2, Edge(t, u), -1, 0, 1, 1, 0)
    requires Moved(s2, s3, Edge(t, u), 0, 0, -1, 0, Won(plan, s2, u, 0)) && Moved(s3, s', Edge(t, u), 0, 0, -1, 0, Won(plan, s3, u, 0))
    ensures !SafeState(plan.g, s')
  {
    hide InOrder;
    forall d | d in plan.g.deps[u] ensures s'.Runs(d) > 0 && Edge(d, u) !in s'.uncounted && Edge(d, u) !in s'.asked {
      var e := Edge(d, u);
      assert IsEdge(plan.g, e) && s.uncounted[e] == 0 && s.asked[e] == 0 && s0.asked[e] == 0;
      assert s'.Runs(d) == s0.Runs(d);
      if d != t { assert s'.uncounted[e] == s0.uncounted[e] && s'.asked[e] == s0.asked[e]; }
    }
    hide Tidy;
    assert LostTask(plan.g, s', u);
  }

  lemma AllButOne(deps: set<Task>, done: set<Task>, t: Task)
    requires t in deps && t !in done && deps - {t} <= done
    ensures |deps * (done - {})| + |deps * {}| + 1 == |deps|
  {
    assert deps * (done - {}) == deps - {t} && deps * {} == {};
  }

  /** t has run twice, and both executions have counted its out-edges. */
  lemma TidyDouble(plan: Plan, s: State, done: set<Task>, t: Task) returns (s': State)
    requires plan.g.WellFormed() && Tidy(plan, s, done, {}, {}) && t in plan.g.tasks && t !in done && plan.g.deps[t] <= done
    requires |plan.g.deps[t]| >= 2 && s.Claims(t) >= 2
    ensures Tidy(plan, s', done + {t}, {t}, {})
  {
    var s0 := RunTwice(plan, s, done, t);
    var xs := plan.g.Downstream(t);
    forall x | x in xs ensures plan.g.HasEdge(t, x) && s0.uncounted[Edge(t, x)] >= 2 {
      assert IsEdge(plan.g, Edge(t, x));
    }
    hide InOrder, Tidy;
    var s1 := CountOut(plan, s0, t, xs);
    forall x | x in xs ensures Edge(t, x) in s1.uncounted {
      assert s1.uncounted[Edge(t, x)] + 1 == s0.uncounted[Edge(t, x)];
    }
    s' := CountOut(plan, s1, t, xs);
    CountedTwice(plan, s, s0, s1, s', done, t);
  }

  lemma CountedTwice(plan: Plan, s: State, s0: State, s1: State, s': State, done: set<Task>, t: Task)
    requires plan.g.WellFormed() && Tidy(plan, s, done, {}, {}) && t in plan.g.tasks && t !in done && InOrder(plan, s')
    requires RanTwice(plan, s, s0, t) && CountedOut(plan, s0, s1, t, plan.g.Downstream(t)) && CountedOut(plan, s1, s', t, plan.g.Downstream(t))
    ensures Tidy(plan, s', done + {t}, {t}, {})
  {
    assert s'.runs == s0.runs;
    hide InOrder, RunsAre, EdgesAre, CounterIs, CountedOut, RanTwice, Graph.WellFormed, Graph.Downstream;
    RunsTwice(plan, s, s0, s', done, t);
    EdgesTwice(plan, s, s0, s1, s', done, t);
    forall x | x in plan.g.tasks ensures CounterIs(plan, s', done + {t}, {t}, {}, x) {
      assert CounterIs(plan, s, done, {}, {}, x);
      CounterTwice(plan, s, s0, s1, s', done, t, x);
    }
  }

  lemma RunsTwice(plan: Plan, s: State, s0: State, s': State, done: set<Task>, t: Task)
    requires plan.g.WellFormed() && RunsAre(s, done, {}) && t !in done && RanTwice(plan, s, s0, t) && s'.runs == s0.runs
    ensures RunsAre(s', done + {t}, {t})
  {
    forall x ensures s'.Runs(x) == (if x in done + {t} then 1 else 0) + (if x in {t} then 1 else 0) {
      assert s0.Runs(x) == s.Runs(x) + if x == t then 2 else 0;
    }
  }

  lemma EdgesTwice(plan: Plan, s: State, s0: State, s1: State, s': State, done: set<Task>, t: Task)
    requires plan.g.WellFormed() && EdgesAre(plan, s, done, {})
    requires RanTwice(plan, s, s0, t) && CountedOut(plan, s0, s1, t, plan.g.Downstream(t)) && CountedOut(plan, s1, s', t, plan.g.Downstream(t))
    ensures EdgesAre(plan, s', done + {t}, {})
  {
    forall e | IsEdge(plan.g, e) ensures s'.uncounted[e] == 0 && s'.taken[e] == 0 && s'.asked[e] == 0 {
      assert e.dst in plan.g.Downstream(e.src);
      assert s0.uncounted[e] == s.uncounted[e] + if e.src == t then 2 else 0;
      assert s1.uncounted[e] + (if e.src == t then 1 else 0) == s0.uncounted[e];
      assert s'.uncounted[e] + (if e.src == t then 1 else 0) == s1.uncounted[e];
      assert s'.taken[e] == s1.taken[e] == s0.taken[e] == s.taken[e] && s'.asked[e] == s1.asked[e] == s0.asked[e] == s.asked[e];
    }
  }

  lemma CounterTwice(plan: Plan, s: State, s0: State, s1: State, s': State, done: set<Task>, t: Task, x: Task)
    requires plan.g.WellFormed() && x in plan.g.tasks && CounterIs(plan, s, done, {}, {}, x) && t !in done
    requires RanTwice(plan, s, s0, t) && CountedOut(plan, s0, s1, t, plan.g.Downstream(t)) && CountedOut(plan, s1, s', t, plan.g.Downstream(t))
    ensures CounterIs(plan, s', done + {t}, {t}, {}, x)
  {
    var deps := plan.g.deps[x];
    assert x in plan.g.Downstream(t) <==> t in deps;
    assert s0.Counter(x) == s.Counter(x) && s0.Claims(x) == s.Claims(x) && s'.Claims(x) >= s1.Claims(x) >= s0.Claims(x);
    hide Graph.WellFormed, Graph.Downstream, RanTwice;
    TwiceMore(deps, done, t);
  }

  lemma TwiceMore(deps: set<Task>, done: set<Task>, t: Task)
    requires t !in done
    ensures |deps * (done + {t} - {})| + |deps * {t}| == |deps * (done - {})| + |deps * {}| + if t in deps then 2 else 0
  {
    OneMoreOf(deps, done, t);
    OneMoreOf(deps, {}, t);
    assert done + {t} - {} == done + {t} && done - {} == done && {} + {t} == {t};
  }

  /** t -> u is counted twice, and all else that u needs once but for y, which has not run. */
  lemma ClaimEarly(plan: Plan, s: State, done: set<Task>, t: Task, u: Task, y: Task)
    requires plan.g.WellFormed() && Tidy(plan, s, done, {t}, {}) && plan.g.HasEdge(t, u) && y in plan.g.deps[u] && y != t
    requires y !in done && plan.g.deps[u] - {y} <= done
    ensures !SafeState(plan.g, s)
  {
    hide InOrder;
    assert CounterIs(plan, s, done, {t}, {}, u);
    assert plan.g.deps[u] * (done - {}) == plan.g.deps[u] - {y} && plan.g.deps[u] * {t} == {t};
    assert s.Runs(y) == 0;
    assert Early(plan.g, s, u);
  }

  lemma EarlyHarm(plan: Plan, s: State, t: Task, u: Task, y0: Task) returns (s': State)
    requires plan.g.WellFormed() && Tidy(plan, s, AllAbove(plan.g, t), {}, {}) && s.Claims(t) >= 2
    requires plan.g.HasEdge(t, u) && t in plan.g.tasks && |plan.g.deps[t]| >= 2 && plan.g.deps[t] <= AllAbove(plan.g, t) && t !in AllAbove(plan.g, t)
    requires y0 in plan.g.deps[u] && y0 != t && !plan.g.Above(y0, t)
    ensures InOrder(plan, s') && !SafeState(plan.g, s')
  {
    var y := HighestMissing(plan.g, t, u, y0);
    var goal := set x | x in plan.g.tasks && plan.g.Above(x, u) && x != y && !plan.g.Above(y, x);
    GoalClosed(plan.g, y, u, goal);
    WithoutMissing(plan.g, t, u, y, goal);
    GoalHas(plan.g, t, u, y, goal);
    hide InOrder, Tidy, SafeState, AllAbove, Graph.Above;
    var s1 := TidyDouble(plan, s, AllAbove(plan.g, t), t);
    s' := RunAll(plan, s1, AllAbove(plan.g, t) + {t}, {t}, {}, goal);
    if SafeState(plan.g, s') { ClaimEarly(plan, s', goal, t, u, y); }
  }

  lemma GoalHas(g: Graph, t: Task, u: Task, y: Task, goal: set<Task>)
    requires g.WellFormed() && g.HasEdge(t, u) && y != t && !g.Above(y, t)
    requires goal == set x | x in g.tasks && g.Above(x, u) && x != y && !g.Above(y, x)
    ensures AllAbove(g, t) + {t} <= goal && y !in goal
  {
    assert t in g.tasks && g.Above(t, u);
    forall x | x in AllAbove(g, t) ensures x in goal {
      AboveTransitive(g, x, t, u);
      if g.Above(y, x) { AboveTransitive(g, y, x, t); }
    }
  }

  /** Of all that u needs and t does not, one with the highest level. */
  lemma HighestMissing(g: Graph, t: Task, u: Task, y0: Task) returns (y: Task)
    requires g.WellFormed() && u in g.tasks && y0 in g.deps[u] && y0 != t && !g.Above(y0, t)
    ensures y in g.deps[u] && y != t && !g.Above(y, t)
    ensures forall x :: x in g.deps[u] && x != t && !g.Above(x, t) ==> g.level[x] <= g.level[y]
  {
    var missing := set x | x in g.deps[u] && x != t && !g.Above(x, t);
    assert y0 in missing;
    y := MaxLevel(g, missing);
    assert forall x :: x in g.deps[u] && x != t && !g.Above(x, t) ==> x in missing;
  }

  lemma GoalClosed(g: Graph, y: Task, u: Task, goal: set<Task>)
    requires g.WellFormed() && goal == set x | x in g.tasks && g.Above(x, u) && x != y && !g.Above(y, x)
    ensures forall z :: z in goal ==> g.deps[z] <= goal
  {
    forall z, x | z in goal && x in g.deps[z] ensures x in goal {
      assert g.HasEdge(x, z);
      AboveClosed(g, x, z, u);
      if g.Above(y, x) { AboveThrough(g, y, x, z); }
    }
  }

  lemma WithoutMissing(g: Graph, t: Task, u: Task, y: Task, goal: set<Task>)
    requires g.WellFormed() && g.HasEdge(t, u) && y in g.deps[u] && y != t && !g.Above(y, t)
    requires forall x :: x in g.deps[u] && x != t && !g.Above(x, t) ==> g.level[x] <= g.level[y]
    requires goal == set x | x in g.tasks && g.Above(x, u) && x != y && !g.Above(y, x)
    ensures y !in goal && g.deps[u] - {y} <= goal
  {
    forall x | x in g.deps[u] && x != y ensures x in goal {
      assert g.Above(x, u);
      if g.Above(y, x) {
        AboveIsLower(g, y, x);
        if x != t && g.Above(x, t) { AboveTransitive(g, y, x, t); }
      }
    }
  }

  // ---- For which plans -------------------------------------------------------

  lemma DoubleOrHarm(plan: Plan, t: Task, a: Task, b: Task) returns (s: State)
    requires plan.g.WellFormed() && a != b && Last(plan.g, a, t) && Last(plan.g, b, t) && plan.ToProxy(a, t)
    ensures InOrder(plan, s)
    ensures SafeState(plan.g, s) ==> Tidy(plan, s, AllAbove(plan.g, t), {}, {}) && s.Claims(t) >= 2
  {
    AboveIsClosed(plan.g, a, b, t);
    hide InOrder, Tidy, SafeState, AllAbove, Plan.ToProxy, Last;
    s := TidyStart(plan, {a, b});
    s := RunAll(plan, s, {}, {}, {a, b}, AllAbove(plan.g, t));
    if SafeState(plan.g, s) {
      s := MakeDouble(plan, s, t, a, b);
      TidyInOrder(plan, s, AllAbove(plan.g, t), {}, {});
    }
  }

  lemma TidyInOrder(plan: Plan, s: State, done: set<Task>, twice: set<Task>, held: set<Task>)
    requires plan.g.WellFormed() && Tidy(plan, s, done, twice, held)
    ensures InOrder(plan, s)
  {
  }

  lemma TwoAtLeast(deps: set<Task>, a: Task, b: Task)
    requires a in deps && b in deps && a != b
    ensures |deps| >= 2
  {
    assert {a, b} <= deps;
    SmallerSubset({a, b}, deps);
  }

  /** The split does harm, even if every task waits for the counts of its dependencies. */
  lemma SureHarmIsDone(plan: Plan)
    requires plan.g.WellFormed() && SureHarm(plan)
    ensures !SafeInOrder(plan) && !Safe(plan)
  {
    hide InOrder, SafeState, Last, Reachable;
    var t, u :| plan.g.HasEdge(t, u) && SureDouble(plan, t) &&
      (plan.ToProxy(t, u) || exists y :: y in plan.g.deps[u] && y != t && !plan.g.Above(y, t));
    var a, b :| a != b && Last(plan.g, a, t) && Last(plan.g, b, t) && plan.ToProxy(a, t);
    var s := DoneHarm(plan, t, u, a, b);
    InOrderReachable(plan, s);
  }

  lemma DoneHarm(plan: Plan, t: Task, u: Task, a: Task, b: Task) returns (s: State)
    requires plan.g.WellFormed() && a != b && Last(plan.g, a, t) && Last(plan.g, b, t) && plan.ToProxy(a, t) && plan.g.HasEdge(t, u)
    requires plan.ToProxy(t, u) || exists y :: y in plan.g.deps[u] && y != t && !plan.g.Above(y, t)
    ensures InOrder(plan, s) && !SafeState(plan.g, s)
  {
    AboveIsClosed(plan.g, a, b, t);
    assert t in plan.g.tasks && |plan.g.deps[t]| >= 2 by { TwoAtLeast(plan.g.deps[t], a, b); }
    hide InOrder, Tidy, SafeState, Last, Plan.ToProxy;
    s := DoubleOrHarm(plan, t, a, b);
    if SafeState(plan.g, s) {
      if y :| y in plan.g.deps[u] && y != t && !plan.g.Above(y, t) {
        s := EarlyHarm(plan, s, t, u, y);
      } else {
        forall d | d in plan.g.deps[u] - {t} ensures d in AllAbove(plan.g, t) { AboveIsLower(plan.g, d, t); }
        s := LoseIt(plan, s, AllAbove(plan.g, t), t, u);
      }
    }
  }
}
