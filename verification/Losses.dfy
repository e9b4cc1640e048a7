/** The three ways in which the code loses a task for good, each shown by a run. */
module Losses {
  import opened Graphs
  import opened Plans
  import opened FanIn
  import opened FanInSafety
  import opened FanInTheorems
  import opened LocalViews
  import opened Conduct
  import opened GivingUp
  import opened LawfulRuns
  import opened Colocation
  import opened Stages
  import opened Completion
  import opened Starvation

  /** Some lawful run reaches a state from which t is never run, whatever happens. */
  ghost predicate CanLose(plan: Plan, t: Task)
    requires plan.g.WellFormed()
  {
    t in plan.g.tasks &&
    exists s :: Lawful(plan, s) && forall s' :: Onwards(plan, s, s') ==> s'.Runs(t) == 0
  }

  // ---- A claimant that misses an input ---------------------------------------

  ghost predicate CanFail(plan: Plan)
    requires plan.g.WellFormed()
  {
    exists s :: Lawful(plan, s) && s.failed != {}
  }

  lemma {:induction false} FailuresComeFromStarving(plan: Plan, s: State, steps: seq<Step>, s': State)
    requires plan.g.WellFormed() && Lawful(plan, s) && LeadsTo(plan, s, steps, s')
    requires s.failed != {} ==> Starvable(plan)
    ensures s'.failed != {} ==> Starvable(plan)
    decreases |steps|
  {
    hide Lawful, Apply, Enabled, Follows, Starvable;
    if steps != [] {
      var step := steps[0];
      OnlyDropsFail(plan.g, s, step);
      if step.Drop? { DropMeansStarvable(plan, s, step); }
      LawfulStep(plan, s, step);
      FailuresComeFromStarving(plan, Apply(plan.g, s, step), steps[1..], s');
    }
  }

  lemma OnlyDropsFail(g: Graph, s: State, step: Step)
    requires g.WellFormed() && Enabled(g, s, step)
    ensures !step.Drop? ==> Apply(g, s, step).failed == s.failed
  {
    if MovesEdge(step) { EdgeStepMovesOne(g, s, step); }
    hide Graph.WellFormed, Inputs;
  }

  lemma DropMeansStarvable(plan: Plan, s: State, step: Step)
    requires plan.g.WellFormed() && Lawful(plan, s) && step.Drop? && Enabled(plan.g, s, step) && Follows(plan, s, step)
    ensures Starvable(plan)
  {
    hide Lawful, CanMiss;
    var d :| plan.g.HasEdge(d, step.c.task) && OutOfReach(s, step.c, d);
    OnlyIfCanMiss(plan, s, step.c, d);
  }

  lemma DropIt(plan: Plan, s: State, c: Claim, d: Task) returns (s': State)
    requires plan.g.WellFormed() && Lawful(plan, s) && Starving(plan, s, c, d)
    requires c.exec != PROXY && s.gone == {} && s.failed == {}
    ensures Lawful(plan, s') && Dropped(s', c) && s'.failed != {}
  {
    hide Lawful;
    assert Enabled(plan.g, s, Drop(c)) && Follows(plan, s, Drop(c));
    LawfulStep(plan, s, Drop(c));
    s' := Apply(plan.g, s, Drop(c));
    assert c in s'.failed;
  }

  /** Some lawful run has a claimant fail for want of an input, if and only if the plan has an
      edge that can be missed. */
  lemma FailsExactlyWhenStarvable(plan: Plan)
    requires plan.g.WellFormed()
    ensures CanFail(plan) <==> Starvable(plan)
  {
    hide CanMiss;
    if CanFail(plan) {
      var s :| Lawful(plan, s) && s.failed != {};
      var lambda: map<Task, Exec> :| OwnLambdas(plan, lambda) && Onwards(plan, Init(plan.g, lambda), s);
      LawfulStart(plan, lambda);
      assert Init(plan.g, lambda).failed == {};
      hide Init, LeadsTo, Lawful;
      var steps :| LeadsTo(plan, Init(plan.g, lambda), steps, s);
      FailuresComeFromStarving(plan, Init(plan.g, lambda), steps, s);
    }
    if Starvable(plan) {
      hide Lawful;
      var d, t :| CanMiss(plan, d, t);
      var s, c := MissedOnceClaimed(plan, d, t);
      var s' := DropIt(plan, s, c, d);
    }
  }

  /** Where no big task may use the delayed queue and no small one has a proxy, every claimant
      finds its inputs, and none fails. */
  lemma NoneMissesWithoutQueueAndProxy(plan: Plan)
    requires plan.g.WellFormed() && (plan.useTaskQueue ==> plan.big == {}) && plan.proxied <= plan.big
    ensures !CanStarve(plan) && !CanFail(plan)
  {
    StarvesExactlyWhenStarvable(plan);
    FailsExactlyWhenStarvable(plan);
    hide CanStarve, CanFail;
    assert forall d, t :: !plan.Owable(d, t);
  }

  /** The task behind an edge that can be missed can be lost. */
  lemma MissingLosesTask(plan: Plan, d: Task, t: Task)
    requires plan.g.WellFormed() && CanMiss(plan, d, t)
    ensures CanLose(plan, t)
  {
    assert t in plan.g.tasks;
    hide CanMiss, Lawful, Onwards;
    var s, c := MissedOnceClaimed(plan, d, t);
    s := DropIt(plan, s, c, d);
    forall s' | Onwards(plan, s, s') ensures s'.Runs(t) == 0 { LostForGood(plan, s, s'); }
  }

  // ---- Steps of the other two runs -------------------------------------------

  lemma AbandonedLosesTask(plan: Plan, s: State, d: Task, t: Task)
    requires plan.g.WellFormed() && Lawful(plan, s) && Abandoned(plan.g, s, d, t)
    ensures CanLose(plan, t) && !CanComplete(plan, s)
  {
    hide Lawful, Onwards;
    LawfulInv(plan, s);
    LostIsNotRun(plan.g, s);
    NotIntactCannotComplete(plan, s);
    forall s' | Onwards(plan, s, s') ensures s'.Runs(t) == 0 { LostForGood(plan, s, s'); }
  }

  /** Nobody has ended, failed or given up, and nothing is owed. */
  ghost predicate Smooth(plan: Plan, s: State)
    requires plan.g.WellFormed()
  {
    Lawful(plan, s) && s.gone == {} && s.failed == {} && s.givingUp == {} && s.owed == map[]
  }

  /** t needs only d, and a check may take d -> t now. */
  ghost predicate CanPull(plan: Plan, s: State, d: Task, t: Task)
    requires plan.g.WellFormed()
  {
    && Smooth(plan, s) && plan.g.HasEdge(d, t) && plan.g.deps[t] == {d} && !plan.useBits && d in s.ranBy && s.Phase(d, t).Waiting?
    && if d in plan.big then NoDependentRan(plan.g, s, d) else plan.BecomeEdge(d, t) && NoClaims(s, s.ranBy[d])
  }

  /** A check succeeds for a task with one dependency. */
  lemma PullDown(plan: Plan, s: State, d: Task, t: Task) returns (s': State, c: Claim)
    requires plan.g.WellFormed() && CanPull(plan, s, d, t)
    ensures c == Claim(t, s.ranBy[d], false) && Smooth(plan, s') && ClaimMade(s, s', c) && s'.Phase(d, t).Taken?
  {
    hide Lawful, NoDependentRan, NoClaims;
    c := Claim(t, s.ranBy[d], false);
    var step := Peek(s.ranBy[d], d, t);
    assert Enabled(plan.g, s, step) && Follows(plan, s, step);
    LawfulStep(plan, s, step);
    s' := Apply(plan.g, s, step);
  }

  /** The executor runs what it has pulled down. */
  lemma RunPulled(plan: Plan, s: State, d: Task, t: Task) returns (s': State)
    requires plan.g.WellFormed() && Smooth(plan, s) && plan.g.HasEdge(d, t) && plan.g.deps[t] == {d}
    requires d in s.ranBy && s.ranBy[d] != PROXY && Claim(t, s.ranBy[d], false) in s.pending
    ensures Smooth(plan, s') && s'.ranBy == s.ranBy[t := s.ranBy[d]] && s'.pending == s.pending - {Claim(t, s.ranBy[d], false)}
    ensures forall a: Task, b: Task :: s'.Phase(a, b) == s.Phase(a, b)
  {
    var c := Claim(t, s.ranBy[d], false);
    ClaimedNotRun(plan, s, c);
    NotRunYet(plan, s, t);
    RunnerHas(plan, s, d, t);
    hide Lawful;
    s' := RunTask(plan, s, c);
    assert SameEdges(s, s');
  }

  /** A leaf is run first of all. */
  lemma RunFirst(plan: Plan, x: Task) returns (s: State)
    requires plan.g.WellFormed() && x in plan.g.tasks && plan.g.deps[x] == {}
    ensures Smooth(plan, s) && s.ranBy.Keys == {x} && s.ranBy[x] != PROXY
    ensures forall c :: c in s.pending ==> c.exec != s.ranBy[x]
    ensures forall y, z :: plan.g.HasEdge(y, z) && z != x ==> s.Phase(y, z).Waiting?
    ensures NoDependentRan(plan.g, s, x)
  {
    hide Lawful;
    var s0 := Start(plan);
    var c := LeafClaim(plan, s0, x);
    s := RunTask(plan, s0, c);
    NoneButLeaf(plan, s, x);
  }

  lemma NoneButLeaf(plan: Plan, s: State, x: Task)
    requires plan.g.WellFormed() && Lawful(plan, s) && s.ranBy.Keys == {x} && x in plan.g.tasks && plan.g.deps[x] == {}
    ensures NoDependentRan(plan.g, s, x)
  {
    forall y | plan.g.HasEdge(x, y) ensures s.Runs(y) == 0 {
      hide Lawful;
      NotRunYet(plan, s, y);
    }
  }

  lemma Start(plan: Plan) returns (s: State)
    requires plan.g.WellFormed()
    ensures Smooth(plan, s) && Leaves(plan, s) && s.ranBy == map[] && s.phase == map[]
  {
    var lambda := map t | t in plan.g.tasks :: t + 1;
    LawfulStart(plan, lambda);
    InitLeaves(plan, lambda);
    hide Lawful;
    s := Init(plan.g, lambda);
  }

  // ---- A task to become is already chosen ------------------------------------

  /** u is listed before v among the out-edges of x. */
  ghost predicate ListedBefore(plan: Plan, x: Task, u: Task, v: Task) {
    exists i, j :: 0 <= i < j < |plan.Downstream(x)| && plan.Downstream(x)[i] == u && plan.Downstream(x)[j] == v
  }

  /** x is a big leaf whose dependents u and v are pulled down, and dealt with in that order; the
      executor becomes the task w below u, and so leaves the edge from v, whose fan-out is the
      proxy's, to the task it would become, t, uncounted. */
  ghost predicate TwoToBecome(plan: Plan, x: Task, u: Task, v: Task, w: Task, t: Task)
    requires plan.g.WellFormed()
  {
    && x in plan.big && !plan.useBits && x in plan.g.tasks && plan.g.deps[x] == {} && ListedBefore(plan, x, u, v)
    && plan.g.HasEdge(x, u) && plan.g.deps[u] == {x} && plan.g.HasEdge(x, v) && plan.g.deps[v] == {x} && u != v
    && u !in plan.big && plan.g.HasEdge(u, w) && plan.g.deps[w] == {u} && plan.BecomeEdge(u, w)
    && plan.g.HasEdge(v, t) && plan.BecomeEdge(v, t) && plan.FansOut(v)
  }

  lemma LeaveItOut(plan: Plan, s: State, v: Task, t: Task, c: Claim) returns (s': State)
    requires plan.g.WellFormed() && Smooth(plan, s) && plan.g.HasEdge(v, t) && v in s.ranBy
    requires s.Phase(v, t).Waiting? && plan.FansOut(v) && plan.BecomeEdge(v, t) && c in s.pending && c.exec == s.ranBy[v]
    ensures Lawful(plan, s') && Abandoned(plan.g, s', v, t)
  {
    hide Lawful;
    var step := LeaveOut(s.ranBy[v], v, t);
    assert Enabled(plan.g, s, step) && Follows(plan, s, step);
    LawfulStep(plan, s, step);
    s' := Apply(plan.g, s, step);
  }

  /** x has run, and nobody else; its executor has no claim. */
  ghost predicate RanAlone(plan: Plan, s: State, x: Task, e: Exec)
    requires plan.g.WellFormed()
  {
    && Smooth(plan, s) && s.ranBy == map[x := e] && e != PROXY && NoDependentRan(plan.g, s, x)
    && (forall c :: c in s.pending ==> c.exec != e)
  }

  /** x's executor takes x -> u by a check, its first. */
  lemma PullFirst(plan: Plan, s: State, x: Task, u: Task, e: Exec) returns (s': State)
    requires plan.g.WellFormed() && RanAlone(plan, s, x, e) && x in plan.big && !plan.useBits
    requires plan.g.HasEdge(x, u) && plan.g.deps[u] == {x} && s.Phase(x, u).Waiting?
    ensures Smooth(plan, s') && s'.ranBy == map[x := e] && NoDependentRan(plan.g, s', x) && s'.Phase(x, u).Taken?
    ensures s'.pending == s.pending + {Claim(u, e, false)}
    ensures forall y: Task, z: Task :: z != u ==> s'.Phase(y, z) == s.Phase(y, z)
  {
    hide Lawful, NoDependentRan;
    var c;
    s', c := PullDown(plan, s, x, u);
    SameRuns(plan.g, s, s', x);
  }

  lemma LeafAlone(plan: Plan, x: Task) returns (s: State, e: Exec)
    requires plan.g.WellFormed() && x in plan.g.tasks && plan.g.deps[x] == {}
    ensures RanAlone(plan, s, x, e) && forall y, z :: plan.g.HasEdge(y, z) ==> s.Phase(y, z).Waiting?
  {
    s := RunFirst(plan, x);
    e := s.ranBy[x];
    hide Smooth, NoDependentRan;
    assert forall y, z :: plan.g.HasEdge(y, z) ==> z != x;
  }

  /** x's executor has looked at x -> u and x -> v ... */
  lemma PullBoth(plan: Plan, x: Task, u: Task, v: Task) returns (s: State, e: Exec)
    requires plan.g.WellFormed() && x in plan.big && !plan.useBits && x in plan.g.tasks && plan.g.deps[x] == {} && u != v
    requires plan.g.HasEdge(x, u) && plan.g.deps[u] == {x} && plan.g.HasEdge(x, v) && plan.g.deps[v] == {x}
    ensures Smooth(plan, s) && s.ranBy == map[x := e] && e != PROXY && Claim(u, e, false) in s.pending && Claim(v, e, false) in s.pending
    ensures forall c :: c in s.pending && c.exec == e ==> c == Claim(u, e, false) || c == Claim(v, e, false)
    ensures forall y, z :: plan.g.HasEdge(y, z) && z != u && z != v ==> s.Phase(y, z).Waiting?
  {
    var s0;
    s0, e := LeafAlone(plan, x);
    var s1 := PullFirst(plan, s0, x, u, e);
    hide Lawful, NoDependentRan, NoClaims;
    var c';
    s, c' := PullDown(plan, s1, x, v);
  }

  /** ... and has then run both. */
  lemma RunBoth(plan: Plan, x: Task, u: Task, v: Task) returns (s: State, e: Exec)
    requires plan.g.WellFormed() && x in plan.big && !plan.useBits && x in plan.g.tasks && plan.g.deps[x] == {} && u != v
    requires plan.g.HasEdge(x, u) && plan.g.deps[u] == {x} && plan.g.HasEdge(x, v) && plan.g.deps[v] == {x}
    ensures Smooth(plan, s) && s.ranBy == map[x := e, u := e, v := e] && NoClaims(s, e) && e != PROXY
    ensures forall y, z :: plan.g.HasEdge(y, z) && y != x ==> s.Phase(y, z).Waiting?
  {
    var s1;
    s1, e := PullBoth(plan, x, u, v);
    hide Lawful;
    var s2 := RunPulled(plan, s1, x, u);
    s := RunPulled(plan, s2, x, v);
    hide Smooth;
    forall y, z | plan.g.HasEdge(y, z) && y != x ensures s.Phase(y, z).Waiting? {
      assert y in plan.g.deps[z] && z != u && z != v;
    }
  }

  lemma SameRuns(g: Graph, s: State, s': State, x: Task)
    requires g.WellFormed() && NoDependentRan(g, s, x) && s'.runCount == s.runCount
    ensures NoDependentRan(g, s', x)
  {
  }

  /** Whoever becomes one task leaves out the other, and nobody else runs it. */
  lemma BecomingLosesTask(plan: Plan, x: Task, u: Task, v: Task, w: Task, t: Task)
    requires plan.g.WellFormed() && TwoToBecome(plan, x, u, v, w, t)
    ensures CanLose(plan, t)
  {
    hide Lawful, CanLose, CanComplete, Plan.FansOut, Plan.BecomeEdge, Abandoned, NoClaims, ListedBefore;
    var s, e := RunBoth(plan, x, u, v);
    var c;
    s, c := PullDown(plan, s, u, w);
    assert w != t;
    s := LeaveItOut(plan, s, v, t, c);
    AbandonedLosesTask(plan, s, v, t);
  }

  // ---- The queue is not empty when a final task has run ----------------------

  /** x is a big leaf with two dependents: u, a small task which only needs x and is followed by
      the final task f alone, and t, which also needs z and is put into the delayed queue. */
  ghost predicate FinalBesideQueue(plan: Plan, x: Task, u: Task, f: Task, z: Task, t: Task)
    requires plan.g.WellFormed()
  {
    && x in plan.big && !plan.useBits && x in plan.g.tasks && plan.g.deps[x] == {} && plan.g.Downstream(x) == {u, t}
    && u in plan.g.tasks && u !in plan.big && plan.g.deps[u] == {x} && plan.g.Downstream(u) == {f}
    && plan.g.deps[f] == {u} && plan.BecomeEdge(u, f) && plan.g.Downstream(f) == {}
    && plan.Holdable(x, t) && z != x && plan.g.HasEdge(z, t)
  }

  lemma HoldIt(plan: Plan, s: State, x: Task, t: Task) returns (s': State)
    requires plan.g.WellFormed() && Smooth(plan, s) && plan.g.HasEdge(x, t) && x in s.ranBy && NoClaims(s, s.ranBy[x])
    requires s.Phase(x, t).Waiting? && plan.Holdable(x, t)
    ensures Smooth(plan, s') && s' == s.(phase := s'.phase) && OnlyEdge(s, s', x, t) && s'.Phase(x, t).Held?
  {
    hide Lawful;
    s' := IntoQueue(plan, s, x, t);
    SetPhaseMoves(s, x, t, Held(s.Cached(s.ranBy[x])[x]));
  }

  /** x's executor has put x -> t into its queue, pulled u down and run it ... */
  lemma RunBesideQueue(plan: Plan, x: Task, u: Task, f: Task, z: Task, t: Task) returns (s: State, e: Exec)
    requires plan.g.WellFormed() && FinalBesideQueue(plan, x, u, f, z, t)
    ensures Smooth(plan, s) && s.ranBy == map[x := e, u := e] && e != PROXY && forall c :: c in s.pending ==> c.exec != e
    ensures s.Phase(x, t).Held? && s.Phase(x, u).Taken? && s.Phase(u, f).Waiting?
  {
    assert u in plan.g.Downstream(x) && t in plan.g.Downstream(x) && f in plan.g.Downstream(u);
    assert t != u && f != u;
    var s1;
    s1, e := QueueFirst(plan, x, t);
    hide Lawful, NoDependentRan, FinalBesideQueue, Graph.Downstream;
    var s2 := PullFirst(plan, s1, x, u, e);
    s := RunPulled(plan, s2, x, u);
  }

  lemma QueueFirst(plan: Plan, x: Task, t: Task) returns (s: State, e: Exec)
    requires plan.g.WellFormed() && x in plan.g.tasks && plan.g.deps[x] == {} && plan.Holdable(x, t) && plan.g.HasEdge(x, t)
    ensures RanAlone(plan, s, x, e) && s.Phase(x, t).Held?
    ensures forall y, b :: plan.g.HasEdge(y, b) && b != t ==> s.Phase(y, b).Waiting?
  {
    var s0;
    s0, e := LeafAlone(plan, x);
    hide Lawful, NoDependentRan, Plan.Holdable;
    s := HoldIt(plan, s0, x, t);
    SameRuns(plan.g, s0, s, x);
  }

  /** ... and become f. */
  lemma RunToFinal(plan: Plan, x: Task, u: Task, f: Task, z: Task, t: Task) returns (s: State, e: Exec)
    requires plan.g.WellFormed() && FinalBesideQueue(plan, x, u, f, z, t)
    ensures Smooth(plan, s) && s.ranBy == map[x := e, u := e, f := e] && e != PROXY && forall c :: c in s.pending ==> c.exec != e
    ensures s.Phase(x, t).Held? && s.Phase(x, u).Taken? && s.Phase(u, f).Taken?
  {
    var s1;
    s1, e := RunBesideQueue(plan, x, u, f, z, t);
    FinalIsLast(plan, x, u, f, z, t);
    hide Lawful, FinalBesideQueue, Plan.BecomeEdge;
    var s2, c := PullDown(plan, s1, u, f);
    s := RunPulled(plan, s2, u, f);
  }

  lemma FinalIsLast(plan: Plan, x: Task, u: Task, f: Task, z: Task, t: Task)
    requires plan.g.WellFormed() && FinalBesideQueue(plan, x, u, f, z, t)
    ensures plan.g.HasEdge(u, f) && plan.g.deps[f] == {u} && u !in plan.big && plan.BecomeEdge(u, f) && !plan.useBits && f != t && f != u && f != x
  {
    assert f in plan.g.Downstream(u) && t in plan.g.Downstream(x) && u in plan.g.Downstream(x);
  }

  lemma QuitNow(plan: Plan, s: State, e: Exec) returns (s': State)
    requires plan.g.WellFormed() && Lawful(plan, s) && s.gone == {} && e != PROXY && s.Used(e) && AtEnd(plan, s, e)
    ensures Lawful(plan, s') && s' == s.(gone := {e})
  {
    hide Lawful;
    LawfulStep(plan, s, Quit(e));
    s' := Apply(plan.g, s, Quit(e));
  }

  /** The branch for a final task returns without a look at the queue, and what is in it is lost. */
  lemma FinalTaskLosesQueue(plan: Plan, x: Task, u: Task, f: Task, z: Task, t: Task)
    requires plan.g.WellFormed() && FinalBesideQueue(plan, x, u, f, z, t)
    ensures CanLose(plan, t)
  {
    var s0, e := RunToFinal(plan, x, u, f, z, t);
    hide Lawful, CanLose, CanComplete, Plan.Holdable, Plan.BecomeEdge, Plan.FansOut;
    var s1 := Publish(plan, s0, f);
    assert SameEdges(s0, s1);
    EndsWithFinal(plan, s1, e, x, u, f, z, t);
    assert s1.Owns(e, x) && s1.Used(e);
    var s := QuitNow(plan, s1, e);
    assert SameEdges(s1, s);
    assert t in plan.g.Downstream(x);
    AbandonedLosesTask(plan, s, x, t);
  }

  lemma EndsWithFinal(plan: Plan, s: State, e: Exec, x: Task, u: Task, f: Task, z: Task, t: Task)
    requires plan.g.WellFormed() && FinalBesideQueue(plan, x, u, f, z, t)
    requires s.ranBy == map[x := e, u := e, f := e] && s.owed == map[] && f in s.store && forall c :: c in s.pending ==> c.exec != e
    requires s.Phase(x, t).Held? && s.Phase(x, u).Taken? && s.Phase(u, f).Taken?
    ensures AtEnd(plan, s, e)
  {
    assert u in plan.g.Downstream(x) && f in plan.g.Downstream(u);
    assert FinalsWritten(plan, s, e);
    forall y, b | plan.g.HasEdge(y, b) && s.Owns(e, y) ensures !s.Phase(y, b).Waiting? {
      assert b in plan.g.Downstream(y);
    }
    assert f in plan.g.Downstream(u) && u in plan.g.deps[f];
    assert plan.NotOnlyPulledDown(f) && s.Owns(e, f);
  }
}
