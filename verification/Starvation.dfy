/** For which plans a task can be claimed while one of its inputs can be read nowhere. */
module Starvation {
  import opened Graphs
  import opened Plans
  import opened FanIn
  import opened FanInSafety
  import opened FanInTheorems
  import opened LocalViews
  import opened Conduct
  import opened GivingUp
  import opened LawfulRuns
  import opened Colocation
  import opened Schedules
  import opened Stages
  import opened Sweeps

  /** A task has been claimed, and an input of it is neither stored nor with the claimant, who
      fails if it looks for it now. */
  ghost predicate Starving(plan: Plan, s: State, c: Claim, d: Task)
    requires plan.g.WellFormed()
  {
    c in s.pending && plan.g.HasEdge(d, c.task) && OutOfReach(s, c, d)
  }

  ghost predicate CanStarve(plan: Plan)
    requires plan.g.WellFormed()
  {
    exists s, c, d :: Lawful(plan, s) && Starving(plan, s, c, d)
  }

  ghost predicate Starvable(plan: Plan)
    requires plan.g.WellFormed()
  {
    exists d, t :: CanMiss(plan, d, t)
  }

  /** The claim c starves, and nothing has gone wrong before. */
  ghost predicate StarvesAlone(plan: Plan, s: State, c: Claim, d: Task, t: Task)
    requires plan.g.WellFormed()
  {
    Lawful(plan, s) && Starving(plan, s, c, d) && c.task == t && c.exec != PROXY && s.gone == {} && s.failed == {}
  }

  lemma AnyLineage(plan: Plan, d: Task) returns (k: seq<Task>)
    requires plan.g.WellFormed() && d in plan.g.tasks
    ensures Lineage(plan, k, d)
    decreases plan.g.level[d]
  {
    if Fresh(plan, d) {
      k := [d];
    } else {
      var y :| y in plan.g.deps[d];
      var k' := AnyLineage(plan, y);
      k := [d] + k';
      forall i: nat ensures Linked(plan, k, i) {
        if i > 1 { assert Linked(plan, k', i - 1); }
      }
    }
  }

  lemma NotEmpty(plan: Plan, k: seq<Task>, d: Task)
    requires plan.g.WellFormed() && Lineage(plan, k, d)
    ensures k != []
  {
  }

  /** Whoever ran an untied task is away from d, and does not have d's value. */
  lemma UntiedIsAway(plan: Plan, s: State, d: Task, k: seq<Task>, done: set<Task>, swept: bool, a: Task)
    requires plan.g.WellFormed() && Lineage(plan, k, d) && k != [] && Staged(plan, s, d, k, done, swept)
    requires d in done && a in done && !Tied(plan, k, d, a)
    ensures s.ranBy[a] != PROXY && s.ranBy[a] != s.ranBy[d] && d !in s.Cached(s.ranBy[a])
  {
    LineageNotBelow(plan, d, k, d);
    RunnerNotProxy(plan, s);
    hide Lawful, Ready, Leaves, Tied, Lineage, Untouched;
  }

  // ---- Counting an edge before its value is stored, and the others after it --

  /** From s to s', d -> t has been counted without d's value having been stored; nobody has
      ended, failed or claimed anything. */
  ghost predicate CountedLate(s: State, s': State, d: Task, t: Task) {
    && s'.ranBy == s.ranBy && s'.store == s.store && s'.cache == s.cache && s'.pending == s.pending
    && s'.gone == s.gone && s'.failed == s.failed && s.sent.Keys <= s'.sent.Keys
    && (forall a: Task, b: Task :: s'.Phase(a, b) == if b == t && a == d then Settled else s.Phase(a, b))
  }

  /** All of t's in-edges are counted but that of a, whose value is ready; d's value is not stored. */
  ghost predicate OneToCount(plan: Plan, s: State, d: Task, t: Task, a: Task)
    requires plan.g.WellFormed()
  {
    && Lawful(plan, s) && s.gone == {} && s.failed == {} && plan.g.HasEdge(d, t) && plan.g.HasEdge(a, t) && d !in s.store
    && Ready(plan, s, a) && Completes(plan.g, s, a, t)
  }

  lemma HandedAway(plan: Plan, s: State, d: Task, c: Claim) returns (s': State, c': Claim)
    requires plan.g.WellFormed() && Lawful(plan, s) && s.gone == {} && s.failed == {} && plan.g.HasEdge(d, c.task) && d !in s.store
    requires c in s.pending && c.mobile
    ensures StarvesAlone(plan, s', c', d, c.task)
  {
    hide Lawful;
    var e;
    s', e := HandOff(plan, s, c);
    c' := Claim(c.task, e, true);
    assert e != PROXY by { assert s.Used(PROXY); }
  }

  /** The claim of t, made by a's executor or by the proxy, goes to a new executor if it can, and
      otherwise stays where d's value is not. */
  lemma ClaimByOwner(plan: Plan, s: State, d: Task, t: Task, a: Task) returns (s': State, c: Claim)
    requires plan.g.WellFormed() && OneToCount(plan, s, d, t, a) && FreeToCount(s, a) && s.Phase(a, t).Waiting?
    requires plan.Mobile(a, t) || (s.ranBy[a] != PROXY && d !in s.Cached(s.ranBy[a]))
    ensures StarvesAlone(plan, s', c, d, t)
  {
    hide Lawful, Plan.Mobile, Plan.ToProxy, Completes;
    s' := LastStored(plan, s, a, t);
    c := ClaimFrom(plan, s, a, t);
    if plan.Mobile(a, t) {
      s', c := HandedAway(plan, s', d, c);
    } else {
      assert !plan.ToProxy(a, t) by { if plan.ToProxy(a, t) { ToProxyIsMobile(plan, a, t); } }
    }
  }

  lemma ClaimByProxy(plan: Plan, s: State, d: Task, t: Task, a: Task) returns (s': State, c: Claim)
    requires plan.g.WellFormed() && OneToCount(plan, s, d, t, a) && plan.ToProxy(a, t) && s.Phase(a, t).Proxied?
    ensures StarvesAlone(plan, s', c, d, t)
  {
    ToProxyIsMobile(plan, a, t);
    hide Lawful, Plan.Mobile, Plan.ToProxy, Completes;
    s' := CountByProxy(plan, s, a, t);
    s', c := HandedAway(plan, s', d, ClaimFrom(plan, s, a, t));
  }

  // ---- A value left to the proxy ---------------------------------------------

  lemma SendIt(plan: Plan, s: State, d: Task, t: Task) returns (s': State)
    requires plan.g.WellFormed() && Lawful(plan, s) && s.gone == {} && plan.g.HasEdge(d, t)
    requires d in s.ranBy && s.Phase(d, t).Waiting? && plan.FansOut(d)
    ensures Lawful(plan, s') && s' == s.(sent := s'.sent) && s.sent.Keys <= s'.sent.Keys && d in s'.sent
    ensures d in s.Cached(s.ranBy[d])
  {
    hide Lawful;
    OwnerHasValue(plan, s, d, t);
    var send := Send(s.ranBy[d], d);
    assert Enabled(plan.g, s, send) && Follows(plan, s, send);
    LawfulStep(plan, s, send);
    s' := Apply(plan.g, s, send);
  }

  lemma CountSentLate(plan: Plan, s: State, d: Task, t: Task, a: Task) returns (s': State)
    requires plan.g.WellFormed() && Calm(plan, s) && plan.g.HasEdge(d, t) && plan.g.HasEdge(a, t) && a != d
    requires d in s.ranBy && s.Phase(d, t).Waiting? && !s.Phase(a, t).Settled? && plan.FansOut(d) && plan.BecomeEdge(d, t)
    ensures Calm(plan, s') && CountedLate(s, s', d, t)
  {
    hide Lawful, CountEdge;
    var e := s.ranBy[d];
    var count := CountSent(e, d, t);
    var s1 := SendIt(plan, s, d, t);
    assert SameEdges(s, s1);
    assert Enabled(plan.g, s1, count) && Follows(plan, s1, count);
    LawfulStep(plan, s1, count);
    s' := Apply(plan.g, s1, count);
    NotTheLast(plan.g, s1, d, Claim(t, e, false), a);
  }

  /** Nothing is run below d on the way to t. */
  lemma NoneThrough(plan: Plan, d: Task, t: Task)
    requires plan.g.WellFormed() && CanMiss(plan, d, t) && plan.FansOut(d)
    ensures forall z :: z in AllAbove(plan.g, t) ==> plan.g.deps[z] <= AllAbove(plan.g, t) && !plan.g.HasEdge(d, z)
    ensures plan.g.deps[t] <= AllAbove(plan.g, t) && t !in AllAbove(plan.g, t)
  {
    hide Elsewhere, Plan.FansOut, Plan.Owable;
    if plan.g.Above(t, t) { AboveIsLower(plan.g, t, t); }
    forall z | z in AllAbove(plan.g, t) ensures plan.g.deps[z] <= AllAbove(plan.g, t) && !plan.g.HasEdge(d, z) {
      forall y | y in plan.g.deps[z] ensures y in AllAbove(plan.g, t) { AboveClosed(plan.g, y, z, t); }
    }
    forall y | y in plan.g.deps[t] ensures y in AllAbove(plan.g, t) { assert plan.g.Above(y, t); }
  }

  /** All above t has run, d's edge into t is counted late, and the others but a's after it. */
  lemma SentTooEarly(plan: Plan, s: State, d: Task, k: seq<Task>, done: set<Task>, t: Task, a: Task) returns (s': State)
    requires plan.g.WellFormed() && k != [] && Staged(plan, s, d, k, done, false) && t !in done && plan.g.HasEdge(d, t)
    requires plan.g.deps[t] <= done && plan.FansOut(d) && plan.BecomeEdge(d, t) && plan.g.HasEdge(a, t) && a != d
    ensures OneToCount(plan, s', d, t, a) && FreeToCount(s', a) && s'.Phase(a, t).Waiting?
    ensures s'.ranBy == s.ranBy && s'.cache == s.cache
  {
    OthersReady(plan, s, d, k, done, false, t);
    StagedBasics(plan, s, d, k, done, false);
    hide Lawful, Staged, Plan.FansOut, Plan.BecomeEdge;
    var s1 := CountSentLate(plan, s, d, t, a);
    s' := CountAll(plan, s1, plan.g.deps[t] - {d, a}, t, a);
    AllButOne(plan, s, s1, s', d, t, a);
  }

  lemma SentAndMissed(plan: Plan, d: Task, t: Task, a: Task, k: seq<Task>) returns (s: State, c: Claim)
    requires plan.g.WellFormed() && CanMiss(plan, d, t) && plan.FansOut(d) && plan.g.HasEdge(a, t) && a != d
    requires Lineage(plan, k, d) && k != [] && (plan.Mobile(a, t) || !Tied(plan, k, d, a))
    ensures StarvesAlone(plan, s, c, d, t)
  {
    var done := AllAbove(plan.g, t);
    NoneThrough(plan, d, t);
    SentIsBecome(plan, d, t);
    hide Lawful, Staged, Lineage, Plan.Mobile, Tied, CanMiss, AllAbove, Plan.FansOut, Plan.BecomeEdge, OneToCount, FreeToCount;
    var s0 := StageStart(plan, d, k);
    s0 := RunSet(plan, s0, d, k, {}, false, done);
    if !plan.Mobile(a, t) { UntiedIsAway(plan, s0, d, k, done, false, a); }
    s := SentTooEarly(plan, s0, d, k, done, t, a);
    s, c := ClaimByOwner(plan, s, d, t, a);
  }

  lemma SentIsBecome(plan: Plan, d: Task, t: Task)
    requires plan.g.WellFormed() && CanMiss(plan, d, t) && plan.FansOut(d)
    ensures plan.g.HasEdge(d, t) && plan.BecomeEdge(d, t)
  {
  }

  lemma StagedBasics(plan: Plan, s: State, d: Task, k: seq<Task>, done: set<Task>, swept: bool)
    requires plan.g.WellFormed() && k != [] && Staged(plan, s, d, k, done, swept)
    ensures s.ranBy.Keys == done && s.failed == {} && d !in s.store && Lawful(plan, s) && s.gone == {} && s.givingUp == {}
    ensures done <= plan.g.tasks && forall y :: y in done && y != d ==> Ready(plan, s, y)
  {
    hide Lawful, Ready, Camped, Leaves, Untouched;
  }

  lemma AllButOne(plan: Plan, s: State, s1: State, s2: State, d: Task, t: Task, a: Task)
    requires plan.g.WellFormed() && plan.g.HasEdge(d, t) && plan.g.HasEdge(a, t) && a != d
    requires CountedLate(s, s1, d, t) && Calm(plan, s2) && OnlyCounted(s1, s2, plan.g.deps[t] - {d, a}, t)
    requires s.failed == {} && d !in s.store && a in s.ranBy && Ready(plan, s, a) && s.Phase(a, t).Waiting?
    ensures OneToCount(plan, s2, d, t, a) && FreeToCount(s2, a) && s2.Phase(a, t).Waiting?
  {
    hide Lawful, Plan.FansOut;
  }

  // ---- A value in the queue --------------------------------------------------

  /** What waits for t, or for a task that only a give-up can count. */
  ghost function Stuck(plan: Plan, d: Task, t: Task): set<Task>
    requires plan.g.WellFormed()
  {
    set x | x in plan.g.Downstream(d) && (x == t || (plan.Holdable(d, x) && plan.Missed(d, x)))
  }

  /** What can be run without giving up. */
  ghost function Early(plan: Plan, d: Task, t: Task): set<Task>
    requires plan.g.WellFormed()
  {
    var stuck := Stuck(plan, d, t);
    set x | x in plan.g.tasks && x !in stuck && forall z :: z in stuck ==> !plan.g.Above(z, x)
  }

  /** ... and before the executor of d has looked at d's out-edges. */
  ghost function Earlier(plan: Plan, d: Task, t: Task): set<Task>
    requires plan.g.WellFormed()
  {
    set x | x in Early(plan, d, t) && (x == d || !plan.g.Above(d, x))
  }

  lemma EarlyIsClosed(plan: Plan, d: Task, t: Task)
    requires plan.g.WellFormed()
    ensures forall x :: x in Early(plan, d, t) ==> plan.g.deps[x] <= Early(plan, d, t)
    ensures forall x :: x in plan.g.tasks && plan.g.deps[x] == {} ==> x in Early(plan, d, t)
    ensures forall x :: x in plan.g.tasks && x !in Early(plan, d, t) && !plan.g.HasEdge(d, x) ==> !(plan.g.deps[x] <= Early(plan, d, t))
  {
    hide Plan.Holdable, Plan.Missed;
    forall x | x in Early(plan, d, t) ensures plan.g.deps[x] <= Early(plan, d, t) {
      forall y | y in plan.g.deps[x] ensures y in Early(plan, d, t) {
        assert plan.g.Above(y, x);
        forall z | z in Stuck(plan, d, t) ensures !plan.g.Above(z, y) { AboveThrough(plan.g, z, y, x); }
      }
    }
    forall x | x in plan.g.tasks && x !in Early(plan, d, t) && !plan.g.HasEdge(d, x) ensures !(plan.g.deps[x] <= Early(plan, d, t)) {
      var z :| z in Stuck(plan, d, t) && plan.g.Above(z, x);
      if z !in plan.g.deps[x] {
        var y :| y in plan.g.deps[x] && plan.g.Above(z, y);
        assert y !in Early(plan, d, t);
      }
    }
  }

  lemma EarlierIsClosed(plan: Plan, d: Task, t: Task)
    requires plan.g.WellFormed() && d in plan.g.tasks
    ensures Earlier(plan, d, t) <= Early(plan, d, t)
    ensures forall x :: x in Earlier(plan, d, t) ==> plan.g.deps[x] <= Earlier(plan, d, t) && !plan.g.HasEdge(d, x)
    ensures forall x :: x in plan.g.tasks && plan.g.deps[x] == {} ==> x in Earlier(plan, d, t)
    ensures Earlier(plan, d, t) !! plan.g.Downstream(d)
  {
    EarlyIsClosed(plan, d, t);
    hide Early;
    forall x | x in Earlier(plan, d, t) ensures plan.g.deps[x] <= Earlier(plan, d, t) && !plan.g.HasEdge(d, x) {
      if plan.g.Above(d, d) { AboveIsLower(plan.g, d, d); }
      forall y | y in plan.g.deps[x] ensures y in Earlier(plan, d, t) { AboveThrough(plan.g, d, y, x); }
    }
  }

  /** All that t needs can be run early. */
  lemma NeededIsEarly(plan: Plan, d: Task, t: Task)
    requires plan.g.WellFormed() && CanMiss(plan, d, t) && !plan.FansOut(d)
    ensures plan.g.deps[t] <= Early(plan, d, t) && t !in Early(plan, d, t) && d in Earlier(plan, d, t)
  {
    hide Elsewhere, NoneBelow, Plan.Owable;
    assert forall x :: x in Stuck(plan, d, t) ==> plan.g.HasEdge(d, x) && (x == t || !plan.g.Above(x, t));
    assert t in Stuck(plan, d, t);
    if plan.g.Above(t, t) { AboveIsLower(plan.g, t, t); }
    hide Stuck, StaysOut;
    forall y | y in plan.g.deps[t] ensures y in Early(plan, d, t) {
      assert plan.g.Above(y, t);
      forall z | z in Stuck(plan, d, t) ensures !plan.g.Above(z, y) { AboveThrough(plan.g, z, y, t); }
    }
  }

  /** What may not wait in the queue can be run as soon as d's out-edges are looked at. */
  lemma ChecksAreEarly(plan: Plan, d: Task, t: Task, x: Task)
    requires plan.g.WellFormed() && CanMiss(plan, d, t) && !plan.FansOut(d) && plan.g.HasEdge(d, x) && !plan.Holdable(d, x)
    ensures x in Early(plan, d, t) && !plan.Missed(d, x) && plan.g.deps[x] - {d} <= Earlier(plan, d, t)
  {
    assert !plan.Missed(d, x) && NoneBelow(plan.g, d, x) && plan.Holdable(d, t);
    assert forall z :: z in Stuck(plan, d, t) ==> plan.g.HasEdge(d, z) && plan.Holdable(d, z);
    hide CanMiss, Plan.Missed, Plan.Holdable, Stuck;
    forall z | z in Stuck(plan, d, t) ensures !plan.g.Above(z, x) {
      if plan.g.Above(z, x) { NotBelowDependent(plan.g, d, x, z); }
    }
    EarlyIsClosed(plan, d, t);
  }

  lemma NotBelowDependent(g: Graph, d: Task, x: Task, z: Task)
    requires g.WellFormed() && g.HasEdge(d, x) && NoneBelow(g, d, x) && g.HasEdge(d, z)
    ensures !g.Above(z, x)
  {
    if g.Above(z, x) {
      assert g.Above(d, z);
      if z !in g.deps[x] {
        var y :| y in g.deps[x] && g.Above(z, y);
        AboveClosed(g, d, z, y);
        if y == d { AboveIsLower(g, d, d); }
      }
    }
  }

  /** All that can be run without giving up has been, and d's executor has looked at its edges. */
  lemma RunEarly(plan: Plan, d: Task, t: Task, k: seq<Task>) returns (s: State)
    requires plan.g.WellFormed() && CanMiss(plan, d, t) && !plan.FansOut(d) && Lineage(plan, k, d) && k != []
    ensures Staged(plan, s, d, k, Early(plan, d, t), true) && s.pending == {}
  {
    MissedIsBig(plan, d, t);
    NeededIsEarly(plan, d, t);
    hide Lawful, Staged, Lineage, CanMiss, Early, Earlier;
    s := RunEarlier(plan, d, t, k);
    EarlierIsClosed(plan, d, t);
    s := LookAtAll(plan, s, d, t, k);
    RunnableAfter(plan, d, t);
    EarlyIsClosed(plan, d, t);
    hide Graph.Downstream, Plan.Holdable;
    s := RunSet(plan, s, d, k, Earlier(plan, d, t) + Checked(plan, d), true, Early(plan, d, t));
    NoClaimLeft(plan, s, d, k, Early(plan, d, t), true);
  }

  /** The dependents of d that may not wait in the queue. */
  ghost function Checked(plan: Plan, d: Task): set<Task>
    requires plan.g.WellFormed()
  {
    set z | z in plan.g.Downstream(d) && !plan.Holdable(d, z)
  }

  lemma RunEarlier(plan: Plan, d: Task, t: Task, k: seq<Task>) returns (s: State)
    requires plan.g.WellFormed() && d in plan.g.tasks && Lineage(plan, k, d) && k != []
    ensures Staged(plan, s, d, k, Earlier(plan, d, t), false) && s.pending == {}
  {
    EarlierIsClosed(plan, d, t);
    EarlyInGraph(plan, d, t);
    hide Lawful, Staged, Lineage, Early, Earlier;
    s := StageStart(plan, d, k);
    s := RunSet(plan, s, d, k, {}, false, Earlier(plan, d, t));
    NoClaimLeft(plan, s, d, k, Earlier(plan, d, t), false);
  }

  lemma LookAtAll(plan: Plan, s: State, d: Task, t: Task, k: seq<Task>) returns (s': State)
    requires plan.g.WellFormed() && CanMiss(plan, d, t) && !plan.FansOut(d) && Lineage(plan, k, d) && k != []
    requires Staged(plan, s, d, k, Earlier(plan, d, t), false) && s.pending == {} && d in Earlier(plan, d, t) && d in plan.big
    ensures Staged(plan, s', d, k, Earlier(plan, d, t) + Checked(plan, d), true) && s'.pending == {}
  {
    var later := set z | z in plan.g.Downstream(d) && plan.Holdable(d, z);
    assert plan.g.Downstream(d) == later + Checked(plan, d) && later !! Checked(plan, d);
    assert d in plan.g.tasks by { MissedIsBig(plan, d, t); }
    EarlierIsClosed(plan, d, t);
    forall z | z in Checked(plan, d) ensures !plan.Missed(d, z) && plan.g.deps[z] - {d} <= Earlier(plan, d, t) {
      ChecksAreEarly(plan, d, t, z);
    }
    hide Lawful, Staged, Lineage, CanMiss, Early, Earlier, Plan.Missed, Plan.FansOut, Checked;
    s' := Sweep(plan, s, d, k, Earlier(plan, d, t), later, Checked(plan, d));
  }

  lemma RunnableAfter(plan: Plan, d: Task, t: Task)
    requires plan.g.WellFormed() && CanMiss(plan, d, t) && !plan.FansOut(d)
    ensures Earlier(plan, d, t) + Checked(plan, d) <= Early(plan, d, t) <= plan.g.tasks
    ensures forall z :: z in Early(plan, d, t) && z !in Earlier(plan, d, t) + Checked(plan, d) ==> Runnable(plan, d, z, true)
  {
    MissedIsBig(plan, d, t);
    EarlyIsRunnable(plan, d, t);
    EarlyInGraph(plan, d, t);
    hide CanMiss, Early, Earlier, Plan.Holdable, Plan.Missed, Runnable;
    forall z | z in Checked(plan, d) ensures z in Early(plan, d, t) { ChecksAreEarly(plan, d, t, z); }
  }

  lemma MissedIsBig(plan: Plan, d: Task, t: Task)
    requires plan.g.WellFormed() && CanMiss(plan, d, t) && !plan.FansOut(d)
    ensures plan.g.HasEdge(d, t) && plan.Holdable(d, t) && d in plan.big && d in plan.g.tasks
  {
  }

  lemma EarlyInGraph(plan: Plan, d: Task, t: Task)
    requires plan.g.WellFormed()
    ensures Earlier(plan, d, t) <= Early(plan, d, t) <= plan.g.tasks
  {
  }

  lemma EarlyIsRunnable(plan: Plan, d: Task, t: Task)
    requires plan.g.WellFormed() && d in plan.big
    ensures forall z :: z in Early(plan, d, t) && (plan.g.HasEdge(d, z) ==> plan.Holdable(d, z)) ==> Runnable(plan, d, z, true)
  {
    hide Plan.Holdable, Plan.Missed;
    forall z | z in Early(plan, d, t) && (plan.g.HasEdge(d, z) ==> plan.Holdable(d, z)) ensures Runnable(plan, d, z, true) {
      assert z !in Stuck(plan, d, t);
    }
  }

  /** From s0 to s, all edges into ws from tasks that have run have been counted, but those of d,
      and but a -> t. */
  ghost predicate Drained(plan: Plan, s0: State, s: State, d: Task, a: Task, t: Task, ws: set<Task>)
    requires plan.g.WellFormed()
  {
    && Lawful(plan, s) && s == s0.(phase := s.phase)
    && (forall y, z :: plan.g.HasEdge(y, z) ==>
          s.Phase(y, z) == if z in ws && y in s0.ranBy && y != d && (y != a || z != t) then Settled else s0.Phase(y, z))
  }

  /** The dependencies of w whose edges are to be counted. */
  ghost function ToDrain(plan: Plan, s0: State, d: Task, a: Task, t: Task, w: Task): set<Task>
    requires plan.g.WellFormed() && w in plan.g.tasks
  {
    set y | y in plan.g.deps[w] && y in s0.ranBy && y != d && (y != a || w != t)
  }

  lemma DrainInto(plan: Plan, s0: State, s: State, d: Task, k: seq<Task>, a: Task, t: Task, ws: set<Task>, w: Task) returns (s': State)
    requires plan.g.WellFormed() && k != [] && Staged(plan, s0, d, k, s0.ranBy.Keys, true) && s0.pending == {}
    requires Drained(plan, s0, s, d, a, t, ws)
    requires w in plan.g.tasks && w !in s0.ranBy && w !in ws && (plan.g.HasEdge(d, w) || !(plan.g.deps[w] <= s0.ranBy.Keys))
    ensures Drained(plan, s0, s', d, a, t, ws + {w})
  {
    hide Lawful, Staged, Ready, Drained, Calm, ToDrain;
    var ys := ToDrain(plan, s0, d, a, t, w);
    var last := LeftUncounted(plan, s0, s, d, k, a, t, ws, w);
    CanDrain(plan, s0, s, d, k, a, t, ws, w);
    s' := CountAll(plan, s, ys, w, last);
    CalmIsLawful(plan, s');
    DrainedMore(plan, s0, s, s', d, a, t, ws, w);
  }

  lemma CalmIsLawful(plan: Plan, s: State)
    requires plan.g.WellFormed() && Calm(plan, s)
    ensures Lawful(plan, s)
  {
  }

  /** An edge into w that stays uncounted. */
  lemma LeftUncounted(plan: Plan, s0: State, s: State, d: Task, k: seq<Task>, a: Task, t: Task, ws: set<Task>, w: Task) returns (last: Task)
    requires plan.g.WellFormed() && k != [] && Staged(plan, s0, d, k, s0.ranBy.Keys, true) && Drained(plan, s0, s, d, a, t, ws)
    requires w in plan.g.tasks && w !in s0.ranBy && (plan.g.HasEdge(d, w) || !(plan.g.deps[w] <= s0.ranBy.Keys))
    ensures last in plan.g.deps[w] && !s.Phase(last, w).Settled? && ToDrain(plan, s0, d, a, t, w) <= plan.g.deps[w] - {last}
  {
    hide Lawful, Camped, Tied, Leaves, KeptByRunner, Ready;
    if d in plan.g.deps[w] {
      last := d;
    } else {
      last :| last in plan.g.deps[w] && last !in s0.ranBy;
    }
    assert plan.g.HasEdge(last, w);
  }

  lemma CanDrain(plan: Plan, s0: State, s: State, d: Task, k: seq<Task>, a: Task, t: Task, ws: set<Task>, w: Task)
    requires plan.g.WellFormed() && k != [] && Staged(plan, s0, d, k, s0.ranBy.Keys, true) && s0.pending == {}
    requires Drained(plan, s0, s, d, a, t, ws) && w in plan.g.tasks && w !in s0.ranBy && w !in ws
    ensures Calm(plan, s) && forall y :: y in ToDrain(plan, s0, d, a, t, w) ==> s.Phase(y, w).Waiting? && Ready(plan, s, y)
  {
    StagedBasics(plan, s0, d, k, s0.ranBy.Keys, true);
    assert Untouched(plan, s0, d, s0.ranBy.Keys, true);
    hide Lawful, Staged, Plan.FansOut;
    forall y | y in ToDrain(plan, s0, d, a, t, w) ensures s.Phase(y, w).Waiting? && Ready(plan, s, y) {
      assert plan.g.HasEdge(y, w) && Ready(plan, s0, y);
    }
  }

  lemma DrainedMore(plan: Plan, s0: State, s: State, s': State, d: Task, a: Task, t: Task, ws: set<Task>, w: Task)
    requires plan.g.WellFormed() && Drained(plan, s0, s, d, a, t, ws) && Lawful(plan, s') && w in plan.g.tasks
    requires OnlyCounted(s, s', ToDrain(plan, s0, d, a, t, w), w)
    ensures Drained(plan, s0, s', d, a, t, ws + {w})
  {
    hide Lawful;
  }

  lemma {:induction false} DrainAll(plan: Plan, s0: State, s: State, d: Task, k: seq<Task>, a: Task, t: Task, ws: set<Task>, todo: set<Task>)
    returns (s': State)
    requires plan.g.WellFormed() && k != [] && Staged(plan, s0, d, k, s0.ranBy.Keys, true) && s0.pending == {}
    requires Drained(plan, s0, s, d, a, t, ws) && ws !! todo && todo <= plan.g.tasks - s0.ranBy.Keys
    requires forall w :: w in todo ==> plan.g.HasEdge(d, w) || !(plan.g.deps[w] <= s0.ranBy.Keys)
    ensures Drained(plan, s0, s', d, a, t, ws + todo)
    decreases |todo|
  {
    hide Staged, Drained;
    if todo == {} {
      s' := s;
      assert ws + todo == ws;
    } else {
      var w :| w in todo;
      var s1 := DrainInto(plan, s0, s, d, k, a, t, ws, w);
      s' := DrainAll(plan, s0, s1, d, k, a, t, ws + {w}, todo - {w});
      assert ws + {w} + (todo - {w}) == ws + todo;
    }
  }

  /** d -> t waits in the queue of d's executor, and all other edges into t but a's are counted. */
  ghost predicate Almost(plan: Plan, s: State, d: Task, t: Task, a: Task)
    requires plan.g.WellFormed()
  {
    && Lawful(plan, s) && s.gone == {} && s.failed == {} && s.givingUp == {} && s.pending == {} && d !in s.store
    && plan.g.HasEdge(d, t) && plan.g.HasEdge(a, t) && a != d && d in s.ranBy && Ready(plan, s, a)
    && s.Phase(d, t).Held? && (forall y :: y in plan.g.deps[t] && y != d && y != a ==> s.Phase(y, t).Settled?)
  }

  /** ... that executor has nothing else to do, and a -> t is left to the proxy, or waits elsewhere. */
  ghost predicate Cornered(plan: Plan, s: State, d: Task, t: Task, a: Task)
    requires plan.g.WellFormed()
  {
    && Almost(plan, s, d, t, a) && NoneWaits(plan, s, s.ranBy[d])
    && if plan.ToProxy(a, t) then s.Phase(a, t).Proxied? else s.Phase(a, t).Waiting? && s.ranBy[a] != s.ranBy[d]
  }

  lemma DrainedNoneWaits(plan: Plan, s0: State, s: State, d: Task, k: seq<Task>, t: Task, a: Task, e: Exec)
    requires plan.g.WellFormed() && k != [] && Staged(plan, s0, d, k, s0.ranBy.Keys, true)
    requires Drained(plan, s0, s, d, a, t, plan.g.tasks - s0.ranBy.Keys)
    ensures forall y, z :: plan.g.HasEdge(y, z) && s.Owns(e, y) && (y != a || z != t) ==> !s.Phase(y, z).Waiting?
  {
    LawfulInv(plan, s);
    forall y, z | plan.g.HasEdge(y, z) && s.Owns(e, y) && (y != a || z != t) ensures !s.Phase(y, z).Waiting? {
      if z in s.ranBy {
        assert s.Claims(z) > 0 by { RanIsClaimed(plan.g, s, z); }
        hide Inv, Lawful;
        RanMeansCounted(plan.g, s, y, z);
      } else {
        hide Inv, Lawful, Camped, Tied, Leaves, KeptByRunner, Ready;
      }
    }
  }

  lemma RanIsClaimed(g: Graph, s: State, z: Task)
    requires g.WellFormed() && Inv(g, s) && z in s.ranBy
    ensures s.Claims(z) > 0
  {
  }

  lemma Corner(plan: Plan, s0: State, d: Task, k: seq<Task>, t: Task, a: Task) returns (s: State)
    requires plan.g.WellFormed() && k != [] && Lineage(plan, k, d) && Staged(plan, s0, d, k, s0.ranBy.Keys, true) && s0.pending == {}
    requires plan.g.HasEdge(d, t) && plan.g.HasEdge(a, t) && a != d && t !in s0.ranBy && plan.g.deps[t] <= s0.ranBy.Keys
    requires forall w :: w in plan.g.tasks - s0.ranBy.Keys ==> plan.g.HasEdge(d, w) || !(plan.g.deps[w] <= s0.ranBy.Keys)
    requires plan.ToProxy(a, t) || s0.ranBy[a] != s0.ranBy[d]
    ensures Cornered(plan, s, d, t, a) && s.ranBy == s0.ranBy && s.cache == s0.cache
  {
    StagedBasics(plan, s0, d, k, s0.ranBy.Keys, true);
    var out := plan.g.tasks - s0.ranBy.Keys;
    assert Drained(plan, s0, s0, d, a, t, {});
    hide Lawful, Staged, Lineage, Tied, Plan.ToProxy, Plan.FansOut, Ready, Drained, Cornered;
    var s1 := DrainAll(plan, s0, s0, d, k, a, t, {}, out);
    assert {} + out == out;
    DrainedNoneWaits(plan, s0, s1, d, k, t, a, s1.ranBy[d]);
    DrainedEdges(plan, s0, s1, d, k, t, a);
    if plan.ToProxy(a, t) {
      s := LeaveToProxy(plan, s1, a, t);
      SetPhaseMoves(s1, a, t, Proxied);
    } else {
      s := s1;
    }
    CorneredAtLast(plan, s1, s, d, t, a);
  }

  /** How the edges into t stand then. */
  lemma DrainedEdges(plan: Plan, s0: State, s: State, d: Task, k: seq<Task>, t: Task, a: Task)
    requires plan.g.WellFormed() && k != [] && Staged(plan, s0, d, k, s0.ranBy.Keys, true) && s0.pending == {}
    requires Drained(plan, s0, s, d, a, t, plan.g.tasks - s0.ranBy.Keys)
    requires plan.g.HasEdge(d, t) && plan.g.HasEdge(a, t) && a != d && t !in s0.ranBy && plan.g.deps[t] <= s0.ranBy.Keys
    ensures Almost(plan, s, d, t, a) && s.ranBy == s0.ranBy && s.cache == s0.cache && FreeToCount(s, a) && s.Phase(a, t).Waiting?
  {
    StagedBasics(plan, s0, d, k, s0.ranBy.Keys, true);
    OthersReady(plan, s0, d, k, s0.ranBy.Keys, true, t);
    assert forall y :: y in plan.g.deps[t] ==> plan.g.HasEdge(y, t);
    hide Lawful, Staged, Plan.FansOut;
  }

  lemma CorneredAtLast(plan: Plan, s1: State, s: State, d: Task, t: Task, a: Task)
    requires plan.g.WellFormed() && Almost(plan, s1, d, t, a) && s1.Phase(a, t).Waiting? && Lawful(plan, s)
    requires forall y, z :: plan.g.HasEdge(y, z) && s1.Owns(s1.ranBy[d], y) && (y != a || z != t) ==> !s1.Phase(y, z).Waiting?
    requires if plan.ToProxy(a, t) then s == SetPhase(s1, a, t, Proxied) && OnlyEdge(s1, s, a, t) && s.Phase(a, t).Proxied?
             else s == s1 && s1.ranBy[a] != s1.ranBy[d]
    ensures Cornered(plan, s, d, t, a)
  {
    hide Lawful, Plan.ToProxy, Plan.FansOut, Graph.WellFormed;
  }

  lemma GiveItUp(plan: Plan, s: State, d: Task, t: Task, a: Task) returns (s': State)
    requires plan.g.WellFormed() && Cornered(plan, s, d, t, a)
    ensures OneToCount(plan, s', d, t, a) && s'.Phase(a, t) == s.Phase(a, t) && s'.givingUp == {s.ranBy[d]} && s'.pending == {}
    ensures s'.ranBy == s.ranBy && s'.cache == s.cache
  {
    var e := s.ranBy[d];
    RunnerNotProxy(plan, s);
    assert Enabled(plan.g, s, GiveUp(e)) && Follows(plan, s, GiveUp(e));
    hide Lawful, NoneWaits, Plan.FansOut, Follows;
    LawfulStep(plan, s, GiveUp(e));
    var s1 := Apply(plan.g, s, GiveUp(e));
    assert SameEdges(s, s1);
    s' := CountOwed(plan, s1, d, t, a);
    GaveItUp(plan, s1, s', d, t, a);
  }

  lemma CountOwed(plan: Plan, s: State, d: Task, t: Task, a: Task) returns (s': State)
    requires plan.g.WellFormed() && Lawful(plan, s) && s.gone == {} && plan.g.HasEdge(d, t) && plan.g.HasEdge(a, t) && a != d
    requires d in s.ranBy && s.ranBy[d] in s.givingUp && s.Phase(d, t).Held? && !s.Phase(a, t).Settled?
    ensures Lawful(plan, s') && s' == s.(phase := s'.phase, owed := s'.owed)
    ensures forall x: Task, y: Task :: s'.Phase(x, y) == if x == d && y == t then Settled else s.Phase(x, y)
  {
    hide Lawful, CountEdge;
    var e := s.ranBy[d];
    var step := CountOwing(e, d, t);
    assert Enabled(plan.g, s, step) && Follows(plan, s, step);
    LawfulStep(plan, s, step);
    s' := Apply(plan.g, s, step);
    CountOwingApplied(plan.g, s, e, d, t);
    NotTheLast(plan.g, s, d, Claim(t, e, false), a);
  }

  lemma GaveItUp(plan: Plan, s: State, s': State, d: Task, t: Task, a: Task)
    requires plan.g.WellFormed() && plan.g.HasEdge(d, t) && plan.g.HasEdge(a, t) && Ready(plan, s, a) && Lawful(plan, s')
    requires forall y :: y in plan.g.deps[t] && y != d && y != a ==> s.Phase(y, t).Settled?
    requires s'.ranBy == s.ranBy && s'.store == s.store && s'.sent == s.sent && s'.gone == {} && s'.failed == {} && d !in s.store
    requires forall y: Task :: s'.Phase(y, t) == if y == d then Settled else s.Phase(y, t)
    ensures OneToCount(plan, s', d, t, a)
  {
    hide Lawful;
  }

  lemma HeldAndMissed(plan: Plan, d: Task, t: Task, a: Task, k: seq<Task>) returns (s: State, c: Claim)
    requires plan.g.WellFormed() && CanMiss(plan, d, t) && !plan.FansOut(d) && plan.g.HasEdge(a, t) && a != d
    requires Lineage(plan, k, d) && k != [] && (plan.ToProxy(a, t) || !Tied(plan, k, d, a))
    ensures StarvesAlone(plan, s, c, d, t)
  {
    MissedIsBig(plan, d, t);
    NeededIsEarly(plan, d, t);
    EarlyIsClosed(plan, d, t);
    EarlyInGraph(plan, d, t);
    hide Lawful, Staged, Lineage, Tied, CanMiss, Early, Earlier, Plan.ToProxy, Plan.Holdable, Plan.FansOut, Cornered, OneToCount;
    var s0 := RunEarly(plan, d, t, k);
    StagedBasics(plan, s0, d, k, Early(plan, d, t), true);
    if !plan.ToProxy(a, t) { UntiedIsAway(plan, s0, d, k, Early(plan, d, t), true, a); }
    var s1 := Corner(plan, s0, d, k, t, a);
    var s2 := GiveItUp(plan, s1, d, t, a);
    s, c := LastOfQueue(plan, s1, s2, d, t, a);
  }

  lemma LastOfQueue(plan: Plan, s: State, s1: State, d: Task, t: Task, a: Task) returns (s': State, c: Claim)
    requires plan.g.WellFormed() && Cornered(plan, s, d, t, a) && OneToCount(plan, s1, d, t, a)
    requires s1.Phase(a, t) == s.Phase(a, t) && s1.givingUp == {s.ranBy[d]} && s1.pending == {} && s1.ranBy == s.ranBy && s1.cache == s.cache
    requires !plan.ToProxy(a, t) ==> s.ranBy[a] != PROXY && d !in s.Cached(s.ranBy[a])
    ensures StarvesAlone(plan, s', c, d, t)
  {
    hide Lawful, Plan.ToProxy, Plan.FansOut, Completes, NoneWaits, StarvesAlone;
    assert s1.Cached(s1.ranBy[a]) == s.Cached(s.ranBy[a]);
    if plan.ToProxy(a, t) {
      s', c := ClaimByProxy(plan, s1, d, t, a);
    } else {
      s', c := ClaimByOwner(plan, s1, d, t, a);
    }
  }

  // ---- For which plans -------------------------------------------------------

  lemma MissedOnceClaimed(plan: Plan, d: Task, t: Task) returns (s: State, c: Claim)
    requires plan.g.WellFormed() && CanMiss(plan, d, t)
    ensures StarvesAlone(plan, s, c, d, t)
  {
    var a :| plan.g.HasEdge(a, t) && a != d && Elsewhere(plan, d, a, t);
    var k := AnyLineage(plan, d);
    if k' :| Lineage(plan, k', d) && !Tied(plan, k', d, a) { k := k'; }
    NotEmpty(plan, k, d);
    hide CanMiss, Lineage, Tied, Plan.Mobile, Plan.FansOut, Plan.ToProxy, StarvesAlone;
    if plan.FansOut(d) {
      s, c := SentAndMissed(plan, d, t, a, k);
    } else {
      s, c := HeldAndMissed(plan, d, t, a, k);
    }
  }

  /** Some lawful run has a claimant who can read an input nowhere, if and only if the plan has
      an edge that can be missed. */
  lemma StarvesExactlyWhenStarvable(plan: Plan)
    requires plan.g.WellFormed()
    ensures CanStarve(plan) <==> Starvable(plan)
  {
    hide Lawful, CanMiss;
    if CanStarve(plan) {
      var s, c, d :| Lawful(plan, s) && Starving(plan, s, c, d);
      OnlyIfCanMiss(plan, s, c, d);
    }
    if Starvable(plan) {
      var d, t :| CanMiss(plan, d, t);
      var s, c := MissedOnceClaimed(plan, d, t);
    }
  }
}
