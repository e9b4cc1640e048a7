/** Which tasks are bound to run where d's value is, in every lawful run: what a claimant of a
    task downstream of d can be missing, and what it cannot. */
module Colocation {
  import opened Graphs
  import opened Plans
  import opened FanIn
  import opened FanInSafety
  import opened FanInTheorems
  import opened LocalViews
  import opened Conduct
  import opened GivingUp

  /** z can be run by an executor that has run nothing before it. */
  ghost predicate Fresh(plan: Plan, z: Task)
    requires plan.g.WellFormed()
  {
    z in plan.g.tasks && (plan.g.deps[z] == {} || exists y :: y in plan.g.deps[z] && plan.Mobile(y, z))
  }

  /** k[i] is a dependency of k[i - 1], which stays where k[i] ran if that edge is the last. */
  ghost predicate Linked(plan: Plan, k: seq<Task>, i: nat)
    requires plan.g.WellFormed()
  {
    0 < i < |k| ==> plan.g.HasEdge(k[i], k[i - 1]) && !plan.Mobile(k[i], k[i - 1])
  }

  /** One executor can run all of k, from the last task to the first, which is d. */
  ghost predicate Lineage(plan: Plan, k: seq<Task>, d: Task)
    requires plan.g.WellFormed()
  {
    && k != [] && k[0] == d && Fresh(plan, k[|k| - 1])
    && (forall i {:trigger Linked(plan, k, i)} :: Linked(plan, k, i))
  }

  /** Given that k is what d's executor runs on the way to d, and that d's value stays out of
      the store, z can only be run by an executor that runs d or has read d's value. */
  ghost predicate Tied(plan: Plan, k: seq<Task>, d: Task, z: Task)
    requires plan.g.WellFormed()
    decreases if z in plan.g.tasks then plan.g.level[z] else 0
  {
    z in plan.g.tasks &&
    (|| z in k || d in plan.g.deps[z]
     || (plan.g.deps[z] != {} && forall y :: y in plan.g.deps[z] ==> Tied(plan, k, d, y) && !plan.Mobile(y, z)))
  }

  /** The claimant of t may come from a, and not have d's value: through the proxy or, if d's
      executor can still count a -> t after it has counted d -> t, on a new executor; or a is
      run where d's value never was. */
  ghost predicate Elsewhere(plan: Plan, d: Task, a: Task, t: Task)
    requires plan.g.WellFormed()
  {
    || (if plan.FansOut(d) then plan.Mobile(a, t) else plan.ToProxy(a, t))
    || exists k :: Lineage(plan, k, d) && !Tied(plan, k, d, a)
  }

  /** d's value can stay out of the store until t is claimed.  If the proxy stores it, that is
      when the proxy has counted no edge into a task above t.  The value of a big task is stored
      when its executor has looked at all out-edges and one of them could neither be taken by a
      check nor wait in the queue; or when it has given up to run a task above t that no check
      could take. */
  ghost predicate StaysOut(plan: Plan, d: Task, t: Task)
    requires plan.g.WellFormed()
  {
    forall x :: plan.g.HasEdge(d, x) ==>
      if plan.FansOut(d) then x == t || !plan.g.Above(x, t)
      else if plan.Holdable(d, x) then plan.Missed(d, x) ==> !plan.g.Above(x, t)
      else !plan.Missed(d, x) && NoneBelow(plan.g, d, x)
  }

  /** d -> t may be counted before d's value is stored, that can stay out of the store for so
      long, and some other dependency of t may be the last, and away from that value. */
  ghost predicate CanMiss(plan: Plan, d: Task, t: Task)
    requires plan.g.WellFormed()
  {
    && plan.g.HasEdge(d, t) && plan.Owable(d, t) && StaysOut(plan, d, t)
    && (exists a :: plan.g.HasEdge(a, t) && a != d && Elsewhere(plan, d, a, t))
  }

  // ---- What lawful runs keep -------------------------------------------------

  /** Who ran v was new, or had run a dependency of v before. */
  ghost predicate RunInPlace(plan: Plan, s: State, v: Task)
    requires plan.g.WellFormed()
  {
    v in s.ranBy && v in plan.g.tasks ==> Fresh(plan, v) || exists y :: y in plan.g.deps[v] && s.Owns(s.ranBy[v], y)
  }

  ghost predicate ClaimedInPlace(plan: Plan, s: State, c: Claim)
    requires plan.g.WellFormed()
  {
    c in s.pending ==>
      && c.task in plan.g.tasks
      && (Fresh(plan, c.task) || (!c.mobile && exists y :: y in plan.g.deps[c.task] && s.Owns(c.exec, y)))
  }

  /** Who ran v still has v's input d, if t needs d too and has not run. */
  ghost predicate KeepsInput(g: Graph, s: State, d: Task, v: Task, t: Task)
    requires g.WellFormed()
  {
    v in s.ranBy && g.HasEdge(d, v) && g.HasEdge(d, t) && s.Runs(t) == 0 ==> d in s.Cached(s.ranBy[v])
  }

  ghost predicate StoredFirst(plan: Plan, s: State, d: Task, x: Task)
    requires plan.g.WellFormed()
  {
    plan.g.HasEdge(d, x) && plan.ToProxy(d, x) && (s.Phase(d, x).Settled? || s.Phase(d, x).Taken?) ==> d in s.store
  }

  ghost predicate BackedUnlessOwable(plan: Plan, s: State, d: Task, t: Task)
    requires plan.g.WellFormed()
  {
    plan.g.HasEdge(d, t) && !plan.Owable(d, t) ==> Backed(plan.g, s, d, t)
  }

  ghost predicate Whereabouts(plan: Plan, s: State)
    requires plan.g.WellFormed()
  {
    && (forall v {:trigger RunInPlace(plan, s, v)} :: RunInPlace(plan, s, v))
    && (forall c {:trigger ClaimedInPlace(plan, s, c)} :: ClaimedInPlace(plan, s, c))
    && (forall d, v, t {:trigger KeepsInput(plan.g, s, d, v, t)} :: KeepsInput(plan.g, s, d, v, t))
    && (forall d, x {:trigger StoredFirst(plan, s, d, x)} :: StoredFirst(plan, s, d, x))
    && (forall d, t {:trigger BackedUnlessOwable(plan, s, d, t)} :: BackedUnlessOwable(plan, s, d, t))
  }

  lemma InitWhereabouts(plan: Plan, lambda: map<Task, Exec>)
    requires plan.g.WellFormed() && OwnLambdas(plan, lambda)
    ensures Whereabouts(plan, Init(plan.g, lambda))
  {
  }

  /** Who ran what only grows. */
  ghost predicate RunsKept(s: State, s': State) {
    forall d :: d in s.ranBy ==> d in s'.ranBy && s'.ranBy[d] == s.ranBy[d]
  }

  lemma StepKeepsRuns(g: Graph, s: State, step: Step)
    requires g.WellFormed() && Discipline(g, s) && Enabled(g, s, step)
    ensures RunsKept(s, Apply(g, s, step))
  {
    hide Apply, Enabled, Discipline;
    forall d | d in s.ranBy ensures d in Apply(g, s, step).ranBy && Apply(g, s, step).ranBy[d] == s.ranBy[d] {
      RanByStill(g, s, step, d);
    }
  }

  // ---- Who runs, and who claims ----------------------------------------------

  lemma StillClaimedInPlace(plan: Plan, s: State, s': State, c: Claim)
    requires plan.g.WellFormed() && ClaimedInPlace(plan, s, c) && c in s.pending && RunsKept(s, s')
    ensures ClaimedInPlace(plan, s', c)
  {
    if !Fresh(plan, c.task) {
      var y :| y in plan.g.deps[c.task] && s.Owns(c.exec, y);
      assert s'.Owns(c.exec, y);
    }
  }

  lemma MoveClaimsInPlace(plan: Plan, s: State, step: Step, c: Claim)
    requires plan.g.WellFormed() && EdgesInPlace(plan, s) && MovesEdge(step)
    requires Enabled(plan.g, s, step) && Follows(plan, s, step)
    requires c in Apply(plan.g, s, step).pending && c !in s.pending
    ensures ClaimedInPlace(plan, Apply(plan.g, s, step), c)
  {
    NewClaimOfMove(plan.g, s, step);
    MovesOwnEdge(plan.g, s, step);
    EdgeStepMovesOne(plan.g, s, step);
    assert step.Count? ==> (step.mobile <==> plan.Mobile(step.d, step.t));
    assert step.ProxyCount? ==> s.Phase(step.d, step.t).Proxied?;
    hide Apply, Enabled, Follows, Plan.Mobile;
    if c.mobile {
      assert plan.Mobile(step.d, step.t) by {
        if step.ProxyCount? { assert plan.ToProxy(step.d, step.t); ToProxyIsMobile(plan, step.d, step.t); }
      }
    } else {
      assert s.Owns(c.exec, step.d);
    }
  }

  lemma ToProxyIsMobile(plan: Plan, d: Task, t: Task)
    requires plan.ToProxy(d, t)
    ensures plan.Mobile(d, t)
  {
  }

  lemma StepClaimsInPlace(plan: Plan, s: State, step: Step, c: Claim)
    requires plan.g.WellFormed() && Discipline(plan.g, s) && EdgesInPlace(plan, s) && ClaimedInPlace(plan, s, c)
    requires step.Invoke? ==> ClaimedInPlace(plan, s, step.c)
    requires Enabled(plan.g, s, step) && Follows(plan, s, step)
    ensures ClaimedInPlace(plan, Apply(plan.g, s, step), c)
  {
    hide EdgesInPlace, Follows, Fresh, Apply, Enabled, Discipline;
    var s' := Apply(plan.g, s, step);
    StepKeepsRuns(plan.g, s, step);
    if c in s.pending {
      StillClaimedInPlace(plan, s, s', c);
    } else if c in s'.pending && MovesEdge(step) {
      MoveClaimsInPlace(plan, s, step, c);
    } else if c in s'.pending {
      OtherNewClaims(plan.g, s, step, c);
    }
  }

  lemma OtherNewClaims(g: Graph, s: State, step: Step, c: Claim)
    requires g.WellFormed() && Enabled(g, s, step) && !MovesEdge(step)
    requires c in Apply(g, s, step).pending && c !in s.pending
    ensures step.Invoke? && step.c in s.pending && step.c.mobile && c.task == step.c.task
  {
    hide Graph.WellFormed, Inputs;
  }

  lemma StepRunsInPlace(plan: Plan, s: State, step: Step, v: Task)
    requires plan.g.WellFormed() && Discipline(plan.g, s) && RunInPlace(plan, s, v) && Enabled(plan.g, s, step)
    requires step.Execute? ==> ClaimedInPlace(plan, s, step.c)
    ensures RunInPlace(plan, Apply(plan.g, s, step), v)
  {
    hide Apply, Enabled, Fresh;
    var s' := Apply(plan.g, s, step);
    StepKeepsRuns(plan.g, s, step);
    if v in s'.ranBy && v !in s.ranBy { FreshNodeWaits(plan.g, s, step, v); }
    hide Discipline;
    if v in s'.ranBy && v in plan.g.tasks && !Fresh(plan, v) {
      var y :| y in plan.g.deps[v] && s.Owns(s'.ranBy[v], y);
      assert s'.Owns(s'.ranBy[v], y);
    }
  }

  // ---- Where values are ------------------------------------------------------

  /** A cache loses a value only if no task that needs it has still to run. */
  lemma CacheKeeps(g: Graph, s: State, step: Step, e: Exec, d: Task, t: Task)
    requires g.WellFormed() && Inv(g, s) && Enabled(g, s, step) && e != PROXY
    requires d in s.Cached(e) && g.HasEdge(d, t) && s.Runs(t) == 0 && s.Used(e)
    ensures d in Apply(g, s, step).Cached(e)
  {
    hide Inv;
    if MovesEdge(step) {
      EdgeStepMovesOne(g, s, step);
    } else if step.Evict? {
      if step.d == d && step.e == e { EvictableIsUnneeded(g, s, e, d, t); }
      hide Graph.WellFormed, State.Used;
    } else if Quiet(step) {
      QuietApplied(g, s, step);
    } else {
      hide Graph.WellFormed, Inputs;
    }
  }

  lemma StepKeepsInput(g: Graph, s: State, step: Step, d: Task, v: Task, t: Task)
    requires g.WellFormed() && Inv(g, s) && Enabled(g, s, step) && KeepsInput(g, s, d, v, t)
    requires forall x :: x in s.ranBy ==> s.ranBy[x] != PROXY
    ensures KeepsInput(g, Apply(g, s, step), d, v, t)
  {
    hide Apply, Enabled, Supply, Discipline;
    var s' := Apply(g, s, step);
    StepKeepsRuns(g, s, step);
    if v in s'.ranBy && g.HasEdge(d, v) && g.HasEdge(d, t) && s'.Runs(t) == 0 {
      RunsGrow(g, s, step, t);
      if v in s.ranBy {
        OwnerUsed(s, s.ranBy[v], v);
        CacheKeeps(g, s, step, s.ranBy[v], d, t);
      } else {
        FreshNodeWaits(g, s, step, v);
        ExecuteChanges(g, s, step.c);
      }
    }
  }

  lemma RunsGrow(g: Graph, s: State, step: Step, t: Task)
    requires g.WellFormed() && Enabled(g, s, step)
    ensures s.Runs(t) <= Apply(g, s, step).Runs(t)
  {
    if MovesEdge(step) {
      EdgeStepMovesOne(g, s, step);
    } else if Quiet(step) {
      QuietApplied(g, s, step);
    } else {
      hide Graph.WellFormed, Inputs;
    }
  }

  /** An edge that stores its source first is counted only then. */
  lemma MoveStoresFirst(plan: Plan, s: State, step: Step)
    requires plan.g.WellFormed() && EdgesInPlace(plan, s) && MovesEdge(step) && !Parks(step) && !step.Bookkeep?
    requires Enabled(plan.g, s, step) && Follows(plan, s, step) && plan.ToProxy(step.d, step.t)
    ensures step.d in s.store
  {
    MovesOwnEdge(plan.g, s, step);
    assert plan.g.HasEdge(step.d, step.t);
    hide Completes, Done, Graph.WellFormed, Plan.Missed;
  }

  lemma StepStoresFirst(plan: Plan, s: State, step: Step, d: Task, x: Task)
    requires plan.g.WellFormed() && EdgesInPlace(plan, s) && StoredFirst(plan, s, d, x)
    requires Enabled(plan.g, s, step) && Follows(plan, s, step)
    ensures StoredFirst(plan, Apply(plan.g, s, step), d, x)
  {
    hide Apply, Enabled, Follows, EdgesInPlace, Plan.ToProxy;
    var s' := Apply(plan.g, s, step);
    StepOnlyAdds(plan.g, s, step);
    if !MovesEdge(step) {
      SamePhaseOtherwise(plan.g, s, step);
      assert SameEdges(s, s');
    } else {
      EdgeStepMovesOne(plan.g, s, step);
      if step.d == d && step.t == x && plan.g.HasEdge(d, x) && plan.ToProxy(d, x) {
        if Parks(step) {
          ParkApplied(plan.g, s, step);
          hide OnlyEdge;
          SetPhaseMoves(s, d, x, ParkedPhase(s, step));
        } else if step.Bookkeep? {
          BookkeepsTaken(plan.g, s, step);
        } else {
          MoveStoresFirst(plan, s, step);
        }
      }
    }
  }

  lemma BookkeepsTaken(g: Graph, s: State, step: Step)
    requires g.WellFormed() && step.Bookkeep? && Enabled(g, s, step)
    ensures s.Phase(step.d, step.t).Taken?
  {
  }

  lemma LateMeansOwable(plan: Plan, s: State, step: Step, d: Task, t: Task)
    requires plan.g.WellFormed() && EdgesInPlace(plan, s) && CountsLate(step, d, t)
    requires Enabled(plan.g, s, step) && Follows(plan, s, step)
    ensures plan.Owable(d, t)
  {
    hide Completes, Done, Graph.WellFormed;
  }

  lemma StepKeepsWhereabouts(plan: Plan, s: State, step: Step)
    requires plan.g.WellFormed() && Inv(plan.g, s) && LawInv(plan, s) && Whereabouts(plan, s)
    requires Enabled(plan.g, s, step) && Follows(plan, s, step)
    ensures Whereabouts(plan, Apply(plan.g, s, step))
  {
    hide Inv, EdgesInPlace, EndedInOrder, Apply, Enabled, Follows;
    var s' := Apply(plan.g, s, step);
    InvIsDiscipline(plan.g, s);
    hide RunInPlace, ClaimedInPlace, KeepsInput, StoredFirst, BackedUnlessOwable;
    forall v ensures RunInPlace(plan, s', v) {
      assert RunInPlace(plan, s, v) && (step.Execute? ==> ClaimedInPlace(plan, s, step.c));
      StepRunsInPlace(plan, s, step, v);
    }
    forall c ensures ClaimedInPlace(plan, s', c) {
      assert ClaimedInPlace(plan, s, c) && (step.Invoke? ==> ClaimedInPlace(plan, s, step.c));
      StepClaimsInPlace(plan, s, step, c);
    }
    forall d, v, t ensures KeepsInput(plan.g, s', d, v, t) {
      assert KeepsInput(plan.g, s, d, v, t);
      StepKeepsInput(plan.g, s, step, d, v, t);
    }
    forall d, x ensures StoredFirst(plan, s', d, x) {
      assert StoredFirst(plan, s, d, x);
      StepStoresFirst(plan, s, step, d, x);
    }
    forall d, t ensures BackedUnlessOwable(plan, s', d, t) {
      assert BackedUnlessOwable(plan, s, d, t);
      StepBacksUnlessOwable(plan, s, step, d, t);
    }
  }

  lemma InvIsDiscipline(g: Graph, s: State)
    requires g.WellFormed() && Inv(g, s)
    ensures Discipline(g, s)
  {
  }

  lemma StepBacksUnlessOwable(plan: Plan, s: State, step: Step, d: Task, t: Task)
    requires plan.g.WellFormed() && Inv(plan.g, s) && EdgesInPlace(plan, s) && BackedUnlessOwable(plan, s, d, t)
    requires Enabled(plan.g, s, step) && Follows(plan, s, step)
    ensures BackedUnlessOwable(plan, Apply(plan.g, s, step), d, t)
  {
    hide Inv, Apply, Enabled, Follows, Backed, EdgesInPlace, Plan.Owable;
    if plan.g.HasEdge(d, t) && !plan.Owable(d, t) {
      if CountsLate(step, d, t) { LateMeansOwable(plan, s, step, d, t); }
      StepKeepsBacked(plan.g, s, step, d, t);
    }
  }

  lemma {:induction false} LawKeepsWhereabouts(plan: Plan, s: State, steps: seq<Step>, s': State)
    requires plan.g.WellFormed() && Inv(plan.g, s) && LawInv(plan, s) && Whereabouts(plan, s) && LeadsTo(plan, s, steps, s')
    ensures Whereabouts(plan, s')
    decreases |steps|
  {
    hide Inv, Apply, Enabled, Follows, LawInv, Whereabouts;
    if steps != [] {
      InvIsDiscipline(plan.g, s);
      hide Discipline;
      StepKeepsInv(plan.g, s, steps[0]);
      StepKeepsLawInv(plan, s, steps[0]);
      StepKeepsWhereabouts(plan, s, steps[0]);
      LawKeepsWhereabouts(plan, Apply(plan.g, s, steps[0]), steps[1..], s');
    }
  }

  lemma LawfulWhereabouts(plan: Plan, s: State)
    requires plan.g.WellFormed() && Lawful(plan, s)
    ensures Whereabouts(plan, s)
  {
    var lambda: map<Task, Exec> :| OwnLambdas(plan, lambda) && Onwards(plan, Init(plan.g, lambda), s);
    InitWhereabouts(plan, lambda);
    InitLawInv(plan, lambda);
    InitDiscipline(plan.g, lambda);
    InitSupply(plan.g, lambda);
    hide Init, LeadsTo, LawInv, Whereabouts, Discipline, Supply;
    var steps :| LeadsTo(plan, Init(plan.g, lambda), steps, s);
    LawKeepsWhereabouts(plan, Init(plan.g, lambda), steps, s);
  }

  // ---- What a claimant can be missing ----------------------------------------

  /** The tasks that the executor of v ran on its way to v. */
  lemma {:induction false} LineageOf(plan: Plan, s: State, v: Task) returns (k: seq<Task>)
    requires plan.g.WellFormed() && Whereabouts(plan, s) && v in s.ranBy && s.ranBy.Keys <= plan.g.tasks
    ensures Lineage(plan, k, v) && forall z :: z in k ==> s.Owns(s.ranBy[v], z)
    decreases plan.g.level[v]
  {
    if Fresh(plan, v) {
      k := [v];
    } else {
      assert RunInPlace(plan, s, v);
      var y :| y in plan.g.deps[v] && s.Owns(s.ranBy[v], y);
      var k' := LineageOf(plan, s, y);
      k := [v] + k';
      forall i: nat ensures Linked(plan, k, i) {
        if i > 1 { assert Linked(plan, k', i - 1); }
      }
    }
  }

  /** Who ran a tied task has d's value. */
  lemma {:induction false} TiedHasValue(plan: Plan, s: State, k: seq<Task>, d: Task, t: Task, z: Task)
    requires plan.g.WellFormed() && Whereabouts(plan, s) && Inv(plan.g, s) && d in s.ranBy && plan.g.HasEdge(d, t) && s.Runs(t) == 0
    requires forall x :: x in k ==> s.Owns(s.ranBy[d], x)
    requires z in s.ranBy && Tied(plan, k, d, z)
    ensures d in s.Cached(s.ranBy[z])
    decreases plan.g.level[z]
  {
    hide Discipline, ValuesRight, Plan.Mobile;
    if z in k {
      assert Retained(plan.g, s, d, t);
    } else if d in plan.g.deps[z] {
      assert KeepsInput(plan.g, s, d, z, t);
    } else {
      assert RunInPlace(plan, s, z);
      var y :| y in plan.g.deps[z] && s.Owns(s.ranBy[z], y);
      TiedHasValue(plan, s, k, d, t, y);
    }
  }

  /** A claim can only miss an input as CanMiss has it. */
  lemma OnlyIfCanMiss(plan: Plan, s: State, c: Claim, d: Task)
    requires plan.g.WellFormed() && Lawful(plan, s) && c in s.pending && plan.g.HasEdge(d, c.task) && OutOfReach(s, c, d)
    ensures CanMiss(plan, d, c.task)
  {
    var t := c.task;
    hide Lawful, Elsewhere, StaysOut, Plan.Owable, Inv, QueueInv;
    LawfulInv(plan, s);
    LawfulWhereabouts(plan, s);
    LawfulQueueInv(plan, s);
    LawfulLawInv(plan, s);
    ClaimIsUnrun(plan.g, s, c);
    hide LawInv;
    assert plan.Owable(d, t) by { assert BackedUnlessOwable(plan, s, d, t); }
    hide Whereabouts;
    var a;
    if plan.FansOut(d) {
      SentStaysOut(plan, s, c, d);
      a := LastAway(plan, s, c, d);
    } else {
      OwedIfMissed(plan, s, c, d);
      BigStaysOut(plan, s, c, d);
      a := CountedAway(plan, s, c, d);
    }
  }

  lemma SentStaysOut(plan: Plan, s: State, c: Claim, d: Task)
    requires plan.g.WellFormed() && Inv(plan.g, s) && Whereabouts(plan, s)
    requires c in s.pending && plan.g.HasEdge(d, c.task) && OutOfReach(s, c, d) && plan.Owable(d, c.task) && plan.FansOut(d)
    ensures StaysOut(plan, d, c.task)
  {
    var t := c.task;
    ClaimIsUnrun(plan.g, s, c);
    assert plan.BecomeEdge(d, t);
    hide Inv, Whereabouts;
    forall x | plan.g.HasEdge(d, x) ensures x == t || !plan.g.Above(x, t) {
      if x != t && plan.g.Above(x, t) { ForcedIntoStore(plan, s, d, x, t); }
    }
  }

  lemma ForcedIntoStore(plan: Plan, s: State, d: Task, x: Task, t: Task)
    requires plan.g.WellFormed() && Inv(plan.g, s) && Whereabouts(plan, s) && s.Claims(t) > 0
    requires plan.g.HasEdge(d, x) && plan.ToProxy(d, x) && plan.g.Above(x, t)
    ensures d in s.store
  {
    AboveRan(plan.g, s, x, t);
    RanMeansCounted(plan.g, s, d, x);
    assert StoredFirst(plan, s, d, x);
  }

  lemma ClaimIsUnrun(g: Graph, s: State, c: Claim)
    requires g.WellFormed() && Inv(g, s) && c in s.pending
    ensures s.Claims(c.task) > 0 && s.Runs(c.task) == 0 && forall d :: g.HasEdge(d, c.task) ==> d in s.ranBy
  {
    hide Supply, TakenIsLast;
    forall d | g.HasEdge(d, c.task) ensures d in s.ranBy {
      RanMeansCounted(g, s, d, c.task);
    }
  }

  /** For a value left to the proxy: whose executor made the claim. */
  lemma LastAway(plan: Plan, s: State, c: Claim, d: Task) returns (a: Task)
    requires plan.g.WellFormed() && Inv(plan.g, s) && Whereabouts(plan, s) && plan.FansOut(d)
    requires c in s.pending && plan.g.HasEdge(d, c.task) && OutOfReach(s, c, d) && plan.Owable(d, c.task)
    ensures plan.g.HasEdge(a, c.task) && a != d && Elsewhere(plan, d, a, c.task)
  {
    var t := c.task;
    hide Discipline, ValuesRight;
    ClaimIsUnrun(plan.g, s, c);
    assert ClaimedInPlace(plan, s, c);
    assert !plan.Mobile(d, t);
    hide Plan.Mobile, Plan.Owable, Plan.FansOut;
    if Fresh(plan, t) {
      a :| a in plan.g.deps[t] && plan.Mobile(a, t);
    } else {
      a :| a in plan.g.deps[t] && s.Owns(c.exec, a);
      assert Retained(plan.g, s, d, t);
      AwayIsUntied(plan, s, d, t, a);
    }
  }

  /** A task run by someone without d's value is not tied to it. */
  lemma AwayIsUntied(plan: Plan, s: State, d: Task, t: Task, a: Task)
    requires plan.g.WellFormed() && Inv(plan.g, s) && Whereabouts(plan, s) && plan.g.HasEdge(d, t) && s.Runs(t) == 0
    requires d in s.ranBy && a in s.ranBy && d !in s.Cached(s.ranBy[a])
    ensures exists k :: Lineage(plan, k, d) && !Tied(plan, k, d, a)
  {
    hide Discipline, ValuesRight, Tied, Lineage;
    var k := LineageOf(plan, s, d) by { RanInGraph(plan.g, s); }
    if Tied(plan, k, d, a) { TiedHasValue(plan, s, k, d, t, a); }
  }

  /** A big value that is missed is owed for that very edge. */
  lemma OwedIfMissed(plan: Plan, s: State, c: Claim, d: Task)
    requires plan.g.WellFormed() && Lawful(plan, s) && c in s.pending && plan.g.HasEdge(d, c.task) && OutOfReach(s, c, d)
    requires !plan.FansOut(d)
    ensures Edge(d, c.task) in s.owed && d !in s.store && d !in s.Cached(c.exec)
  {
    hide Lawful, EdgesInPlace, EndedInOrder, Reachable, Plan.FansOut;
    LawfulReachable(plan, s);
    LawfulLawInv(plan, s);
    InputsWithinReach(plan.g, s, c, d);
  }

  lemma BigStaysOut(plan: Plan, s: State, c: Claim, d: Task)
    requires plan.g.WellFormed() && Inv(plan.g, s) && LawInv(plan, s) && QueueInv(plan, s)
    requires c in s.pending && plan.g.HasEdge(d, c.task) && Edge(d, c.task) in s.owed && d !in s.store && !plan.FansOut(d)
    ensures StaysOut(plan, d, c.task)
  {
    var t := c.task;
    ClaimIsUnrun(plan.g, s, c);
    forall x | plan.g.HasEdge(d, x)
      ensures if plan.Holdable(d, x) then plan.Missed(d, x) ==> !plan.g.Above(x, t) else !plan.Missed(d, x) && NoneBelow(plan.g, d, x)
    {
      hide Inv, LawInv, QueueInv, NoneBelow, Plan.Missed, Plan.Holdable, Plan.FansOut;
      if plan.Holdable(d, x) {
        if plan.Missed(d, x) && plan.g.Above(x, t) { MissedIsBlocked(plan, s, d, x, t); }
      } else {
        SweptByChecks(plan, s, d, x, t);
      }
    }
  }

  /** While d's value is owed, an edge of d that may not be held has been taken by a check. */
  lemma SweptByChecks(plan: Plan, s: State, d: Task, x: Task, t: Task)
    requires plan.g.WellFormed() && LawInv(plan, s) && QueueInv(plan, s) && plan.g.HasEdge(d, x) && !plan.Holdable(d, x)
    requires Edge(d, t) in s.owed && d !in s.store && !plan.FansOut(d)
    ensures !plan.Missed(d, x) && NoneBelow(plan.g, d, x)
  {
    assert OwedInTime(plan, s, Edge(d, t)) && Edge(d, t).src == d;
    assert s.Phase(d, x).Settled? || s.Phase(d, x).Taken?;
    assert CheckedFirst(plan, s, d, x);
    hide NoneBelow, Plan.Missed;
  }

  /** A task above t that no check could take would have come to run only in a give-up, and
      nothing below it before d's value was written. */
  lemma MissedIsBlocked(plan: Plan, s: State, d: Task, x: Task, t: Task)
    requires plan.g.WellFormed() && Inv(plan.g, s) && QueueInv(plan, s)
    requires plan.g.HasEdge(d, x) && plan.Holdable(d, x) && plan.Missed(d, x)
    requires Edge(d, t) in s.owed && d !in s.store && s.Claims(t) > 0
    ensures !plan.g.Above(x, t)
  {
    if plan.g.Above(x, t) {
      AboveRan(plan.g, s, x, t);
      RanMeansCounted(plan.g, s, d, x);
      var w := DependentClaimed(plan.g, s, x, t);
      RanMeansCounted(plan.g, s, x, w);
      NotFlushed(plan, s, d, x, t);
      hide Inv, QueueInv, Plan.Holdable, Plan.Missed;
    }
  }

  /** x has run, although it was counted in a give-up that is not over: its edges all wait. */
  lemma NotFlushed(plan: Plan, s: State, d: Task, x: Task, t: Task)
    requires plan.g.WellFormed() && QueueInv(plan, s)
    requires plan.g.HasEdge(d, x) && plan.Holdable(d, x) && plan.Missed(d, x) && (s.Phase(d, x).Settled? || s.Phase(d, x).Taken?)
    requires Edge(d, t) in s.owed && d !in s.store && x in s.ranBy
    ensures forall w :: plan.g.HasEdge(x, w) ==> s.Phase(x, w).Waiting?
  {
    assert NeverTaken(plan, s, d, x) && CountedInFlush(plan, s, d, x);
    hide Plan.Holdable, Plan.Missed;
  }

  lemma {:induction false} DependentClaimed(g: Graph, s: State, x: Task, t: Task) returns (w: Task)
    requires g.WellFormed() && Inv(g, s) && g.Above(x, t) && s.Claims(t) > 0
    ensures g.HasEdge(x, w) && s.Claims(w) > 0
    decreases g.level[t]
  {
    hide Inv;
    if x in g.deps[t] {
      w := t;
    } else {
      var y :| y in g.deps[t] && g.Above(x, y);
      assert g.Above(y, t);
      AboveRan(g, s, y, t);
      w := DependentClaimed(g, s, x, y);
    }
  }

  /** For a big value: whoever made the claim is away from it. */
  lemma CountedAway(plan: Plan, s: State, c: Claim, d: Task) returns (a: Task)
    requires plan.g.WellFormed() && Inv(plan.g, s) && Whereabouts(plan, s) && QueueInv(plan, s) && !plan.FansOut(d)
    requires c in s.pending && plan.g.HasEdge(d, c.task) && Edge(d, c.task) in s.owed && d !in s.store && d !in s.Cached(c.exec)
    ensures plan.g.HasEdge(a, c.task) && a != d && Elsewhere(plan, d, a, c.task)
  {
    var t := c.task;
    ClaimIsUnrun(plan.g, s, c);
    a := MakerOf(plan, s, c, d);
    if !plan.ToProxy(a, t) {
      RunnerKeeps(plan.g, s, d, t);
      NotWithOthers(plan, s, d, t, s.ranBy[a]);
      hide Inv, Whereabouts, QueueInv;
      AwayIsUntied(plan, s, d, t, a);
    }
  }

  lemma MakerOf(plan: Plan, s: State, c: Claim, d: Task) returns (a: Task)
    requires plan.g.WellFormed() && QueueInv(plan, s) && d in s.ranBy
    requires c in s.pending && plan.g.HasEdge(d, c.task) && Edge(d, c.task) in s.owed && d !in s.store
    ensures MadeAway(plan, s, d, c, a)
  {
    assert AwayRight(plan, s, d, c);
    a :| MadeAway(plan, s, d, c, a);
  }

  lemma NotWithOthers(plan: Plan, s: State, d: Task, t: Task, e: Exec)
    requires plan.g.WellFormed() && QueueInv(plan, s) && Edge(d, t) in s.owed && d !in s.store && !s.Owns(e, d)
    ensures d !in s.Cached(e)
  {
    assert OwedInTime(plan, s, Edge(d, t)) && OnlyWithRunner(plan, s, d, e) && Edge(d, t).src == d;
  }

  lemma RunnerKeeps(g: Graph, s: State, d: Task, t: Task)
    requires g.WellFormed() && Inv(g, s) && g.HasEdge(d, t) && d in s.ranBy && s.Runs(t) == 0
    ensures d in s.Cached(s.ranBy[d])
  {
    hide Discipline, ValuesRight;
    assert Retained(g, s, d, t);
  }

  lemma RanInGraph(g: Graph, s: State)
    requires g.WellFormed() && Inv(g, s)
    ensures s.ranBy.Keys <= g.tasks
  {
  }

  /** A big value is not missed where all other inputs are counted by tasks that read it. */
  lemma ReadersDoNotMiss(plan: Plan, d: Task, t: Task)
    requires plan.g.WellFormed() && plan.g.HasEdge(d, t) && d in plan.big
    requires forall a :: plan.g.HasEdge(a, t) && a != d ==> d in plan.g.deps[a] && !plan.ToProxy(a, t)
    ensures !CanMiss(plan, d, t)
  {
    hide StaysOut, Plan.Owable, Lineage;
    forall a | plan.g.HasEdge(a, t) && a != d ensures !Elsewhere(plan, d, a, t) {
      assert forall k :: Tied(plan, k, d, a);
    }
  }
}
