/** What lawful runs keep about big tasks whose values are not stored: who has such a value, how
    their out-edges are dealt with, and what is blocked while their executor gives up. */
module GivingUp {
  import opened Graphs
  import opened Plans
  import opened FanIn
  import opened FanInSafety
  import opened FanInTheorems
  import opened LocalViews
  import opened Conduct

  /** No other dependency of x comes after d. */
  ghost predicate NoneBelow(g: Graph, d: Task, x: Task)
    requires g.WellFormed() && x in g.tasks
  {
    forall y :: y in g.deps[x] && y != d ==> !g.Above(d, y)
  }

  // ---- How edges move --------------------------------------------------------

  /** No edge begins to wait again, and only a waiting edge is put into the queue. */
  lemma EdgeMovesOn(g: Graph, s: State, step: Step, y: Task, z: Task)
    requires g.WellFormed() && Enabled(g, s, step)
    ensures Apply(g, s, step).Phase(y, z).Waiting? ==> s.Phase(y, z).Waiting?
    ensures Apply(g, s, step).Phase(y, z).Held? ==> s.Phase(y, z).Held? || s.Phase(y, z).Waiting?
  {
    if MovesEdge(step) {
      EdgeStepMovesOne(g, s, step);
      if Parks(step) {
        ParkApplied(g, s, step);
        ParkedPhases(g, s, step);
      } else {
        CountingSettles(g, s, step);
      }
      hide Apply, Enabled, Graph.WellFormed;
    } else {
      SamePhaseOtherwise(g, s, step);
    }
  }

  /** While its executor gives up, a waiting edge waits on. */
  lemma WaitingStays(plan: Plan, s: State, step: Step, y: Task, z: Task)
    requires plan.g.WellFormed() && Enabled(plan.g, s, step) && Follows(plan, s, step)
    requires y in s.ranBy && s.ranBy[y] in s.givingUp && s.Phase(y, z).Waiting?
    ensures Apply(plan.g, s, step).Phase(y, z).Waiting?
  {
    if MovesEdge(step) {
      hide Apply, Enabled, Follows, Graph.WellFormed;
      EdgeStepMovesOne(plan.g, s, step);
      if step.ProxyCount? || step.Bookkeep? {
        MovesNoWaiting(plan.g, s, step);
      } else if step.d == y {
        BlockedWhileGivingUp(plan, s, step);
      }
    } else {
      SamePhaseOtherwise(plan.g, s, step);
    }
  }

  lemma MovesNoWaiting(g: Graph, s: State, step: Step)
    requires g.WellFormed() && (step.ProxyCount? || step.Bookkeep?) && Enabled(g, s, step)
    ensures !s.Phase(step.d, step.t).Waiting?
  {
  }

  /** Who gives up moves no waiting edge, and takes none by a check. */
  lemma BlockedWhileGivingUp(plan: Plan, s: State, step: Step)
    requires plan.g.WellFormed() && MovesEdge(step) && Enabled(plan.g, s, step) && Follows(plan, s, step)
    requires step.d in s.ranBy && s.ranBy[step.d] in s.givingUp && !step.ProxyCount? && !step.Bookkeep?
    ensures s.Phase(step.d, step.t).Held? && (step.Count? || step.CountOwing?)
  {
    hide Graph.WellFormed, Done, NoClaims, NoDependentRan;
  }

  /** An edge counted without its value stored and not the last was held, and is owed now. */
  lemma NewlyOwed(plan: Plan, s: State, step: Step, edge: Edge)
    requires plan.g.WellFormed() && Enabled(plan.g, s, step) && Follows(plan, s, step)
    requires edge in Apply(plan.g, s, step).owed && edge !in s.owed
    ensures step.CountOwing? && edge == Edge(step.d, step.t) && s.Owns(step.e, step.d) && step.e in s.givingUp
    ensures s.Phase(step.d, step.t).Held? && !Completes(plan.g, s, step.d, step.t) && plan.g.HasEdge(step.d, step.t)
  {
    if MovesEdge(step) {
      EdgeStepMovesOne(plan.g, s, step);
      MovesOwnEdge(plan.g, s, step);
      if step.CountOwing? {
        CountOwingApplied(plan.g, s, step.e, step.d, step.t);
        hide Apply, CountEdge;
      } else {
        OwesNoMore(plan.g, s, step);
      }
      hide Graph.WellFormed, Done;
    } else if Quiet(step) {
      QuietOwes(plan.g, s, step);
    } else {
      hide Graph.WellFormed, Inputs;
    }
  }

  lemma OwesNoMore(g: Graph, s: State, step: Step)
    requires g.WellFormed() && MovesEdge(step) && Enabled(g, s, step) && !step.CountOwing?
    ensures Apply(g, s, step).owed == s.owed
  {
    if Counts(step) {
      CountApplied(g, s, step);
      CountEdgeSettles(g, s, step.d, CountingClaim(step));
    } else {
      hide Graph.WellFormed, Done;
    }
  }

  lemma SameMode(g: Graph, s: State, step: Step)
    requires g.WellFormed() && Enabled(g, s, step) && !step.GiveUp? && !step.Resume?
    ensures Apply(g, s, step).givingUp == s.givingUp
  {
    if MovesEdge(step) { EdgeStepMovesOne(g, s, step); }
    hide Graph.WellFormed, Inputs;
  }

  lemma Mode(g: Graph, s: State, step: Step)
    requires g.WellFormed() && Enabled(g, s, step)
    ensures Apply(g, s, step).givingUp == if step.GiveUp? then s.givingUp + {step.e} else if step.Resume? then s.givingUp - {step.e} else s.givingUp
  {
    if !step.GiveUp? && !step.Resume? { SameMode(g, s, step); }
  }

  // ---- Nodes and the queue ---------------------------------------------------

  /** While an executor gives up, its nodes are untouched or dealt with. */
  ghost predicate WholeNode(g: Graph, s: State, y: Task)
    requires g.WellFormed()
  {
    y in s.ranBy && s.ranBy[y] in s.givingUp ==>
      (forall z :: g.HasEdge(y, z) ==> s.Phase(y, z).Waiting?) || (forall z :: g.HasEdge(y, z) ==> !s.Phase(y, z).Waiting?)
  }

  lemma GaveUpIdle(plan: Plan, s: State, step: Step)
    requires plan.g.WellFormed() && Follows(plan, s, step)
    ensures step.GiveUp? ==> NoneWaits(plan, s, step.e)
    ensures step.Resume? ==> QueueStored(plan, s, step.e) && AllWritten(s, step.e)
  {
    hide NoneWaits, QueueStored, AllWritten;
  }

  lemma StepKeepsWhole(plan: Plan, s: State, step: Step, y: Task)
    requires plan.g.WellFormed() && Discipline(plan.g, s) && Enabled(plan.g, s, step) && Follows(plan, s, step)
    requires WholeNode(plan.g, s, y)
    ensures WholeNode(plan.g, Apply(plan.g, s, step), y)
  {
    hide Apply, Enabled, Discipline, Follows;
    var s' := Apply(plan.g, s, step);
    Mode(plan.g, s, step);
    if y in s'.ranBy && s'.ranBy[y] in s'.givingUp {
      if y !in s.ranBy {
        FreshNodeWaits(plan.g, s, step, y);
      } else {
        RanByStill(plan.g, s, step, y);
        GaveUpIdle(plan, s, step);
        forall z | plan.g.HasEdge(y, z)
          ensures s.ranBy[y] in s.givingUp && s.Phase(y, z).Waiting? ==> s'.Phase(y, z).Waiting?
          ensures s'.Phase(y, z).Waiting? ==> s.Phase(y, z).Waiting?
        {
          EdgeMovesOn(plan.g, s, step, y, z);
          if s.ranBy[y] in s.givingUp && s.Phase(y, z).Waiting? { WaitingStays(plan, s, step, y, z); }
        }
      }
    }
  }

  lemma RanByStill(g: Graph, s: State, step: Step, y: Task)
    requires g.WellFormed() && Discipline(g, s) && Enabled(g, s, step) && y in s.ranBy
    ensures y in Apply(g, s, step).ranBy && Apply(g, s, step).ranBy[y] == s.ranBy[y]
  {
    if MovesEdge(step) {
      EdgeStepMovesOne(g, s, step);
    } else if Quiet(step) {
      QuietApplied(g, s, step);
    } else {
      if step.Execute? { ClaimedIsFresh(g, s, step.c); }
      hide Discipline, Graph.WellFormed, Inputs;
    }
  }

  /** Only Execute adds to what has run, and the new node's edges all wait. */
  lemma FreshNodeWaits(g: Graph, s: State, step: Step, y: Task)
    requires g.WellFormed() && Discipline(g, s) && Enabled(g, s, step) && y in Apply(g, s, step).ranBy && y !in s.ranBy
    ensures step.Execute? && step.c.task == y && step.c in s.pending && Apply(g, s, step).ranBy[y] == step.c.exec
    ensures g.deps[y] <= s.Cached(step.c.exec).Keys
    ensures forall z :: g.HasEdge(y, z) ==> Apply(g, s, step).Phase(y, z).Waiting?
  {
    if MovesEdge(step) {
      EdgeStepMovesOne(g, s, step);
    } else if Quiet(step) {
      QuietApplied(g, s, step);
    } else if step.Execute? {
      ClaimedIsFresh(g, s, step.c);
      ExecuteChanges(g, s, step.c);
      hide Discipline, Apply, Graph.WellFormed;
    }
  }

  // ---- What is owed ----------------------------------------------------------

  /** A write that is owed was given up on: its executor is still in the middle of that, and
      has dealt with all other out-edges. */
  ghost predicate OwedInTime(plan: Plan, s: State, edge: Edge)
    requires plan.g.WellFormed()
  {
    edge in s.owed && edge.src !in s.store ==>
      && edge.src in s.ranBy && s.ranBy[edge.src] in s.givingUp && plan.Holdable(edge.src, edge.dst)
      && plan.g.HasEdge(edge.src, edge.dst) && s.Phase(edge.src, edge.dst).Settled?
      && (forall z :: plan.g.HasEdge(edge.src, z) ==> !s.Phase(edge.src, z).Waiting?)
  }

  lemma SettledStays(g: Graph, s: State, step: Step, y: Task, z: Task)
    requires g.WellFormed() && Enabled(g, s, step) && s.Phase(y, z).Settled?
    ensures Apply(g, s, step).Phase(y, z).Settled?
  {
    if MovesEdge(step) {
      EdgeStepMovesOne(g, s, step);
      MovesUnsettled(g, s, step);
      hide Apply, Enabled, Graph.WellFormed;
    } else {
      SamePhaseOtherwise(g, s, step);
    }
  }

  lemma MovesUnsettled(g: Graph, s: State, step: Step)
    requires g.WellFormed() && MovesEdge(step) && Enabled(g, s, step)
    ensures !s.Phase(step.d, step.t).Settled?
  {
    hide Graph.WellFormed, Done;
  }

  lemma NewlyOwedInTime(plan: Plan, s: State, step: Step, edge: Edge)
    requires plan.g.WellFormed() && EdgesInPlace(plan, s) && Enabled(plan.g, s, step) && Follows(plan, s, step)
    requires WholeNode(plan.g, s, edge.src) && edge in Apply(plan.g, s, step).owed && edge !in s.owed
    ensures edge.src in s.ranBy && s.ranBy[edge.src] in s.givingUp && plan.Holdable(edge.src, edge.dst)
    ensures plan.g.HasEdge(edge.src, edge.dst) && forall z :: plan.g.HasEdge(edge.src, z) ==> !s.Phase(edge.src, z).Waiting?
    ensures step.CountOwing? && Apply(plan.g, s, step).Phase(edge.src, edge.dst).Settled?
  {
    NewlyOwed(plan, s, step, edge);
    OwingChanges(plan.g, s, step.e, step.d, step.t);
    hide Apply, Enabled, Follows, Plan.Holdable, Plan.FansOut, Plan.ToProxy, Plan.BecomeEdge, Graph.WellFormed;
  }

  lemma StepKeepsOwedInTime(plan: Plan, s: State, step: Step, edge: Edge)
    requires plan.g.WellFormed() && Discipline(plan.g, s) && EdgesInPlace(plan, s)
    requires Enabled(plan.g, s, step) && Follows(plan, s, step)
    requires OwedInTime(plan, s, edge) && WholeNode(plan.g, s, edge.src)
    ensures OwedInTime(plan, Apply(plan.g, s, step), edge)
  {
    var s' := Apply(plan.g, s, step);
    if edge in s'.owed && edge.src !in s'.store {
      Mode(plan.g, s, step);
      StillUnstored(plan.g, s, step, edge.src);
      assert step.Resume? ==> AllWritten(s, step.e);
      hide Apply, Enabled, Follows, Discipline, Plan.Holdable, EdgesInPlace;
      if edge !in s.owed { NewlyOwedInTime(plan, s, step, edge); } else { SettledStays(plan.g, s, step, edge.src, edge.dst); }
      hide WholeNode;
      RanByStill(plan.g, s, step, edge.src);
      forall z | plan.g.HasEdge(edge.src, z) ensures !s'.Phase(edge.src, z).Waiting? {
        EdgeMovesOn(plan.g, s, step, edge.src, z);
      }
    }
  }

  lemma StillUnstored(g: Graph, s: State, step: Step, d: Task)
    requires g.WellFormed() && Enabled(g, s, step) && d !in Apply(g, s, step).store
    ensures d !in s.store
  {
    StepOnlyAdds(g, s, step);
    hide Apply, Enabled;
  }

  lemma InvDiscipline(g: Graph, s: State)
    requires g.WellFormed() && Inv(g, s)
    ensures Discipline(g, s)
  {
  }

  // ---- Who has the value -----------------------------------------------------

  /** A big value that is not stored is with whoever made it. */
  ghost predicate OnlyWithRunner(plan: Plan, s: State, d: Task, e: Exec) {
    d in plan.big && d !in s.store && d in s.Cached(e) ==> s.Owns(e, d)
  }

  /** The claim c of a task that misses d's value was made by another executor than d's, or by
      the proxy, or is still with d's executor. */
  ghost predicate AwayRight(plan: Plan, s: State, d: Task, c: Claim)
    requires plan.g.WellFormed()
  {
    c in s.pending && Edge(d, c.task) in s.owed && d !in s.store && d in s.ranBy ==>
      && (c.mobile ==> c.exec != s.ranBy[d])
      && (exists a :: MadeAway(plan, s, d, c, a))
  }

  ghost predicate MadeAway(plan: Plan, s: State, d: Task, c: Claim, a: Task)
    requires plan.g.WellFormed() && d in s.ranBy
  {
    && plan.g.HasEdge(a, c.task) && a != d
    && (|| plan.ToProxy(a, c.task)
        || (a in s.ranBy && s.ranBy[a] != s.ranBy[d])
        || (!c.mobile && c.exec == s.ranBy[d]))
  }

  /** What is newly owed is owed for a task that nobody has claimed. */
  lemma NewlyOwedUnclaimed(plan: Plan, s: State, step: Step, edge: Edge)
    requires plan.g.WellFormed() && Discipline(plan.g, s) && Enabled(plan.g, s, step) && Follows(plan, s, step)
    requires edge in Apply(plan.g, s, step).owed && edge !in s.owed
    ensures forall c :: c in Apply(plan.g, s, step).pending ==> c.task != edge.dst
  {
    NewlyOwed(plan, s, step, edge);
    OwingChanges(plan.g, s, step.e, step.d, step.t);
    hide Apply, Enabled, Follows, Discipline;
    NotDueYet(plan.g, s, step.d, step.t);
  }

  lemma MovedClaimAway(plan: Plan, s: State, step: Step, d: Task, c: Claim)
    requires plan.g.WellFormed() && Discipline(plan.g, s) && EdgesInPlace(plan, s) && ProxyInPlace(plan, s)
    requires MovesEdge(step) && Enabled(plan.g, s, step) && Follows(plan, s, step)
    requires c in Apply(plan.g, s, step).pending && c !in s.pending
    requires OwedInTime(plan, s, Edge(d, c.task)) && Edge(d, c.task) in s.owed && d !in s.store && d in s.ranBy
    ensures AwayRight(plan, Apply(plan.g, s, step), d, c)
  {
    NewClaimOfMove(plan.g, s, step);
    MovesOwnEdge(plan.g, s, step);
    EdgeStepMovesOne(plan.g, s, step);
    MovesUnsettled(plan.g, s, step);
    ClaimsOnlyByCounts(plan.g, s, step);
    var y := step.d;
    if step.ProxyCount? {
      assert plan.ToProxy(y, c.task) by { hide Plan.ToProxy; }
    } else {
      if s.ranBy[y] == s.ranBy[d] {
        BlockedWhileGivingUp(plan, s, step);
        assert plan.Holdable(y, c.task) && !plan.Mobile(y, c.task);
        assert step.Count? ==> (step.mobile <==> plan.Mobile(y, c.task));
      }
    }
    hide Apply, Enabled, Follows, Discipline, EdgesInPlace, ProxyInPlace, Plan.ToProxy, Plan.Holdable, Plan.Mobile, OwedInTime;
    assert MadeAway(plan, Apply(plan.g, s, step), d, c, y);
  }

  lemma ClaimsOnlyByCounts(g: Graph, s: State, step: Step)
    requires g.WellFormed() && MovesEdge(step) && Enabled(g, s, step) && Apply(g, s, step).pending != s.pending
    ensures g.HasEdge(step.d, step.t) && !step.Bookkeep? && !Parks(step)
  {
    hide Graph.WellFormed, Done, Completes;
  }

  lemma StillAway(plan: Plan, s: State, s': State, d: Task, c: Claim, c': Claim)
    requires plan.g.WellFormed() && AwayRight(plan, s, d, c) && c in s.pending && Edge(d, c.task) in s.owed && d !in s.store
    requires d in s.ranBy && d in s'.ranBy && s'.ranBy[d] == s.ranBy[d]
    requires forall y :: y in s.ranBy ==> y in s'.ranBy && s'.ranBy[y] == s.ranBy[y]
    requires c' == c || (c.mobile && c'.task == c.task && c'.mobile && c'.exec != s.ranBy[d])
    ensures AwayRight(plan, s', d, c')
  {
    var a :| MadeAway(plan, s, d, c, a);
    hide Plan.ToProxy;
    assert MadeAway(plan, s', d, c', a);
  }

  lemma StepKeepsAway(plan: Plan, s: State, step: Step, d: Task, c: Claim)
    requires plan.g.WellFormed() && Discipline(plan.g, s) && EdgesInPlace(plan, s) && ProxyInPlace(plan, s)
    requires Enabled(plan.g, s, step) && Follows(plan, s, step)
    requires AwayRight(plan, s, d, c) && OwedInTime(plan, s, Edge(d, c.task))
    requires step.Invoke? ==> AwayRight(plan, s, d, step.c)
    ensures AwayRight(plan, Apply(plan.g, s, step), d, c)
  {
    var s' := Apply(plan.g, s, step);
    if c in s'.pending && Edge(d, c.task) in s'.owed && d !in s'.store && d in s'.ranBy {
      StillUnstored(plan.g, s, step, d);
      hide Apply, Enabled, Follows, AwayRight, Discipline, EdgesInPlace, ProxyInPlace;
      if Edge(d, c.task) !in s.owed {
        NewlyOwedUnclaimed(plan, s, step, Edge(d, c.task));
      } else {
        forall y | y in s.ranBy ensures y in s'.ranBy && s'.ranBy[y] == s.ranBy[y] { RanByStill(plan.g, s, step, y); }
        if c in s.pending {
          StillAway(plan, s, s', d, c, c);
        } else if MovesEdge(step) {
          MovedClaimAway(plan, s, step, d, c);
        } else {
          InvokedClaims(plan.g, s, step, c, d);
          StillAway(plan, s, s', d, step.c, c);
        }
      }
    }
  }

  lemma InvokedClaims(g: Graph, s: State, step: Step, c: Claim, d: Task)
    requires g.WellFormed() && Enabled(g, s, step) && !MovesEdge(step) && d in s.ranBy
    requires c in Apply(g, s, step).pending && c !in s.pending
    ensures step.Invoke? && step.c in s.pending && step.c.mobile && c == Claim(step.c.task, step.e', true)
    ensures step.e' != s.ranBy[d]
  {
    hide Graph.WellFormed, Inputs;
  }

  // ---- Who has a big value ---------------------------------------------------

  lemma CachesGrow(g: Graph, s: State, step: Step, d: Task, e: Exec)
    requires g.WellFormed() && Enabled(g, s, step) && d in Apply(g, s, step).Cached(e) && d !in s.Cached(e)
    ensures || (step.Fetch? && d in s.store)
            || (step.Execute? && step.c.task == d && step.c.exec == e)
            || (step.Invoke? && step.e' == e && d in step.data)
  {
    if MovesEdge(step) { EdgeStepMovesOne(g, s, step); }
    hide Graph.WellFormed, Inputs;
  }

  lemma StepKeepsOnlyWithRunner(plan: Plan, s: State, step: Step, d: Task, e: Exec)
    requires plan.g.WellFormed() && Inv(plan.g, s) && ProxyInPlace(plan, s) && Enabled(plan.g, s, step) && Follows(plan, s, step)
    requires OnlyWithRunner(plan, s, d, e) && (step.Invoke? ==> OnlyWithRunner(plan, s, d, step.e) && AwayRight(plan, s, d, step.c))
    ensures OnlyWithRunner(plan, Apply(plan.g, s, step), d, e)
  {
    var s' := Apply(plan.g, s, step);
    if d in plan.big && d !in s'.store && d in s'.Cached(e) {
      StillUnstored(plan.g, s, step, d);
      hide Inv, Follows, AwayRight, ProxyInPlace;
      InvDiscipline(plan.g, s);
      hide Discipline;
      if d in s.Cached(e) {
        hide Apply, Enabled;
        RanByStill(plan.g, s, step, d);
      } else {
        CachesGrow(plan.g, s, step, d, e);
        if step.Invoke? { HandedOnStored(plan, s, step, d); }
        hide Graph.WellFormed, Inputs;
      }
    }
  }

  /** A claim that is handed on takes no unstored big value along. */
  lemma HandedOnStored(plan: Plan, s: State, step: Step, d: Task)
    requires plan.g.WellFormed() && Inv(plan.g, s) && ProxyInPlace(plan, s)
    requires step.Invoke? && Enabled(plan.g, s, step) && Follows(plan, s, step) && d in plan.big && d in step.data
    requires OnlyWithRunner(plan, s, d, step.e) && AwayRight(plan, s, d, step.c)
    ensures d in s.store
  {
    MobileSupplied(plan.g, s, step.c, d);
    hide Inv, Graph.WellFormed;
  }

  lemma MobileSupplied(g: Graph, s: State, c: Claim, d: Task)
    requires g.WellFormed() && Inv(g, s) && c in s.pending && c.mobile && g.HasEdge(d, c.task)
    ensures d in s.store || Edge(d, c.task) in s.owed || d in s.sent
  {
    hide Discipline, ValuesRight;
    assert Supplied(g, s, c, d);
  }

  // ---- Looking at all out-edges first ----------------------------------------

  /** An edge of a big task that may not wait in the queue has been taken by a check, while its
      value was not stored; at that time no task below d had run. */
  ghost predicate CheckedFirst(plan: Plan, s: State, d: Task, x: Task)
    requires plan.g.WellFormed()
  {
    && plan.g.HasEdge(d, x) && d in plan.big && !plan.Holdable(d, x) && d !in s.store
    && (s.Phase(d, x).Settled? || s.Phase(d, x).Taken?) ==>
      !plan.Missed(d, x) && NoneBelow(plan.g, d, x)
  }

  lemma {:induction false} DependentRan(g: Graph, s: State, d: Task, y: Task) returns (z: Task)
    requires g.WellFormed() && Discipline(g, s) && y in s.ranBy && g.Above(d, y)
    ensures g.HasEdge(d, z) && s.Runs(z) > 0
    decreases g.level[y]
  {
    assert s.Runs(y) > 0 && s.Claims(y) > 0;
    if d in g.deps[y] {
      z := y;
    } else {
      var b :| b in g.deps[y] && g.Above(d, b);
      hide Discipline;
      DependencyRan(g, s, b, y);
      z := DependentRan(g, s, d, b);
    }
  }

  lemma DependencyRan(g: Graph, s: State, b: Task, y: Task)
    requires g.WellFormed() && Discipline(g, s) && g.HasEdge(b, y) && s.Claims(y) > 0
    ensures b in s.ranBy
  {
    assert s.Claims(y) == Due(g, s, y);
    if !AllSettled(g, s, y) {
      var b' :| b' in g.deps[y] && s.Phase(b', y).Taken?;
      assert g.HasEdge(b', y);
    }
  }

  lemma CheckedInTime(plan: Plan, s: State, step: Step)
    requires plan.g.WellFormed() && Discipline(plan.g, s) && EdgesInPlace(plan, s)
    requires step.Peek? && Enabled(plan.g, s, step) && Follows(plan, s, step)
    requires step.d in plan.big && !plan.Holdable(step.d, step.t) && step.d !in s.store
    ensures !plan.Missed(step.d, step.t) && NoneBelow(plan.g, step.d, step.t)
  {
    var d, x := step.d, step.t;
    assert plan.g.HasEdge(d, x) && s.Phase(d, x).Waiting? && NoDependentRan(plan.g, s, d);
    OthersSettled(plan.g, s, d, x);
    hide EdgesInPlace, Follows, Enabled, Plan.Holdable, TakenIsLast, ClaimedWhenDue, PendingOnce, RunsWithinClaims;
    forall y | y in plan.g.deps[x] && y != d ensures !plan.g.Above(d, y) {
      assert plan.g.HasEdge(y, x) && y in s.ranBy;
      if plan.g.Above(d, y) {
        var z := DependentRan(plan.g, s, d, y);
      }
    }
  }

  lemma StillCheckedFirst(plan: Plan, s: State, s': State, d: Task, x: Task)
    requires plan.g.WellFormed() && CheckedFirst(plan, s, d, x) && s'.Phase(d, x) == s.Phase(d, x)
    requires d !in s'.store ==> d !in s.store
    ensures CheckedFirst(plan, s', d, x)
  {
  }

  lemma StepKeepsCheckedFirst(plan: Plan, s: State, step: Step, d: Task, x: Task)
    requires plan.g.WellFormed() && Discipline(plan.g, s) && EdgesInPlace(plan, s) && CheckedFirst(plan, s, d, x)
    requires Enabled(plan.g, s, step) && Follows(plan, s, step)
    ensures CheckedFirst(plan, Apply(plan.g, s, step), d, x)
  {
    hide Apply, Enabled, Follows, Discipline, EdgesInPlace, CheckedFirst, Graph.WellFormed;
    var s' := Apply(plan.g, s, step);
    StepOnlyAdds(plan.g, s, step);
    if MovesEdge(step) && step.d == d && step.t == x {
      TakenByCheckIfSo(plan, s, step);
    } else {
      if MovesEdge(step) {
        EdgeStepMovesOne(plan.g, s, step);
      } else {
        SamePhaseOtherwise(plan.g, s, step);
        assert SameEdges(s, s');
      }
      StillCheckedFirst(plan, s, s', d, x);
    }
  }

  lemma TakenByCheckIfSo(plan: Plan, s: State, step: Step)
    requires plan.g.WellFormed() && Discipline(plan.g, s) && EdgesInPlace(plan, s) && MovesEdge(step)
    requires Enabled(plan.g, s, step) && Follows(plan, s, step) && CheckedFirst(plan, s, step.d, step.t)
    ensures CheckedFirst(plan, Apply(plan.g, s, step), step.d, step.t)
  {
    var s' := Apply(plan.g, s, step);
    if step.d in plan.big && !plan.Holdable(step.d, step.t) && step.d !in s.store && (s'.Phase(step.d, step.t).Settled? || s'.Phase(step.d, step.t).Taken?) {
      hide Apply, Enabled, Follows, NoneBelow, Discipline, EdgesInPlace, Plan.Missed, Plan.Holdable;
      TakenByCheck(plan, s, step);
    } else {
      hide Follows, NoneBelow, Discipline, EdgesInPlace, Plan.Missed, Plan.Holdable;
      EdgeStepMovesOne(plan.g, s, step);
      hide Apply, Enabled;
    }
  }

  /** Such an edge is taken by a check, counted after that, or put aside. */
  lemma TakenByCheck(plan: Plan, s: State, step: Step)
    requires plan.g.WellFormed() && Discipline(plan.g, s) && EdgesInPlace(plan, s) && MovesEdge(step)
    requires Enabled(plan.g, s, step) && Follows(plan, s, step)
    requires step.d in plan.big && !plan.Holdable(step.d, step.t) && step.d !in s.store && CheckedFirst(plan, s, step.d, step.t)
    requires var p := Apply(plan.g, s, step).Phase(step.d, step.t); p.Settled? || p.Taken?
    ensures !plan.Missed(step.d, step.t) && NoneBelow(plan.g, step.d, step.t)
  {
    if step.Peek? {
      CheckedInTime(plan, s, step);
    } else if Parks(step) {
      ParkedUncounted(plan.g, s, step);
      hide Apply, Enabled, Follows, Discipline;
    } else {
      NotCountedUnstored(plan, s, step);
      hide Apply, Enabled, Follows, Discipline, Plan.Missed, NoneBelow;
    }
  }

  lemma ParkedUncounted(g: Graph, s: State, step: Step)
    requires g.WellFormed() && Parks(step) && Enabled(g, s, step)
    ensures var p := Apply(g, s, step).Phase(step.d, step.t); !p.Settled? && !p.Taken?
  {
    hide Graph.WellFormed;
  }

  lemma NotCountedUnstored(plan: Plan, s: State, step: Step)
    requires plan.g.WellFormed() && EdgesInPlace(plan, s) && MovesEdge(step) && Enabled(plan.g, s, step) && Follows(plan, s, step)
    requires step.d in plan.big && !plan.Holdable(step.d, step.t) && step.d !in s.store && !step.Peek? && !Parks(step)
    ensures step.Bookkeep? && plan.g.HasEdge(step.d, step.t) && s.Phase(step.d, step.t).Taken?
  {
    hide Plan.Missed, Done, NoClaims, Graph.WellFormed;
  }

  // ---- Counting all of the queue ---------------------------------------------

  ghost predicate NoneLeft(g: Graph, s: State, d: Task)
    requires g.WellFormed()
  {
    forall z :: g.HasEdge(d, z) ==> !s.Phase(d, z).Waiting? && !s.Phase(d, z).Held?
  }

  ghost predicate NothingOwed(s: State, d: Task) { forall z: Task :: Edge(d, z) !in s.owed }

  /** An edge d -> x that no check can take has been counted while d's value was not stored.
      Then its executor is giving up, x has not run or none of its out-edges was dealt with, or
      it has given up on all of d's out-edges with nothing left to write. */
  ghost predicate CountedInFlush(plan: Plan, s: State, d: Task, x: Task)
    requires plan.g.WellFormed()
  {
    plan.g.HasEdge(d, x) && plan.Holdable(d, x) && plan.Missed(d, x) && s.Phase(d, x).Settled? && d !in s.store ==>
      d in s.ranBy && Flushing(plan.g, s, d, x)
  }

  ghost predicate Flushing(g: Graph, s: State, d: Task, x: Task)
    requires g.WellFormed() && d in s.ranBy
  {
    var e := s.ranBy[d];
    && (forall z :: g.HasEdge(d, z) ==> !s.Phase(d, z).Waiting?)
    && (|| (e in s.givingUp && x !in s.ranBy)
        || (e in s.givingUp && s.Owns(e, x) && NoneLeft(g, s, d) && forall z :: g.HasEdge(x, z) ==> s.Phase(x, z).Waiting?)
        || (NoneLeft(g, s, d) && NothingOwed(s, d)))
  }

  lemma NoneLeftStays(g: Graph, s: State, step: Step, d: Task)
    requires g.WellFormed() && Enabled(g, s, step) && NoneLeft(g, s, d)
    ensures NoneLeft(g, Apply(g, s, step), d)
  {
    hide Apply, Enabled;
    forall z | g.HasEdge(d, z) ensures !Apply(g, s, step).Phase(d, z).Waiting? && !Apply(g, s, step).Phase(d, z).Held? {
      EdgeMovesOn(g, s, step, d, z);
    }
  }

  lemma NothingOwedStays(plan: Plan, s: State, step: Step, d: Task)
    requires plan.g.WellFormed() && Enabled(plan.g, s, step) && Follows(plan, s, step) && NoneLeft(plan.g, s, d) && NothingOwed(s, d)
    ensures NothingOwed(Apply(plan.g, s, step), d)
  {
    hide Apply, Enabled, Follows;
    forall z: Task ensures Edge(d, z) !in Apply(plan.g, s, step).owed {
      if Edge(d, z) in Apply(plan.g, s, step).owed { NewlyOwed(plan, s, step, Edge(d, z)); }
    }
  }

  /** Having given up, an executor has nothing held of d, and owes nothing for it. */
  lemma ResumedClean(plan: Plan, s: State, step: Step, d: Task)
    requires plan.g.WellFormed() && step.Resume? && Enabled(plan.g, s, step) && Follows(plan, s, step)
    requires s.Owns(step.e, d) && d !in s.store && forall z :: plan.g.HasEdge(d, z) ==> !s.Phase(d, z).Waiting?
    ensures NoneLeft(plan.g, Apply(plan.g, s, step), d) && NothingOwed(Apply(plan.g, s, step), d)
  {
    GaveUpIdle(plan, s, step);
    hide Follows;
    assert forall z: Task :: Edge(d, z).src == d;
  }

  /** Running x while its executor gives up: all of d's edges have been counted by then. */
  lemma RunInFlush(plan: Plan, s: State, step: Step, d: Task, x: Task)
    requires plan.g.WellFormed() && Discipline(plan.g, s) && step.Execute? && step.c.task == x && Enabled(plan.g, s, step) && Follows(plan, s, step)
    requires d in s.ranBy && s.ranBy[d] in s.givingUp && d !in s.store && plan.g.HasEdge(d, x) && d in plan.big
    requires OnlyWithRunner(plan, s, d, step.c.exec) && forall z :: plan.g.HasEdge(d, z) ==> !s.Phase(d, z).Waiting?
    ensures s.ranBy[d] == step.c.exec && NoneLeft(plan.g, s, d)
  {
    assert d in s.Cached(step.c.exec);
    assert QueueStored(plan, s, step.c.exec);
    hide Discipline, Apply, Enabled, Follows;
  }

  lemma DealtStays(g: Graph, s: State, step: Step, d: Task)
    requires g.WellFormed() && Enabled(g, s, step) && forall z :: g.HasEdge(d, z) ==> !s.Phase(d, z).Waiting?
    ensures forall z :: g.HasEdge(d, z) ==> !Apply(g, s, step).Phase(d, z).Waiting?
  {
    hide Apply, Enabled;
    forall z | g.HasEdge(d, z) ensures !Apply(g, s, step).Phase(d, z).Waiting? { EdgeMovesOn(g, s, step, d, z); }
  }

  lemma FlushingStays(plan: Plan, s: State, step: Step, d: Task, x: Task)
    requires plan.g.WellFormed() && Discipline(plan.g, s) && Enabled(plan.g, s, step) && Follows(plan, s, step)
    requires d in s.ranBy && Flushing(plan.g, s, d, x) && d !in s.store && plan.g.HasEdge(d, x) && d in plan.big
    requires step.Execute? ==> OnlyWithRunner(plan, s, d, step.c.exec)
    ensures d in Apply(plan.g, s, step).ranBy && Flushing(plan.g, Apply(plan.g, s, step), d, x)
  {
    hide Apply, Enabled, Follows, Discipline, NoneLeft, NothingOwed;
    RanByStill(plan.g, s, step, d);
    Mode(plan.g, s, step);
    DealtStays(plan.g, s, step, d);
    if NoneLeft(plan.g, s, d) { NoneLeftStays(plan.g, s, step, d); }
    if NoneLeft(plan.g, s, d) && NothingOwed(s, d) {
      NothingOwedStays(plan, s, step, d);
    } else {
      StillFlushing(plan, s, step, d, x);
    }
  }

  /** ... while there is something to do for d yet. */
  lemma StillFlushing(plan: Plan, s: State, step: Step, d: Task, x: Task)
    requires plan.g.WellFormed() && Discipline(plan.g, s) && Enabled(plan.g, s, step) && Follows(plan, s, step)
    requires d in s.ranBy && Flushing(plan.g, s, d, x) && d !in s.store && plan.g.HasEdge(d, x) && d in plan.big
    requires step.Execute? ==> OnlyWithRunner(plan, s, d, step.c.exec)
    requires !(NoneLeft(plan.g, s, d) && NothingOwed(s, d))
    ensures d in Apply(plan.g, s, step).ranBy && Flushing(plan.g, Apply(plan.g, s, step), d, x)
  {
    hide Apply, Enabled, Follows, Discipline, NoneLeft, NothingOwed;
    RanByStill(plan.g, s, step, d);
    Mode(plan.g, s, step);
    DealtStays(plan.g, s, step, d);
    if step.Resume? && step.e == s.ranBy[d] {
      ResumedClean(plan, s, step, d);
    } else if x in s.ranBy {
      NoneLeftStays(plan.g, s, step, d);
      NodeStillWaits(plan, s, step, x);
    } else if x in Apply(plan.g, s, step).ranBy {
      FreshNodeWaits(plan.g, s, step, x);
      RunInFlush(plan, s, step, d, x);
      NoneLeftStays(plan.g, s, step, d);
    }
  }

  lemma NodeStillWaits(plan: Plan, s: State, step: Step, x: Task)
    requires plan.g.WellFormed() && Discipline(plan.g, s) && Enabled(plan.g, s, step) && Follows(plan, s, step)
    requires x in s.ranBy && s.ranBy[x] in s.givingUp && forall z :: plan.g.HasEdge(x, z) ==> s.Phase(x, z).Waiting?
    ensures x in Apply(plan.g, s, step).ranBy && Apply(plan.g, s, step).ranBy[x] == s.ranBy[x]
    ensures forall z :: plan.g.HasEdge(x, z) ==> Apply(plan.g, s, step).Phase(x, z).Waiting?
  {
    hide Apply, Enabled, Follows, Discipline;
    RanByStill(plan.g, s, step, x);
    forall z | plan.g.HasEdge(x, z) ensures Apply(plan.g, s, step).Phase(x, z).Waiting? { WaitingStays(plan, s, step, x, z); }
  }

  /** Where such a count comes from. */
  lemma CountedUnstored(plan: Plan, s: State, step: Step, d: Task, x: Task)
    requires plan.g.WellFormed() && Discipline(plan.g, s) && EdgesInPlace(plan, s) && Enabled(plan.g, s, step) && Follows(plan, s, step)
    requires plan.g.HasEdge(d, x) && plan.Holdable(d, x) && plan.Missed(d, x) && d !in s.store && !s.Phase(d, x).Taken?
    requires Apply(plan.g, s, step).Phase(d, x).Settled? && !s.Phase(d, x).Settled?
    ensures s.Phase(d, x).Held? && d in s.ranBy && s.ranBy[d] in s.givingUp && x !in s.ranBy && !step.Execute?
  {
    if MovesEdge(step) {
      EdgeStepMovesOne(plan.g, s, step);
      assert step.d == d && step.t == x;
      MovesOwnEdge(plan.g, s, step);
      CountedHeld(plan, s, step);
      hide Apply, Enabled, Follows;
      NotDueYet(plan.g, s, d, x);
      hide EdgesFollowRuns, TakenIsLast, ClaimedWhenDue, PendingOnce;
    } else {
      SamePhaseOtherwise(plan.g, s, step);
    }
  }

  lemma CountedHeld(plan: Plan, s: State, step: Step)
    requires plan.g.WellFormed() && EdgesInPlace(plan, s) && MovesEdge(step) && Enabled(plan.g, s, step) && Follows(plan, s, step)
    requires plan.Holdable(step.d, step.t) && plan.Missed(step.d, step.t) && step.d !in s.store && !s.Phase(step.d, step.t).Taken?
    requires Apply(plan.g, s, step).Phase(step.d, step.t).Settled?
    ensures s.Phase(step.d, step.t).Held? && step.CountOwing? && step.e in s.givingUp && s.Owns(step.e, step.d)
  {
    if Parks(step) { ParkedUncounted(plan.g, s, step); }
    MovesOwnEdge(plan.g, s, step);
    hide Apply, Done, NoClaims, Graph.WellFormed;
  }

  lemma StepKeepsCountedInFlush(plan: Plan, s: State, step: Step, d: Task, x: Task)
    requires plan.g.WellFormed() && Discipline(plan.g, s) && EdgesInPlace(plan, s) && Enabled(plan.g, s, step) && Follows(plan, s, step)
    requires CountedInFlush(plan, s, d, x) && WholeNode(plan.g, s, d) && NeverTaken(plan, s, d, x)
    requires step.Execute? ==> OnlyWithRunner(plan, s, d, step.c.exec)
    ensures CountedInFlush(plan, Apply(plan.g, s, step), d, x)
  {
    var s' := Apply(plan.g, s, step);
    if plan.g.HasEdge(d, x) && plan.Holdable(d, x) && plan.Missed(d, x) && s'.Phase(d, x).Settled? && d !in s'.store {
      StillUnstored(plan.g, s, step, d);
      assert d in plan.big;
      hide Apply, Enabled, Follows, Discipline, EdgesInPlace, Flushing, Plan.Missed, Plan.Holdable;
      if s.Phase(d, x).Settled? {
        FlushingStays(plan, s, step, d, x);
      } else {
        CountedUnstored(plan, s, step, d, x);
        BeginsFlushing(plan, s, step, d, x);
      }
    }
  }

  lemma BeginsFlushing(plan: Plan, s: State, step: Step, d: Task, x: Task)
    requires plan.g.WellFormed() && Discipline(plan.g, s) && Enabled(plan.g, s, step) && Follows(plan, s, step) && WholeNode(plan.g, s, d)
    requires plan.g.HasEdge(d, x) && s.Phase(d, x).Held? && d in s.ranBy && s.ranBy[d] in s.givingUp && x !in s.ranBy && !step.Execute?
    requires Apply(plan.g, s, step).Phase(d, x).Settled?
    ensures d in Apply(plan.g, s, step).ranBy && Flushing(plan.g, Apply(plan.g, s, step), d, x)
  {
    var s' := Apply(plan.g, s, step);
    hide Apply, Enabled, Follows, Discipline;
    RanByStill(plan.g, s, step, d);
    Mode(plan.g, s, step);
    if !MovesEdge(step) { SamePhaseOtherwise(plan.g, s, step); }
    if x in s'.ranBy { FreshNodeWaits(plan.g, s, step, x); }
    forall z | plan.g.HasEdge(d, z) ensures !s'.Phase(d, z).Waiting? { EdgeMovesOn(plan.g, s, step, d, z); }
  }

  /** A check never takes it. */
  ghost predicate NeverTaken(plan: Plan, s: State, d: Task, x: Task) {
    plan.Missed(d, x) ==> !s.Phase(d, x).Taken?
  }

  lemma StepKeepsNeverTaken(plan: Plan, s: State, step: Step, d: Task, x: Task)
    requires plan.g.WellFormed() && Enabled(plan.g, s, step) && Follows(plan, s, step) && NeverTaken(plan, s, d, x)
    ensures NeverTaken(plan, Apply(plan.g, s, step), d, x)
  {
    if MovesEdge(step) {
      EdgeStepMovesOne(plan.g, s, step);
      if !step.Peek? { TakesNothing(plan.g, s, step); }
      hide Apply, Enabled, Graph.WellFormed;
    } else {
      SamePhaseOtherwise(plan.g, s, step);
    }
  }

  lemma TakesNothing(g: Graph, s: State, step: Step)
    requires g.WellFormed() && MovesEdge(step) && !step.Peek? && Enabled(g, s, step)
    ensures !Apply(g, s, step).Phase(step.d, step.t).Taken?
  {
    if Counts(step) {
      CountApplied(g, s, step);
      CountEdgeSettles(g, s, step.d, CountingClaim(step));
    } else if step.CountOwing? {
      OwingChanges(g, s, step.e, step.d, step.t);
    } else if Parks(step) {
      ParkedUncounted(g, s, step);
    }
  }

  // ---- All of that in every lawful state -------------------------------------

  ghost predicate QueueInv(plan: Plan, s: State)
    requires plan.g.WellFormed()
  {
    && (forall y {:trigger WholeNode(plan.g, s, y)} :: WholeNode(plan.g, s, y))
    && (forall edge {:trigger OwedInTime(plan, s, edge)} :: OwedInTime(plan, s, edge))
    && (forall d, c {:trigger AwayRight(plan, s, d, c)} :: AwayRight(plan, s, d, c))
    && (forall d, e {:trigger OnlyWithRunner(plan, s, d, e)} :: OnlyWithRunner(plan, s, d, e))
    && (forall d, x {:trigger CheckedFirst(plan, s, d, x)} :: CheckedFirst(plan, s, d, x))
    && (forall d, x {:trigger NeverTaken(plan, s, d, x)} :: NeverTaken(plan, s, d, x))
    && (forall d, x {:trigger CountedInFlush(plan, s, d, x)} :: CountedInFlush(plan, s, d, x))
  }

  lemma InitQueueInv(plan: Plan, lambda: map<Task, Exec>)
    requires plan.g.WellFormed() && OwnLambdas(plan, lambda)
    ensures QueueInv(plan, Init(plan.g, lambda))
  {
  }

  lemma StepKeepsQueueInv(plan: Plan, s: State, step: Step)
    requires plan.g.WellFormed() && Inv(plan.g, s) && LawInv(plan, s) && QueueInv(plan, s)
    requires Enabled(plan.g, s, step) && Follows(plan, s, step)
    ensures QueueInv(plan, Apply(plan.g, s, step))
  {
    hide Inv, EdgesInPlace, ProxyInPlace, EndedInOrder, Apply, Enabled, Follows, WholeNode, OwedInTime, AwayRight, OnlyWithRunner,
      CheckedFirst, NeverTaken, CountedInFlush, Discipline;
    var s' := Apply(plan.g, s, step);
    InvDiscipline(plan.g, s);
    forall y ensures WholeNode(plan.g, s', y) {
      assert WholeNode(plan.g, s, y);
      StepKeepsWhole(plan, s, step, y);
    }
    forall edge ensures OwedInTime(plan, s', edge) {
      assert OwedInTime(plan, s, edge) && WholeNode(plan.g, s, edge.src);
      StepKeepsOwedInTime(plan, s, step, edge);
    }
    forall d, c ensures AwayRight(plan, s', d, c) {
      assert AwayRight(plan, s, d, c) && OwedInTime(plan, s, Edge(d, c.task)) && (step.Invoke? ==> AwayRight(plan, s, d, step.c));
      StepKeepsAway(plan, s, step, d, c);
    }
    forall d, e ensures OnlyWithRunner(plan, s', d, e) {
      assert OnlyWithRunner(plan, s, d, e) && (step.Invoke? ==> OnlyWithRunner(plan, s, d, step.e) && AwayRight(plan, s, d, step.c));
      StepKeepsOnlyWithRunner(plan, s, step, d, e);
    }
    StepKeepsChecks(plan, s, step);
  }

  lemma StepKeepsChecks(plan: Plan, s: State, step: Step)
    requires plan.g.WellFormed() && Discipline(plan.g, s) && LawInv(plan, s) && QueueInv(plan, s)
    requires Enabled(plan.g, s, step) && Follows(plan, s, step)
    ensures var s' := Apply(plan.g, s, step);
            forall d, x :: CheckedFirst(plan, s', d, x) && NeverTaken(plan, s', d, x) && CountedInFlush(plan, s', d, x)
  {
    hide Discipline, EdgesInPlace, ProxyInPlace, EndedInOrder, Apply, Enabled, Follows, WholeNode, OwedInTime, AwayRight, OnlyWithRunner,
      CheckedFirst, NeverTaken, CountedInFlush;
    var s' := Apply(plan.g, s, step);
    forall d, x ensures CheckedFirst(plan, s', d, x) && NeverTaken(plan, s', d, x) && CountedInFlush(plan, s', d, x) {
      assert CheckedFirst(plan, s, d, x) && NeverTaken(plan, s, d, x) && CountedInFlush(plan, s, d, x) && WholeNode(plan.g, s, d);
      assert step.Execute? ==> OnlyWithRunner(plan, s, d, step.c.exec);
      StepKeepsCheckedFirst(plan, s, step, d, x);
      StepKeepsNeverTaken(plan, s, step, d, x);
      StepKeepsCountedInFlush(plan, s, step, d, x);
    }
  }

  lemma {:induction false} LawKeepsQueueInv(plan: Plan, s: State, steps: seq<Step>, s': State)
    requires plan.g.WellFormed() && Inv(plan.g, s) && LawInv(plan, s) && QueueInv(plan, s) && LeadsTo(plan, s, steps, s')
    ensures QueueInv(plan, s')
    decreases |steps|
  {
    hide Inv, Apply, Enabled, Follows, LawInv, QueueInv;
    if steps != [] {
      InvDiscipline(plan.g, s);
      hide Discipline;
      StepKeepsInv(plan.g, s, steps[0]);
      StepKeepsLawInv(plan, s, steps[0]);
      StepKeepsQueueInv(plan, s, steps[0]);
      LawKeepsQueueInv(plan, Apply(plan.g, s, steps[0]), steps[1..], s');
    }
  }

  lemma LawfulQueueInv(plan: Plan, s: State)
    requires plan.g.WellFormed() && Lawful(plan, s)
    ensures QueueInv(plan, s)
  {
    var lambda: map<Task, Exec> :| OwnLambdas(plan, lambda) && Onwards(plan, Init(plan.g, lambda), s);
    InitQueueInv(plan, lambda);
    InitLawInv(plan, lambda);
    InitDiscipline(plan.g, lambda);
    InitSupply(plan.g, lambda);
    hide Init, LeadsTo, LawInv, QueueInv, Discipline, Supply;
    var steps :| LeadsTo(plan, Init(plan.g, lambda), steps, s);
    LawKeepsQueueInv(plan, Init(plan.g, lambda), steps, s);
  }
}
