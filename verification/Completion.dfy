/** When a job can still be completed, and what every executor's own obligations have to do
    with that. */
module Completion {
  import opened Graphs
  import opened Plans
  import opened FanIn
  import opened FanInSafety
  import opened FanInTheorems
  import opened LocalViews
  import opened Conduct
  import opened GivingUp

  /** Every task of the graph has been executed, and once only. */
  ghost predicate AllRanOnce(g: Graph, s: State)
    requires g.WellFormed()
  {
    forall t :: t in g.tasks ==> s.Runs(t) == 1
  }

  /** Once no claim is pending, the graph has run if and only if every out-edge of every
      executed task was counted or taken. */
  lemma CompleteExactlyWhenQuiescent(g: Graph, s: State)
    requires g.WellFormed() && Reachable(g, s) && s.pending == {}
    ensures AllRanOnce(g, s) <==> Quiescent(g, s)
  {
    hide Reachable;
    if Quiescent(g, s) {
      forall t | t in g.tasks ensures s.Runs(t) == 1 {
        CompleteRun(g, s, t);
      }
    }
    if AllRanOnce(g, s) {
      forall d, t | g.HasEdge(d, t) ensures s.Phase(d, t).Settled? || s.Phase(d, t).Taken? {
        ReachableInv(g, s);
        RanMeansCounted(g, s, d, t);
      }
    }
  }

  /** An executor with no claim and no edge to deal with. */
  ghost predicate Finished(g: Graph, s: State, e: Exec)
    requires g.WellFormed()
  {
    var v := View(g, s, e);
    v.claims == map[] && v.waiting == {} && v.held == map[] && !HasFailed(s, e)
  }

  /** No edge is with the proxy, and none was left out. */
  ghost predicate NoneElsewhere(g: Graph, s: State)
    requires g.WellFormed()
  {
    forall d, t :: g.HasEdge(d, t) ==> !s.Phase(d, t).Proxied? && !s.Phase(d, t).LeftOut?
  }

  /** If every executor is done with its own affairs, and so is the proxy, then every task of
      the graph has been executed exactly once. */
  lemma AllFinishedMeansComplete(g: Graph, s: State)
    requires g.WellFormed() && Reachable(g, s) && NoneElsewhere(g, s)
    requires forall e: Exec {:trigger Finished(g, s, e)} :: Finished(g, s, e)
    ensures AllRanOnce(g, s)
  {
    hide Reachable, View;
    if c :| c in s.pending {
      FinishedNoClaim(g, s, c);
    }
    forall d, t | g.HasEdge(d, t) && d in s.ranBy ensures s.Phase(d, t).Settled? || s.Phase(d, t).Taken? {
      assert Finished(g, s, s.ranBy[d]);
      InView(g, s, s.ranBy[d], d, t);
    }
    CompleteExactlyWhenQuiescent(g, s);
  }

  lemma FinishedNoClaim(g: Graph, s: State, c: Claim)
    requires g.WellFormed() && c in s.pending
    ensures !Finished(g, s, c.exec)
  {
    assert c !in s.failed ==> c.task in View(g, s, c.exec).claims;
  }

  // ---- What is lost for good -------------------------------------------------

  /** Nobody will count d -> t: it was passed over, or its executor has ended without doing so. */
  ghost predicate Abandoned(g: Graph, s: State, d: Task, t: Task)
    requires g.WellFormed()
  {
    && g.HasEdge(d, t) && d in s.ranBy
    && (s.Phase(d, t).LeftOut? || ((s.Phase(d, t).Waiting? || s.Phase(d, t).Held?) && s.ranBy[d] in s.gone))
  }

  /** Nobody will run c's task: its executor failed to, or has ended. */
  ghost predicate Dropped(s: State, c: Claim) {
    c in s.pending && (c in s.failed || c.exec in s.gone)
  }

  /** No abandoned edge leads into an unclaimed task, and no claim was dropped. */
  ghost predicate Intact(g: Graph, s: State)
    requires g.WellFormed()
  {
    && (forall d, t :: Abandoned(g, s, d, t) ==> s.Claims(t) > 0)
    && (forall c :: !Dropped(s, c))
  }

  /** Some lawful continuation executes every task exactly once. */
  ghost predicate CanComplete(plan: Plan, s: State)
    requires plan.g.WellFormed()
  {
    exists s' :: Onwards(plan, s, s') && AllRanOnce(plan.g, s')
  }

  lemma AbandonedStays(g: Graph, s: State, step: Step, d: Task, t: Task)
    requires g.WellFormed() && Discipline(g, s) && Enabled(g, s, step) && Abandoned(g, s, d, t)
    ensures Abandoned(g, Apply(g, s, step), d, t)
  {
    hide Apply, Enabled, Discipline;
    StepOnlyAdds(g, s, step);
    GoneStays(g, s, step);
    if MovesEdge(step) {
      NotMoved(g, s, step, d, t);
      EdgeStepMovesOne(g, s, step);
    } else {
      SamePhaseOtherwise(g, s, step);
      RanByStill(g, s, step, d);
    }
    hide Graph.WellFormed;
  }

  lemma GoneStays(g: Graph, s: State, step: Step)
    requires g.WellFormed() && Enabled(g, s, step)
    ensures s.gone <= Apply(g, s, step).gone
  {
    if MovesEdge(step) { EdgeStepMovesOne(g, s, step); }
    hide Graph.WellFormed, Inputs;
  }

  lemma NotMoved(g: Graph, s: State, step: Step, d: Task, t: Task)
    requires g.WellFormed() && MovesEdge(step) && Enabled(g, s, step) && Abandoned(g, s, d, t)
    ensures step.d != d || step.t != t
  {
    MovesOwnEdge(g, s, step);
    hide Done;
  }

  lemma DroppedStays(g: Graph, s: State, step: Step, c: Claim)
    requires g.WellFormed() && Enabled(g, s, step) && Dropped(s, c)
    ensures Dropped(Apply(g, s, step), c)
  {
    StepOnlyAdds(g, s, step);
    if MovesEdge(step) { EdgeStepMovesOne(g, s, step); } else { StillPending(g, s, step, c); }
    hide Apply, Enabled, Graph.WellFormed;
  }

  lemma StillPending(g: Graph, s: State, step: Step, c: Claim)
    requires g.WellFormed() && Enabled(g, s, step) && Dropped(s, c) && !MovesEdge(step)
    ensures c in Apply(g, s, step).pending
  {
    hide Graph.WellFormed;
  }

  /** What is lost stays lost. */
  lemma {:induction false} LostStays(plan: Plan, s: State, steps: seq<Step>, s': State)
    requires plan.g.WellFormed() && Inv(plan.g, s) && LeadsTo(plan, s, steps, s')
    ensures Inv(plan.g, s')
    ensures forall d, t :: Abandoned(plan.g, s, d, t) ==> Abandoned(plan.g, s', d, t)
    ensures forall c :: Dropped(s, c) ==> Dropped(s', c)
    decreases |steps|
  {
    hide Discipline, Supply, Apply, Enabled, Follows, Abandoned, Dropped;
    if steps != [] {
      var s1 := Apply(plan.g, s, steps[0]);
      StepKeepsInv(plan.g, s, steps[0]);
      forall d, t | Abandoned(plan.g, s, d, t) ensures Abandoned(plan.g, s1, d, t) {
        AbandonedStays(plan.g, s, steps[0], d, t);
      }
      forall c | Dropped(s, c) ensures Dropped(s1, c) {
        DroppedStays(plan.g, s, steps[0], c);
      }
      LostStays(plan, s1, steps[1..], s');
    }
  }

  /** A task behind an abandoned edge is not claimed, and one whose claim was dropped not run. */
  lemma LostIsNotRun(g: Graph, s: State)
    requires g.WellFormed() && Inv(g, s)
    ensures forall d, t :: Abandoned(g, s, d, t) ==> s.Claims(t) == 0 && s.Runs(t) == 0
    ensures forall c :: Dropped(s, c) ==> c.task in g.tasks && s.Runs(c.task) == 0
  {
    forall d, t | Abandoned(g, s, d, t) ensures s.Claims(t) == 0 && s.Runs(t) == 0 {
      if s.Claims(t) > 0 { RanMeansCounted(g, s, d, t); }
      hide Supply, EdgesFollowRuns, TakenIsLast, ClaimedWhenDue, PendingOnce;
    }
    hide Supply, EdgesFollowRuns, TakenIsLast, ClaimedWhenDue, RunsWithinClaims;
  }

  /** What lies behind an abandoned edge, or was to be run by a dropped claim, is never run. */
  lemma LostForGood(plan: Plan, s: State, s': State)
    requires plan.g.WellFormed() && Lawful(plan, s) && Onwards(plan, s, s')
    ensures forall d, t :: Abandoned(plan.g, s, d, t) ==> s'.Runs(t) == 0
    ensures forall c :: Dropped(s, c) ==> s'.Runs(c.task) == 0
  {
    hide Lawful, Abandoned, Dropped, Inv, LeadsTo;
    LawfulInv(plan, s);
    var steps :| LeadsTo(plan, s, steps, s');
    LostStays(plan, s, steps, s');
    LostIsNotRun(plan.g, s');
  }

  lemma NotIntactCannotComplete(plan: Plan, s: State)
    requires plan.g.WellFormed() && Lawful(plan, s) && !Intact(plan.g, s)
    ensures !CanComplete(plan, s)
  {
    hide Lawful, Abandoned, Dropped, Inv, LeadsTo;
    LawfulInv(plan, s);
    LostIsNotRun(plan.g, s);
    if CanComplete(plan, s) {
      var s' :| Onwards(plan, s, s') && AllRanOnce(plan.g, s');
      hide Onwards;
      LostForGood(plan, s, s');
      AbandonedInGraph(plan.g, s);
      assert false;
    }
  }

  lemma AbandonedInGraph(g: Graph, s: State)
    requires g.WellFormed()
    ensures forall d, t :: Abandoned(g, s, d, t) ==> t in g.tasks
  {
  }

  // ---- Otherwise the job can be completed ------------------------------------

  /** Nothing has been abandoned or dropped. */
  ghost predicate Sound(g: Graph, s: State)
    requires g.WellFormed()
  {
    && (forall d, t :: !Abandoned(g, s, d, t)) && (forall c :: !Dropped(s, c))
  }

  ghost predicate Going(plan: Plan, s: State)
    requires plan.g.WellFormed()
  {
    Lawful(plan, s) && Sound(plan.g, s)
  }

  predicate Forward(step: Step) { !step.Drop? && !step.Quit? && !step.LeaveOut? }

  lemma SameLoss(g: Graph, s: State, s': State)
    requires g.WellFormed() && Sound(g, s) && s'.gone == s.gone && s'.failed == s.failed
    requires forall c :: c in s'.pending && c !in s.pending ==> c !in s.failed && c.exec !in s.gone
    requires forall d :: d in s'.ranBy ==> (d in s.ranBy && s'.ranBy[d] == s.ranBy[d]) || s'.ranBy[d] !in s.gone
    requires forall d, t :: g.HasEdge(d, t) && s'.Phase(d, t).LeftOut? ==> s.Phase(d, t).LeftOut? && d in s.ranBy
    requires forall d, t :: g.HasEdge(d, t) && d in s.ranBy && (s'.Phase(d, t).Waiting? || s'.Phase(d, t).Held?) ==>
               s.Phase(d, t).Waiting? || s.Phase(d, t).Held?
    ensures Sound(g, s')
  {
    hide Graph.WellFormed;
    forall d, t ensures !Abandoned(g, s', d, t) {
      assert !Abandoned(g, s, d, t);
    }
    forall c ensures !Dropped(s', c) {
      assert !Dropped(s, c);
    }
  }

  lemma OneMoveSameLoss(g: Graph, s: State, s': State, edge: Edge, p: Exec)
    requires g.WellFormed() && Sound(g, s) && EdgesFollowRuns(g, s) && s.failed <= s.pending
    requires OneEdgeMoved(s, s', edge, p) && p !in s.gone
    requires !s'.Phase(edge.src, edge.dst).LeftOut? && !s'.Phase(edge.src, edge.dst).Waiting?
    requires s'.Phase(edge.src, edge.dst).Held? ==> s.Phase(edge.src, edge.dst).Waiting?
    ensures Sound(g, s')
  {
    hide Sound, Graph.WellFormed;
    SameLoss(g, s, s');
  }

  lemma MoveStaysSound(g: Graph, s: State, step: Step)
    requires g.WellFormed() && Discipline(g, s) && Sound(g, s) && Enabled(g, s, step) && MovesEdge(step) && Forward(step)
    ensures Sound(g, Apply(g, s, step))
  {
    assert step.Actor() !in s.gone;
    EdgeStepMovesOne(g, s, step);
    MovedFrom(g, s, step);
    NotLeftOut(g, s, step);
    hide Apply, Enabled, Graph.WellFormed, Sound, EdgesFollowRuns, TakenIsLast, ClaimedWhenDue, RunsWithinClaims, OneEdgeMoved;
    OneMoveSameLoss(g, s, Apply(g, s, step), MovedEdge(step), step.Actor());
  }

  lemma MovedFrom(g: Graph, s: State, step: Step)
    requires g.WellFormed() && Enabled(g, s, step) && MovesEdge(step)
    ensures Apply(g, s, step).Phase(step.d, step.t).Held? ==> s.Phase(step.d, step.t).Waiting?
    ensures !Apply(g, s, step).Phase(step.d, step.t).Waiting?
  {
    if Parks(step) { ParkApplied(g, s, step); ParkedPhases(g, s, step); } else { CountingSettles(g, s, step); }
    hide Enabled, Apply, Graph.WellFormed;
  }

  lemma NotLeftOut(g: Graph, s: State, step: Step)
    requires g.WellFormed() && Enabled(g, s, step) && MovesEdge(step) && Forward(step)
    ensures !Apply(g, s, step).Phase(step.d, step.t).LeftOut?
  {
    if Parks(step) {
      ParkApplied(g, s, step);
      hide Apply, Enabled;
      SetPhaseMoves(s, step.d, step.t, ParkedPhase(s, step));
    } else {
      CountingSettles(g, s, step);
    }
  }

  lemma OtherStaysSound(g: Graph, s: State, step: Step)
    requires g.WellFormed() && Discipline(g, s) && Sound(g, s) && Enabled(g, s, step) && !MovesEdge(step) && Forward(step)
    ensures Sound(g, Apply(g, s, step))
  {
    assert s.failed <= s.pending && EdgesFollowRuns(g, s);
    SamePhaseOtherwise(g, s, step);
    OtherClaims(g, s, step);
    hide Apply, Enabled, Discipline, Sound, Graph.WellFormed;
    assert SameEdges(s, Apply(g, s, step));
    SameLoss(g, s, Apply(g, s, step));
  }

  lemma OtherClaims(g: Graph, s: State, step: Step)
    requires g.WellFormed() && Discipline(g, s) && Enabled(g, s, step) && !MovesEdge(step) && Forward(step)
    ensures var s' := Apply(g, s, step);
            && s'.gone == s.gone && s'.failed == s.failed
            && (forall c :: c in s'.pending && c !in s.pending ==> c !in s.failed && c.exec !in s.gone)
            && (forall d :: d in s'.ranBy ==> (d in s.ranBy && s'.ranBy[d] == s.ranBy[d]) || s'.ranBy[d] !in s.gone)
  {
    SameLosers(g, s, step);
    if Quiet(step) {
      QuietApplied(g, s, step);
    } else {
      RunClaims(g, s, step);
    }
    hide Discipline, Graph.WellFormed, Apply, Enabled;
  }

  lemma SameLosers(g: Graph, s: State, step: Step)
    requires g.WellFormed() && Enabled(g, s, step) && !MovesEdge(step) && Forward(step)
    ensures Apply(g, s, step).gone == s.gone && Apply(g, s, step).failed == s.failed
  {
    hide Graph.WellFormed, Inputs;
  }

  lemma RunClaims(g: Graph, s: State, step: Step)
    requires g.WellFormed() && Discipline(g, s) && Enabled(g, s, step) && (step.Execute? || step.Invoke?)
    ensures var s' := Apply(g, s, step);
            && (forall c :: c in s'.pending && c !in s.pending ==> c !in s.failed && c.exec !in s.gone)
            && (forall d :: d in s'.ranBy ==> (d in s.ranBy && s'.ranBy[d] == s.ranBy[d]) || s'.ranBy[d] !in s.gone)
  {
    assert s.failed <= s.pending;
    hide Discipline, Graph.WellFormed, Inputs;
  }

  lemma StepForward(plan: Plan, s: State, step: Step)
    requires plan.g.WellFormed() && Going(plan, s) && Enabled(plan.g, s, step) && Follows(plan, s, step) && Forward(step)
    ensures Onwards(plan, s, Apply(plan.g, s, step)) && Going(plan, Apply(plan.g, s, step))
  {
    hide Lawful, Onwards, Apply, Enabled, Follows, Sound, Discipline;
    LawfulDiscipline(plan, s);
    StepOnwards(plan, s, step);
    LawfulOnwards(plan, s, Apply(plan.g, s, step));
    if MovesEdge(step) { MoveStaysSound(plan.g, s, step); } else { OtherStaysSound(plan.g, s, step); }
  }

  /** Nothing that anybody has to do is out of hands: claims can be run, and edges counted. */
  lemma AllInHands(plan: Plan, s: State)
    requires plan.g.WellFormed() && Going(plan, s)
    ensures forall c :: c in s.pending ==> c !in s.failed && c.exec !in s.gone
    ensures forall d, t :: plan.g.HasEdge(d, t) && d in s.ranBy ==> !s.Phase(d, t).LeftOut?
    ensures forall d, t :: plan.g.HasEdge(d, t) && d in s.ranBy && (s.Phase(d, t).Waiting? || s.Phase(d, t).Held?) ==>
              s.ranBy[d] !in s.gone
    ensures forall edge :: edge in s.owed && edge.src !in s.store ==>
              edge.src in s.ranBy && s.ranBy[edge.src] !in s.gone
  {
    hide Lawful, Discipline, WithinReach;
    LawfulInv(plan, s);
    LawfulLawInv(plan, s);
    forall c | c in s.pending ensures c !in s.failed && c.exec !in s.gone { assert !Dropped(s, c); }
    forall d, t | plan.g.HasEdge(d, t) && d in s.ranBy
      ensures !s.Phase(d, t).LeftOut?
      ensures s.Phase(d, t).Waiting? || s.Phase(d, t).Held? ==> s.ranBy[d] !in s.gone
    {
      assert !Abandoned(plan.g, s, d, t);
    }
    forall edge | edge in s.owed && edge.src !in s.store ensures edge.src in s.ranBy && s.ranBy[edge.src] !in s.gone {
      assert OwedRight(plan.g, s, edge) && EndedInOrder(plan, s, s.ranBy[edge.src]);
      NobodyFailed(plan, s);
    }
  }

  lemma NobodyFailed(plan: Plan, s: State)
    requires plan.g.WellFormed() && Going(plan, s)
    ensures forall c :: c !in s.failed
  {
    hide Lawful;
    LawfulDiscipline(plan, s);
    forall c ensures c !in s.failed { assert !Dropped(s, c); }
  }

  // ---- A claim can be run ----------------------------------------------------

  ghost function Missing(g: Graph, s: State, c: Claim): set<Task>
    requires g.WellFormed()
  {
    if c.task in g.tasks then g.deps[c.task] - s.Cached(c.exec).Keys else {}
  }

  /** s' comes after s, with the claim c in both, nothing run or counted since, and one more
      input, d, within reach. */
  ghost predicate OneCloser(s: State, s': State, c: Claim, d: Task) {
    && c in s'.pending && s'.runCount == s.runCount && d in s'.Cached(c.exec)
    && s.Cached(c.exec).Keys <= s'.Cached(c.exec).Keys
  }

  /** A value can always be brought into the store. */
  lemma ValueCanArrive(plan: Plan, s: State, c: Claim, d: Task) returns (s': State)
    requires plan.g.WellFormed() && Going(plan, s) && c in s.pending && plan.g.HasEdge(d, c.task) && d !in s.Cached(c.exec)
    ensures Onwards(plan, s, s') && Going(plan, s') && d in s'.store
    ensures s'.pending == s.pending && s'.runCount == s.runCount && s'.cache == s.cache
  {
    hide Going, Onwards, Apply;
    AllInHands(plan, s);
    GoingInputs(plan, s, c, d);
    if d in s.store {
      s' := s;
      OnwardsItself(plan, s);
    } else if Edge(d, c.task) in s.owed {
      var step := Pay(s.ranBy[d], Edge(d, c.task));
      PayBrings(plan.g, s, step.e, step.edge);
      StepForward(plan, s, step);
      s' := Apply(plan.g, s, step);
    } else {
      ProxyPutBrings(plan.g, s, d);
      ProxyHere(plan, s);
      StepForward(plan, s, ProxyPut(PROXY, d));
      s' := Apply(plan.g, s, ProxyPut(PROXY, d));
    }
  }

  lemma GoingInputs(plan: Plan, s: State, c: Claim, d: Task)
    requires plan.g.WellFormed() && Going(plan, s) && c in s.pending && plan.g.HasEdge(d, c.task)
    ensures InReach(s, c, d) || Edge(d, c.task) in s.owed || d in s.sent
  {
    hide Lawful, Reachable;
    LawfulReachable(plan, s);
    InputsWithinReach(plan.g, s, c, d);
  }

  lemma ProxyHere(plan: Plan, s: State)
    requires plan.g.WellFormed() && Going(plan, s)
    ensures PROXY !in s.gone && forall c :: c in s.pending && c.exec == PROXY ==> c.mobile
    ensures forall d :: d in s.ranBy ==> s.ranBy[d] != PROXY
  {
    hide Lawful, EdgesInPlace, EndedInOrder, Sound;
    LawfulLawInv(plan, s);
  }

  lemma PayBrings(g: Graph, s: State, e: Exec, edge: Edge)
    requires g.WellFormed() && edge in s.owed && s.Owns(e, edge.src) && e !in s.gone
    ensures Enabled(g, s, Pay(e, edge))
    ensures var s' := Apply(g, s, Pay(e, edge));
            s'.pending == s.pending && s'.runCount == s.runCount && s'.cache == s.cache && edge.src in s'.store
  {
  }

  lemma ProxyPutBrings(g: Graph, s: State, d: Task)
    requires g.WellFormed() && d in s.sent
    ensures PROXY !in s.gone ==> Enabled(g, s, ProxyPut(PROXY, d))
    ensures PROXY !in s.gone ==>
              var s' := Apply(g, s, ProxyPut(PROXY, d));
              && s'.pending == s.pending && s'.runCount == s.runCount && s'.cache == s.cache && d in s'.store
              && s'.phase == s.phase && s'.sent == s.sent
  {
  }

  lemma FetchBrings(g: Graph, s: State, c: Claim, d: Task)
    requires g.WellFormed() && c in s.pending && d in s.store && c.exec !in s.gone
    ensures Enabled(g, s, Fetch(c.exec, d)) && OneCloser(s, Apply(g, s, Fetch(c.exec, d)), c, d)
  {
  }

  lemma InputCanArrive(plan: Plan, s: State, c: Claim, d: Task) returns (s': State)
    requires plan.g.WellFormed() && Going(plan, s) && c in s.pending && plan.g.HasEdge(d, c.task) && d !in s.Cached(c.exec)
    ensures Onwards(plan, s, s') && Going(plan, s') && OneCloser(s, s', c, d)
  {
    hide Going, Onwards, Apply;
    var s1 := ValueCanArrive(plan, s, c, d);
    AllInHands(plan, s1);
    FetchBrings(plan.g, s1, c, d);
    StepForward(plan, s1, Fetch(c.exec, d));
    s' := Apply(plan.g, s1, Fetch(c.exec, d));
    OnwardsCompose(plan, s, s1, s');
  }

  /** From s to s', values were written, and that is all. */
  ghost predicate OnlyWritten(s: State, s': State) {
    s' == s.(store := s'.store) && s.store.Keys <= s'.store.Keys
  }

  lemma WrittenSame(s: State, s': State)
    requires OnlyWritten(s, s')
    ensures SameEdges(s, s') && s'.phase == s.phase && s'.ranBy == s.ranBy && s'.pending == s.pending && s'.runCount == s.runCount
    ensures s'.cache == s.cache && s'.gone == s.gone && s'.givingUp == s.givingUp && s'.failed == s.failed
    ensures forall e: Exec :: s'.Cached(e) == s.Cached(e)
    ensures forall e: Exec, d: Task :: s'.Owns(e, d) <==> s.Owns(e, d)
  {
  }

  ghost function Unwritten(s: State, e: Exec): set<Task> { set d | d in s.ranBy && s.ranBy[d] == e && d !in s.store }

  /** An executor can write all its results. */
  lemma {:induction false} StoreOwn(plan: Plan, s: State, e: Exec) returns (s': State)
    requires plan.g.WellFormed() && Going(plan, s) && e !in s.gone
    ensures Onwards(plan, s, s') && Going(plan, s') && OnlyWritten(s, s')
    ensures forall d :: s.Owns(e, d) ==> d in s'.store
    decreases Unwritten(s, e)
  {
    hide Going, Onwards;
    if d :| d in Unwritten(s, e) {
      MadeIsThere(plan, s, d);
      assert Enabled(plan.g, s, Put(e, d)) && Follows(plan, s, Put(e, d));
      StepForward(plan, s, Put(e, d));
      var s1 := Apply(plan.g, s, Put(e, d));
      hide Apply, Enabled, Follows;
      assert Unwritten(s1, e) < Unwritten(s, e) by { assert d !in Unwritten(s1, e); }
      s' := StoreOwn(plan, s1, e);
      OnwardsCompose(plan, s, s1, s');
    } else {
      s' := s;
      OnwardsItself(plan, s);
      assert forall d :: s.Owns(e, d) && d !in s.store ==> d in Unwritten(s, e);
    }
  }

  lemma MadeIsThere(plan: Plan, s: State, d: Task)
    requires plan.g.WellFormed() && Going(plan, s) && d in s.ranBy
    ensures d in s.made
  {
    hide Lawful, Sound, Discipline, WithinReach;
    LawfulInv(plan, s);
    assert MadeRight(plan.g, s, d);
  }

  /** What is written leaves nothing to wait for in e's queue, and nothing owed. */
  lemma WrittenOut(plan: Plan, s: State, e: Exec)
    requires plan.g.WellFormed() && forall d :: s.Owns(e, d) ==> d in s.store
    ensures QueueStored(plan, s, e) && AllWritten(s, e)
  {
  }

  lemma SameUnrun(g: Graph, s: State, s': State)
    requires s'.runCount == s.runCount
    ensures Unrun(g, s') == Unrun(g, s)
  {
  }

  lemma {:induction false} OwnClaimCanRun(plan: Plan, s: State, c: Claim) returns (s': State)
    requires plan.g.WellFormed() && Going(plan, s) && c in s.pending && c.exec != PROXY
    ensures Onwards(plan, s, s') && Going(plan, s') && Unrun(plan.g, s') < Unrun(plan.g, s)
    decreases Missing(plan.g, s, c)
  {
    hide Going, Onwards, Apply, Unrun, OnlyWritten;
    AllInHands(plan, s);
    GoingClaim(plan, s, c);
    if Missing(plan.g, s, c) == {} {
      assert forall d :: d in plan.g.deps[c.task] && d !in s.Cached(c.exec) ==> d in Missing(plan.g, s, c);
      var s1 := StoreOwn(plan, s, c.exec);
      WrittenSame(s, s1);
      WrittenOut(plan, s1, c.exec);
      SameUnrun(plan.g, s, s1);
      GoingExecute(plan, s1, c);
      StepForward(plan, s1, Execute(c));
      s' := Apply(plan.g, s1, Execute(c));
      OnwardsCompose(plan, s, s1, s');
    } else {
      var d :| d in Missing(plan.g, s, c);
      var s1 := InputCanArrive(plan, s, c, d);
      assert Missing(plan.g, s1, c) < Missing(plan.g, s, c) by { assert d !in Missing(plan.g, s1, c); }
      SameUnrun(plan.g, s, s1);
      s' := OwnClaimCanRun(plan, s1, c);
      OnwardsCompose(plan, s, s1, s');
    }
  }

  lemma GoingClaim(plan: Plan, s: State, c: Claim)
    requires plan.g.WellFormed() && Going(plan, s) && c in s.pending
    ensures c.task in plan.g.tasks
  {
    hide Lawful, Discipline, Sound;
    LawfulDiscipline(plan, s);
    ClaimedIsFresh(plan.g, s, c);
  }

  lemma GoingExecute(plan: Plan, s: State, c: Claim)
    requires plan.g.WellFormed() && Going(plan, s) && Enabled(plan.g, s, Execute(c))
    ensures Unrun(plan.g, Apply(plan.g, s, Execute(c))) < Unrun(plan.g, s)
  {
    hide Lawful, Inv, Sound, Apply, Enabled, Unrun;
    LawfulInv(plan, s);
    OwnExecute(plan.g, s, c);
  }

  lemma ClaimCanRun(plan: Plan, s: State, c: Claim) returns (s': State)
    requires plan.g.WellFormed() && Going(plan, s) && c in s.pending
    ensures Onwards(plan, s, s') && Going(plan, s') && Unrun(plan.g, s') < Unrun(plan.g, s)
  {
    hide Going, Onwards, Apply, Unrun;
    if c.exec != PROXY {
      s' := OwnClaimCanRun(plan, s, c);
    } else {
      AllInHands(plan, s);
      ProxyHere(plan, s);
      var e := FreshExec(s);
      var step := Invoke(PROXY, e, c, map[]);
      HandedOn(plan.g, s, step);
      GoingClaim(plan, s, c);
      StepForward(plan, s, step);
      var s1 := Apply(plan.g, s, step);
      SameUnrun(plan.g, s, s1);
      s' := OwnClaimCanRun(plan, s1, Claim(c.task, e, true));
      OnwardsCompose(plan, s, s1, s');
    }
  }

  lemma HandedOn(g: Graph, s: State, step: Step)
    requires g.WellFormed() && step.Invoke? && step.data == map[] && step.c in s.pending - s.failed && step.c.mobile
    requires step.c.exec == step.e && step.e !in s.gone && !s.Used(step.e')
    ensures Enabled(g, s, step) && Claim(step.c.task, step.e', true) in Apply(g, s, step).pending && step.e' != PROXY
    ensures Apply(g, s, step).runCount == s.runCount
  {
  }

  // ---- An edge can be counted ------------------------------------------------

  ghost function OpenEdges(g: Graph, s: State): set<Edge>
    requires g.WellFormed()
  {
    set edge | edge in g.Edges() && !s.Phase(edge.src, edge.dst).Settled? && !s.Phase(edge.src, edge.dst).Taken?
  }

  lemma InOpen(g: Graph, s: State, d: Task, t: Task)
    requires g.WellFormed() && g.HasEdge(d, t)
    ensures Edge(d, t) in OpenEdges(g, s) <==> !s.Phase(d, t).Settled? && !s.Phase(d, t).Taken?
  {
    assert Edge(d, t) in g.Edges();
  }

  /** How far d -> t is from being counted. */
  ghost function StepsToCount(plan: Plan, s: State, d: Task, t: Task): nat {
    if s.Phase(d, t).Waiting? then
      if plan.FansOut(d) then (if d !in s.sent then 4 else if plan.BecomeEdge(d, t) then 1 else 3)
      else if plan.Holdable(d, t) then 2
      else 1
    else if s.Phase(d, t).Proxied? then (if d in s.store then 1 else 2)
    else if s.Phase(d, t).Held? then 1
    else 0
  }

  /** The next step on the way to counting d -> t. */
  ghost function TowardsCount(plan: Plan, s: State, d: Task, t: Task): Step
    requires d in s.ranBy
  {
    var e := s.ranBy[d];
    if s.Phase(d, t).Waiting? then
      if plan.FansOut(d) then
        if d !in s.sent then Send(e, d)
        else if plan.BecomeEdge(d, t) then CountSent(e, d, t)
        else Delegate(e, d, t)
      else if plan.Holdable(d, t) then Hold(e, d, t)
      else Count(e, d, t, plan.Mobile(d, t))
    else if s.Phase(d, t).Held? then Count(e, d, t, plan.Mobile(d, t))
    else if d !in s.store then ProxyPut(PROXY, d)
    else ProxyCount(PROXY, d, t)
  }

  /** Nobody has a claim; what d's executor has to count is stored, and it may do so now. */
  ghost predicate Countable(plan: Plan, s: State, d: Task, t: Task) {
    && s.pending == {} && d in s.ranBy
    && (s.Phase(d, t).Waiting? || s.Phase(d, t).Held? ==> d in s.store && s.ranBy[d] !in s.givingUp)
  }

  /** That step can be taken, lawfully; it counts the edge, or comes closer to it. */
  lemma TowardsCountWorks(plan: Plan, s: State, d: Task, t: Task)
    requires plan.g.WellFormed() && Going(plan, s) && plan.g.HasEdge(d, t) && Countable(plan, s, d, t)
    requires !s.Phase(d, t).Settled? && !s.Phase(d, t).Taken?
    ensures var step := TowardsCount(plan, s, d, t);
            Enabled(plan.g, s, step) && Follows(plan, s, step) && Forward(step)
  {
    hide Going;
    AllInHands(plan, s);
    ProxyHere(plan, s);
    EdgeInHands(plan, s, d, t);
    hide Graph.WellFormed, Completes, Done;
  }

  lemma EdgeInHands(plan: Plan, s: State, d: Task, t: Task)
    requires plan.g.WellFormed() && Going(plan, s) && plan.g.HasEdge(d, t) && d in s.ranBy
    ensures d in s.made
    ensures s.Phase(d, t).Waiting? || s.Phase(d, t).Held? ==> d in s.Cached(s.ranBy[d])
    ensures s.Phase(d, t).Proxied? ==> d in s.sent
    ensures s.Phase(d, t).Held? ==> plan.Holdable(d, t)
  {
    hide Lawful, Sound, Discipline, WithinReach, ProxyInPlace, EndedInOrder;
    LawfulInv(plan, s);
    LawfulLawInv(plan, s);
    assert MadeRight(plan.g, s, d);
    if s.Phase(d, t).Waiting? || s.Phase(d, t).Held? { StillCached(plan.g, s, s.ranBy[d], d, t); }
  }

  /** s' is at least one step closer to counting d -> t than s. */
  ghost predicate CloserToCount(plan: Plan, s: State, s': State, d: Task, t: Task)
    requires plan.g.WellFormed()
  {
    && s'.runCount == s.runCount && OpenEdges(plan.g, s') <= OpenEdges(plan.g, s) && d in s'.ranBy
    && (!s'.Phase(d, t).Settled? ==> s'.pending == s.pending && s'.ranBy == s.ranBy && s'.givingUp == s.givingUp && s.store.Keys <= s'.store.Keys)
    && (s'.Phase(d, t).Held? ==> s.Phase(d, t).Held? || s.Phase(d, t).Waiting?) && (s'.Phase(d, t).Waiting? ==> s.Phase(d, t).Waiting?)
    && if s'.Phase(d, t).Settled? then Edge(d, t) !in OpenEdges(plan.g, s')
       else !s'.Phase(d, t).Taken? && StepsToCount(plan, s', d, t) < StepsToCount(plan, s, d, t)
  }

  ghost predicate InHands(plan: Plan, s: State, d: Task, t: Task)
    requires plan.g.WellFormed()
  {
    && plan.g.HasEdge(d, t) && d in s.ranBy
    && !s.Phase(d, t).Settled? && !s.Phase(d, t).Taken? && !s.Phase(d, t).LeftOut?
    && (s.Phase(d, t).Proxied? ==> d in s.sent)
  }

  /** What a step towards counting d -> t does to what is open. */
  lemma TowardsCountHelps(plan: Plan, s: State, d: Task, t: Task)
    requires plan.g.WellFormed() && InHands(plan, s, d, t) && Enabled(plan.g, s, TowardsCount(plan, s, d, t))
    ensures CloserToCount(plan, s, Apply(plan.g, s, TowardsCount(plan, s, d, t)), d, t)
  {
    hide Enabled, Apply, CloserToCount, TowardsCount;
    var step := TowardsCount(plan, s, d, t);
    if Parks(step) {
      ParkHelps(plan, s, d, t);
    } else if MovesEdge(step) {
      CountHelps(plan, s, d, t);
    } else {
      QuietHelps(plan, s, d, t);
    }
  }

  lemma FewerOpen(g: Graph, s: State, s': State, d: Task, t: Task)
    requires g.WellFormed() && g.HasEdge(d, t) && OnlyEdge(s, s', d, t)
    requires !s.Phase(d, t).Settled? && !s.Phase(d, t).Taken?
    ensures OpenEdges(g, s') <= OpenEdges(g, s)
    ensures s'.Phase(d, t).Settled? ==> Edge(d, t) !in OpenEdges(g, s')
  {
    InOpen(g, s, d, t);
  }

  lemma CountHelps(plan: Plan, s: State, d: Task, t: Task)
    requires plan.g.WellFormed() && InHands(plan, s, d, t) && Enabled(plan.g, s, TowardsCount(plan, s, d, t))
    requires MovesEdge(TowardsCount(plan, s, d, t)) && !Parks(TowardsCount(plan, s, d, t))
    ensures CloserToCount(plan, s, Apply(plan.g, s, TowardsCount(plan, s, d, t)), d, t)
  {
    var step := TowardsCount(plan, s, d, t);
    assert step.d == d && step.t == t && (Counts(step) || step.CountOwing?);
    hide Apply, Enabled, Graph.WellFormed, TowardsCount;
    EdgeStepMovesOne(plan.g, s, step);
    CountIsNoPeek(plan.g, s, step);
    FewerOpen(plan.g, s, Apply(plan.g, s, step), d, t);
  }

  lemma ParkHelps(plan: Plan, s: State, d: Task, t: Task)
    requires plan.g.WellFormed() && InHands(plan, s, d, t) && Enabled(plan.g, s, TowardsCount(plan, s, d, t))
    requires Parks(TowardsCount(plan, s, d, t))
    ensures CloserToCount(plan, s, Apply(plan.g, s, TowardsCount(plan, s, d, t)), d, t)
  {
    var step := TowardsCount(plan, s, d, t);
    assert step.d == d && step.t == t;
    ParkApplied(plan.g, s, step);
    assert step.Delegate? || step.Hold?;
    assert StepsToCount(plan, s, d, t) == if step.Delegate? then 3 else 2;
    hide Apply, Enabled, Graph.WellFormed, TowardsCount;
    SetPhaseMoves(s, d, t, ParkedPhase(s, step));
    FewerOpen(plan.g, s, Apply(plan.g, s, step), d, t);
  }

  lemma CountIsNoPeek(g: Graph, s: State, step: Step)
    requires g.WellFormed() && Enabled(g, s, step) && (Counts(step) || step.CountOwing?)
    ensures Apply(g, s, step).Phase(step.d, step.t).Settled?
  {
    if Counts(step) { PlainCountChanges(g, s, step); } else { OwingChanges(g, s, step.e, step.d, step.t); }
  }

  lemma QuietHelps(plan: Plan, s: State, d: Task, t: Task)
    requires plan.g.WellFormed() && InHands(plan, s, d, t) && Enabled(plan.g, s, TowardsCount(plan, s, d, t))
    requires !MovesEdge(TowardsCount(plan, s, d, t))
    ensures CloserToCount(plan, s, Apply(plan.g, s, TowardsCount(plan, s, d, t)), d, t)
  {
    var step := TowardsCount(plan, s, d, t);
    QuietApplied(plan.g, s, step);
    BroughtOut(plan, s, d, t);
    hide Apply, Enabled, Graph.WellFormed, TowardsCount;
    var s' := Apply(plan.g, s, step);
    assert SameEdges(s, s');
    assert OpenEdges(plan.g, s') == OpenEdges(plan.g, s);
  }

  lemma BroughtOut(plan: Plan, s: State, d: Task, t: Task)
    requires plan.g.WellFormed() && InHands(plan, s, d, t) && Enabled(plan.g, s, TowardsCount(plan, s, d, t))
    requires !MovesEdge(TowardsCount(plan, s, d, t))
    ensures var s' := Apply(plan.g, s, TowardsCount(plan, s, d, t));
            && s'.phase == s.phase && StepsToCount(plan, s', d, t) < StepsToCount(plan, s, d, t)
  {
    var step := TowardsCount(plan, s, d, t);
    assert step == Put(s.ranBy[d], d) || step == Send(s.ranBy[d], d) || step == ProxyPut(PROXY, d);
    assert step.Send? ==> d !in s.sent && plan.FansOut(d) && s.Phase(d, t).Waiting?;
    assert step.Put? ==> d !in s.store && !plan.FansOut(d) && !plan.Holdable(d, t) && s.Phase(d, t).Waiting?;
    assert step.ProxyPut? ==> d !in s.store && s.Phase(d, t).Proxied?;
    hide TowardsCount, Plan.Holdable, Plan.FansOut, Plan.BecomeEdge;
    BringsOut(plan.g, s, d, step);
    hide Apply, Enabled, Graph.WellFormed;
    assert SameEdges(s, Apply(plan.g, s, step));
  }

  lemma BringsOut(g: Graph, s: State, d: Task, step: Step)
    requires g.WellFormed() && Enabled(g, s, step)
    requires (step.Put? || step.Send? || step.ProxyPut?) && step.d == d
    ensures var s' := Apply(g, s, step);
            && s'.phase == s.phase && s.sent.Keys <= s'.sent.Keys && s.store.Keys <= s'.store.Keys
            && if step.Send? then d in s'.sent else d in s'.store
  {
    hide Graph.WellFormed;
  }

  lemma {:induction false} CountableIsCounted(plan: Plan, s: State, d: Task, t: Task) returns (s': State)
    requires plan.g.WellFormed() && Going(plan, s) && plan.g.HasEdge(d, t) && Countable(plan, s, d, t)
    requires !s.Phase(d, t).Settled? && !s.Phase(d, t).Taken?
    ensures Onwards(plan, s, s') && Going(plan, s') && s'.runCount == s.runCount
    ensures OpenEdges(plan.g, s') <= OpenEdges(plan.g, s) && Edge(d, t) !in OpenEdges(plan.g, s')
    decreases StepsToCount(plan, s, d, t)
  {
    hide Going, Onwards, Apply, OpenEdges, StepsToCount, TowardsCount, Enabled, Follows;
    AllInHands(plan, s);
    EdgeInHands(plan, s, d, t);
    var step := TowardsCount(plan, s, d, t);
    TowardsCountWorks(plan, s, d, t);
    TowardsCountHelps(plan, s, d, t);
    StepForward(plan, s, step);
    s' := Apply(plan.g, s, step);
    if !s'.Phase(d, t).Settled? {
      var s1 := s';
      s' := CountableIsCounted(plan, s1, d, t);
      OnwardsCompose(plan, s, s1, s');
    }
  }

  lemma StopGivingUp(plan: Plan, s: State, e: Exec) returns (s': State)
    requires plan.g.WellFormed() && Going(plan, s) && e in s.givingUp && e !in s.gone && s.pending == {}
    requires forall d :: s.Owns(e, d) ==> d in s.store
    ensures Onwards(plan, s, s') && Going(plan, s') && s'.givingUp == s.givingUp - {e} && s'.store == s.store
    ensures SameEdges(s, s') && s'.ranBy == s.ranBy && s'.pending == s.pending && s'.runCount == s.runCount
  {
    hide Going, Onwards;
    WrittenOut(plan, s, e);
    assert Enabled(plan.g, s, Resume(e)) && Follows(plan, s, Resume(e));
    StepForward(plan, s, Resume(e));
    s' := Apply(plan.g, s, Resume(e));
  }

  /** With no claim pending, an executor can write what it has, and stop giving up. */
  lemma BecomeCountable(plan: Plan, s: State, d: Task, t: Task) returns (s': State)
    requires plan.g.WellFormed() && Going(plan, s) && plan.g.HasEdge(d, t) && d in s.ranBy && s.pending == {}
    ensures Onwards(plan, s, s') && Going(plan, s') && Countable(plan, s', d, t)
    ensures s'.runCount == s.runCount && SameEdges(s, s')
  {
    hide Going, Onwards, OnlyWritten, Graph.WellFormed;
    if s.Phase(d, t).Waiting? || s.Phase(d, t).Held? {
      var e := s.ranBy[d];
      StillThere(plan, s, d, t);
      s' := StoreOwn(plan, s, e);
      WrittenSame(s, s');
      if e in s.givingUp {
        var s1 := s';
        s' := StopGivingUp(plan, s1, e);
        OnwardsCompose(plan, s, s1, s');
      }
    } else {
      s' := s;
      OnwardsItself(plan, s);
    }
  }

  lemma StillThere(plan: Plan, s: State, d: Task, t: Task)
    requires plan.g.WellFormed() && Going(plan, s) && plan.g.HasEdge(d, t) && d in s.ranBy
    requires s.Phase(d, t).Waiting? || s.Phase(d, t).Held?
    ensures s.ranBy[d] !in s.gone
  {
    hide Going;
    AllInHands(plan, s);
  }

  /** An open edge of an executed task can always be counted. */
  lemma EdgeCanBeCounted(plan: Plan, s: State, d: Task, t: Task) returns (s': State)
    requires plan.g.WellFormed() && Going(plan, s) && plan.g.HasEdge(d, t) && d in s.ranBy && s.pending == {}
    requires !s.Phase(d, t).Settled? && !s.Phase(d, t).Taken?
    ensures Onwards(plan, s, s') && Going(plan, s') && s'.runCount == s.runCount
    ensures OpenEdges(plan.g, s') <= OpenEdges(plan.g, s) && Edge(d, t) !in OpenEdges(plan.g, s')
  {
    hide Going, Onwards, Countable;
    var s1 := BecomeCountable(plan, s, d, t);
    assert OpenEdges(plan.g, s1) == OpenEdges(plan.g, s);
    s' := CountableIsCounted(plan, s1, d, t);
    OnwardsCompose(plan, s, s1, s');
  }

  lemma {:induction false} GoingCompletes(plan: Plan, s: State) returns (s': State)
    requires plan.g.WellFormed() && Going(plan, s)
    ensures Onwards(plan, s, s') && AllRanOnce(plan.g, s')
    decreases Unrun(plan.g, s), OpenEdges(plan.g, s)
  {
    hide Going, Onwards, Unrun, OpenEdges;
    if c :| c in s.pending {
      var s1 := ClaimCanRun(plan, s, c);
      s' := GoingCompletes(plan, s1);
      OnwardsCompose(plan, s, s1, s');
    } else if AllRanOnce(plan.g, s) {
      s' := s;
      OnwardsItself(plan, s);
    } else {
      var d, t := NextOpen(plan, s);
      InOpen(plan.g, s, d, t);
      var s1 := EdgeCanBeCounted(plan, s, d, t);
      SameUnrun(plan.g, s, s1);
      s' := GoingCompletes(plan, s1);
      OnwardsCompose(plan, s, s1, s');
    }
  }

  lemma NextOpen(plan: Plan, s: State) returns (d: Task, t: Task)
    requires plan.g.WellFormed() && Going(plan, s) && s.pending == {} && !AllRanOnce(plan.g, s)
    ensures plan.g.HasEdge(d, t) && d in s.ranBy && !s.Phase(d, t).Settled? && !s.Phase(d, t).Taken?
  {
    hide Lawful, Reachable, Sound;
    LawfulReachable(plan, s);
    CompleteExactlyWhenQuiescent(plan.g, s);
    d, t :| plan.g.HasEdge(d, t) && d in s.ranBy && !s.Phase(d, t).Settled? && !s.Phase(d, t).Taken?;
  }

  /** From a lawful state the job can still be completed if and only if no abandoned edge leads
      into an unclaimed task and no claim was dropped: as far as the protocol goes, which lets
      an executor deal with its nodes in any order. */
  lemma CompletableExactlyWhenIntact(plan: Plan, s: State)
    requires plan.g.WellFormed() && Lawful(plan, s)
    ensures CanComplete(plan, s) <==> Intact(plan.g, s)
  {
    hide Lawful, Onwards, Abandoned, Dropped, Inv;
    if Intact(plan.g, s) {
      LawfulInv(plan, s);
      LostIsNotRun(plan.g, s);
      var s' := GoingCompletes(plan, s);
    } else {
      NotIntactCannotComplete(plan, s);
    }
  }
}
