/** When executors and the proxy take which step: the protocol as the code follows it, for a
    given plan.  Every lawful run is a run of the protocol, so that whatever holds of all
    runs holds of these. */
module Conduct {
  import opened Graphs
  import opened Plans
  import opened FanIn
  import opened FanInSafety
  import opened LocalViews

  /** d's value is neither in the store nor with the executor of the claim c. */
  ghost predicate OutOfReach(s: State, c: Claim, d: Task) {
    d !in s.store && d !in s.Cached(c.exec)
  }

  /** e has failed to run a task that it had claimed. */
  ghost predicate HasFailed(s: State, e: Exec) {
    exists c :: c in s.failed && c.exec == e
  }

  ghost predicate NoClaims(s: State, e: Exec) {
    forall c :: c in s.pending && c !in s.failed ==> c.exec != e
  }

  ghost predicate NoneWaits(plan: Plan, s: State, e: Exec)
    requires plan.g.WellFormed()
  {
    forall d, t :: plan.g.HasEdge(d, t) && s.Owns(e, d) ==> !s.Phase(d, t).Waiting?
  }

  /** Only edges whose values are stored are left in e's delayed queue. */
  ghost predicate QueueStored(plan: Plan, s: State, e: Exec)
    requires plan.g.WellFormed()
  {
    forall d, t :: plan.g.HasEdge(d, t) && s.Owns(e, d) && s.Phase(d, t).Held? ==> d in s.store
  }

  ghost predicate AllWritten(s: State, e: Exec) {
    forall edge :: edge in s.owed && s.Owns(e, edge.src) ==> edge.src in s.store
  }

  ghost predicate NoDependentRan(g: Graph, s: State, d: Task)
    requires g.WellFormed()
  {
    forall x :: g.HasEdge(d, x) ==> s.Runs(x) == 0
  }

  /** e may have come to t from its delayed queue. */
  ghost predicate MayBeQueued(plan: Plan, s: State, e: Exec, t: Task)
    requires plan.g.WellFormed()
  {
    exists d :: plan.g.HasEdge(d, t) && s.Owns(e, d) && s.Owns(e, t) && plan.Holdable(d, t)
  }

  /** The results of the final tasks that e has run are stored, except for one that came from
      the queue, or that was the current task when another came from there. */
  ghost predicate FinalsWritten(plan: Plan, s: State, e: Exec)
    requires plan.g.WellFormed()
  {
    forall t :: s.Owns(e, t) && plan.g.Downstream(t) == {} ==>
      || t in s.store || MayBeQueued(plan, s, e, t)
      || (plan.NotOnlyPulledDown(t) && exists q :: MayBeQueued(plan, s, e, q))
  }

  /** e has nothing left to do.  Edges in its delayed queue are all that may be left, and that
      only after a final task as the current one, the branch for which returns without a look
      at the queue. */
  ghost predicate AtEnd(plan: Plan, s: State, e: Exec)
    requires plan.g.WellFormed()
  {
    && (forall c :: c in s.pending ==> c.exec != e)
    && NoneWaits(plan, s, e) && AllWritten(s, e) && FinalsWritten(plan, s, e)
    && ((forall d, t :: plan.g.HasEdge(d, t) && s.Owns(e, d) ==> !s.Phase(d, t).Held?)
        || (exists t :: plan.NotOnlyPulledDown(t) && s.Owns(e, t) && plan.g.Downstream(t) == {} && t in s.store))
  }

  /** An executor deals with one node after the other: it first looks at all out-edges of a big
      task, and runs what it pulls down after that; it leaves an edge to the proxy, or to a
      task to become, only as long as none is chosen.  It gives up on its queue when nothing
      else is left to do; then it counts all of the queue, runs what has become ready, writes
      what it owes, and only then goes on. */
  ghost predicate Follows(plan: Plan, s: State, step: Step)
    requires plan.g.WellFormed()
  {
    match step
    case Execute(c) => c.exec != PROXY && (c.exec in s.givingUp ==> QueueStored(plan, s, c.exec))
    case Count(e, d, t, mobile) =>
      && (mobile <==> plan.Mobile(d, t)) && !plan.ToProxy(d, t)
      && (plan.Holdable(d, t) ==> s.Phase(d, t).Held?)
      && (s.Phase(d, t).Waiting? ==> e !in s.givingUp) && (plan.FansOut(d) ==> NoClaims(s, e))
    case CountOwing(e, d, t) => s.Phase(d, t).Held? && e in s.givingUp
    case CountSent(e, d, t) => plan.FansOut(d) && plan.BecomeEdge(d, t) && e !in s.givingUp && NoClaims(s, e)
    case Peek(e, d, t) =>
      && plan.Peekable(d, t) && !plan.Missed(d, t) && e !in s.givingUp
      && if d in plan.big then s.Phase(d, t).Waiting? ==> d in s.store || NoDependentRan(plan.g, s, d)
         else NoClaims(s, e)
    case Hold(e, d, t) => plan.Holdable(d, t) && e !in s.givingUp
    case Send(_, d) => plan.FansOut(d)
    case Delegate(e, d, t) => plan.ToProxy(d, t) && e !in s.givingUp
    case LeaveOut(e, d, t) =>
      plan.FansOut(d) && plan.BecomeEdge(d, t) && e !in s.givingUp && exists c :: c in s.pending && c.exec == e
    case Invoke(_, _, c, data) => c.task in plan.g.tasks && data.Keys <= plan.g.deps[c.task]
    case Drop(c) => c.exec != PROXY && exists d :: plan.g.HasEdge(d, c.task) && OutOfReach(s, c, d)
    case GiveUp(e) => NoneWaits(plan, s, e) && NoClaims(s, e)
    case Resume(e) => NoClaims(s, e) && QueueStored(plan, s, e) && AllWritten(s, e)
    case Quit(e) => HasFailed(s, e) || AtEnd(plan, s, e)
    case _ => true
  }

  // ---- What an executor knows of that by itself ------------------------------

  /** Nobody can have run a dependent of d: each waits for this very executor. */
  ghost predicate Untried(g: Graph, v: Local, d: Task)
    requires g.WellFormed()
  {
    forall x :: g.HasEdge(d, x) ==> Edge(d, x) in v.waiting || Edge(d, x) in v.held || x in v.claims
  }

  lemma UntriedNotRun(g: Graph, s: State, e: Exec, d: Task)
    requires g.WellFormed() && Discipline(g, s) && Untried(g, View(g, s, e), d)
    ensures NoDependentRan(g, s, d)
  {
    forall x | g.HasEdge(d, x) ensures s.Runs(x) == 0 {
      if x in View(g, s, e).claims {
        hide View;
        ClaimInView(g, s, e, x);
      } else {
        InView(g, s, e, d, x);
        hide View;
        NotDueYet(g, s, d, x);
      }
    }
  }

  lemma ModeInView(plan: Plan, s: State, e: Exec)
    requires plan.g.WellFormed()
    ensures var v := View(plan.g, s, e);
            && (v.givingUp <==> e in s.givingUp)
            && (v.claims == map[] ==> NoClaims(s, e))
            && (v.waiting == {} ==> NoneWaits(plan, s, e))
            && ((forall edge :: edge in v.held ==> edge.src in s.store) ==> QueueStored(plan, s, e))
            && ((forall edge :: edge in v.owing ==> edge.src in s.store) ==> AllWritten(s, e))
  {
    forall d, t | plan.g.HasEdge(d, t) && s.Owns(e, d)
      ensures s.Phase(d, t).Waiting? ==> Edge(d, t) in View(plan.g, s, e).waiting
      ensures s.Phase(d, t).Held? ==> Edge(d, t) in View(plan.g, s, e).held
    {
      InView(plan.g, s, e, d, t);
    }
    forall c | c in s.pending && c !in s.failed && c.exec == e ensures c.task in View(plan.g, s, e).claims {
    }
  }

  /** steps can be taken from s, one after the other, and lead to s'. */
  ghost predicate LeadsTo(plan: Plan, s: State, steps: seq<Step>, s': State)
    requires plan.g.WellFormed()
    decreases |steps|
  {
    if steps == [] then s' == s
    else
      && Enabled(plan.g, s, steps[0]) && Follows(plan, s, steps[0])
      && LeadsTo(plan, Apply(plan.g, s, steps[0]), steps[1..], s')
  }

  ghost predicate Onwards(plan: Plan, s: State, s': State)
    requires plan.g.WellFormed()
  {
    exists steps :: LeadsTo(plan, s, steps, s')
  }

  ghost predicate OwnLambdas(plan: Plan, lambda: map<Task, Exec>) {
    && plan.g.tasks <= lambda.Keys && PROXY !in lambda.Values
    && (forall t, t' :: t in lambda && t' in lambda && t != t' ==> lambda[t] != lambda[t'])
  }

  /** Some lawful run leads to s from the start, where each leaf has a Lambda of its own. */
  ghost predicate Lawful(plan: Plan, s: State)
    requires plan.g.WellFormed()
  {
    exists lambda: map<Task, Exec> :: OwnLambdas(plan, lambda) && Onwards(plan, Init(plan.g, lambda), s)
  }

  lemma {:induction false} LeadsToRuns(plan: Plan, s: State, steps: seq<Step>, s': State)
    requires plan.g.WellFormed() && LeadsTo(plan, s, steps, s')
    ensures CanRun(plan.g, s, steps) && RunFrom(plan.g, s, steps) == s'
    decreases |steps|
  {
    hide Apply, Enabled, Follows;
    if steps != [] { LeadsToRuns(plan, Apply(plan.g, s, steps[0]), steps[1..], s'); }
  }

  lemma {:induction false} LeadsToCompose(plan: Plan, s: State, steps: seq<Step>, s': State, more: seq<Step>, s'': State)
    requires plan.g.WellFormed() && LeadsTo(plan, s, steps, s') && LeadsTo(plan, s', more, s'')
    ensures LeadsTo(plan, s, steps + more, s'')
    decreases |steps|
  {
    hide Apply, Enabled, Follows;
    if steps == [] {
      assert steps + more == more;
    } else {
      LeadsToCompose(plan, Apply(plan.g, s, steps[0]), steps[1..], s', more, s'');
      assert (steps + more)[1..] == steps[1..] + more;
    }
  }

  lemma OnwardsCompose(plan: Plan, s: State, s': State, s'': State)
    requires plan.g.WellFormed() && Onwards(plan, s, s') && Onwards(plan, s', s'')
    ensures Onwards(plan, s, s'')
  {
    hide LeadsTo;
    var steps :| LeadsTo(plan, s, steps, s');
    var more :| LeadsTo(plan, s', more, s'');
    LeadsToCompose(plan, s, steps, s', more, s'');
  }

  lemma OnwardsItself(plan: Plan, s: State)
    requires plan.g.WellFormed()
    ensures Onwards(plan, s, s)
  {
    assert LeadsTo(plan, s, [], s);
  }

  lemma StepOnwards(plan: Plan, s: State, step: Step)
    requires plan.g.WellFormed() && Enabled(plan.g, s, step) && Follows(plan, s, step)
    ensures Onwards(plan, s, Apply(plan.g, s, step))
  {
    hide Apply, Enabled, Follows;
    var s' := Apply(plan.g, s, step);
    assert [step][1..] == [] && LeadsTo(plan, s', [], s');
    assert LeadsTo(plan, s, [step], s');
  }

  lemma LawfulStart(plan: Plan, lambda: map<Task, Exec>)
    requires plan.g.WellFormed() && OwnLambdas(plan, lambda)
    ensures Lawful(plan, Init(plan.g, lambda))
  {
    hide Init;
    OnwardsItself(plan, Init(plan.g, lambda));
  }

  lemma LawfulOnwards(plan: Plan, s: State, s': State)
    requires plan.g.WellFormed() && Lawful(plan, s) && Onwards(plan, s, s')
    ensures Lawful(plan, s')
  {
    hide Onwards, Init;
    var lambda: map<Task, Exec> :| OwnLambdas(plan, lambda) && Onwards(plan, Init(plan.g, lambda), s);
    OnwardsCompose(plan, Init(plan.g, lambda), s, s');
  }

  lemma LawfulStep(plan: Plan, s: State, step: Step)
    requires plan.g.WellFormed() && Lawful(plan, s) && Enabled(plan.g, s, step) && Follows(plan, s, step)
    ensures Lawful(plan, Apply(plan.g, s, step))
  {
    hide Apply, Enabled, Follows, Onwards, Lawful;
    StepOnwards(plan, s, step);
    LawfulOnwards(plan, s, Apply(plan.g, s, step));
  }

  lemma LawfulReachable(plan: Plan, s: State)
    requires plan.g.WellFormed() && Lawful(plan, s)
    ensures Reachable(plan.g, s)
  {
    hide LeadsTo, CanRun, RunFrom, Init;
    var lambda: map<Task, Exec> :| OwnLambdas(plan, lambda) && Onwards(plan, Init(plan.g, lambda), s);
    var steps :| LeadsTo(plan, Init(plan.g, lambda), steps, s);
    LeadsToRuns(plan, Init(plan.g, lambda), steps, s);
  }

  lemma LawfulInv(plan: Plan, s: State)
    requires plan.g.WellFormed() && Lawful(plan, s)
    ensures Inv(plan.g, s)
  {
    hide Lawful, Reachable, Inv;
    LawfulReachable(plan, s);
    ReachableInv(plan.g, s);
  }

  lemma LawfulDiscipline(plan: Plan, s: State)
    requires plan.g.WellFormed() && Lawful(plan, s)
    ensures Discipline(plan.g, s)
  {
    hide Lawful, Discipline, Supply;
    LawfulInv(plan, s);
  }

  // ---- What lawful runs keep -------------------------------------------------

  /** Each edge is only where the plan has it. */
  ghost predicate EdgesInPlace(plan: Plan, s: State)
    requires plan.g.WellFormed()
  {
    forall d, t :: plan.g.HasEdge(d, t) ==>
      && (s.Phase(d, t).Held? ==> plan.Holdable(d, t))
      && (s.Phase(d, t).Proxied? ==> plan.ToProxy(d, t) && d in s.sent)
      && (s.Phase(d, t).LeftOut? ==> plan.FansOut(d) && plan.BecomeEdge(d, t))
  }

  /** The proxy is sent only what it is to fan out, runs nothing and hands on every claim. */
  ghost predicate ProxyInPlace(plan: Plan, s: State) {
    && (forall d :: d in s.sent ==> plan.FansOut(d))
    && (forall d :: d in s.ranBy ==> s.ranBy[d] != PROXY)
    && (forall c :: c in s.pending && c.exec == PROXY ==> c.mobile && c !in s.failed)
    && PROXY !in s.gone
  }

  /** e has no claim, no edge waiting, nothing owed and its final results stored. */
  ghost predicate NothingLeft(plan: Plan, s: State, e: Exec)
    requires plan.g.WellFormed()
  {
    && (forall c :: c in s.pending ==> c.exec != e)
    && (forall d, t :: plan.g.HasEdge(d, t) && s.Owns(e, d) ==> !s.Phase(d, t).Waiting?)
    && (forall edge :: edge in s.owed && s.Owns(e, edge.src) ==> edge.src in s.store)
    && FinalsWritten(plan, s, e)
  }

  ghost predicate EndedInOrder(plan: Plan, s: State, e: Exec)
    requires plan.g.WellFormed()
  {
    e in s.gone ==> HasFailed(s, e) || NothingLeft(plan, s, e)
  }

  ghost predicate LawInv(plan: Plan, s: State)
    requires plan.g.WellFormed()
  {
    && EdgesInPlace(plan, s) && ProxyInPlace(plan, s)
    && (forall e {:trigger EndedInOrder(plan, s, e)} :: EndedInOrder(plan, s, e))
  }

  /** d -> t is where the plan has it. */
  ghost predicate InPlace(plan: Plan, s: State, d: Task, t: Task) {
    && (s.Phase(d, t).Held? ==> plan.Holdable(d, t))
    && (s.Phase(d, t).Proxied? ==> plan.ToProxy(d, t) && d in s.sent)
    && (s.Phase(d, t).LeftOut? ==> plan.FansOut(d) && plan.BecomeEdge(d, t))
  }

  lemma OneEdgeInPlace(plan: Plan, s: State, s': State, d: Task, t: Task)
    requires plan.g.WellFormed() && EdgesInPlace(plan, s) && OnlyEdge(s, s', d, t) && s.sent.Keys <= s'.sent.Keys
    requires InPlace(plan, s', d, t)
    ensures EdgesInPlace(plan, s')
  {
    hide Plan.Holdable, Plan.ToProxy, Plan.FansOut, Plan.BecomeEdge, Graph.WellFormed;
  }

  lemma ParkedInPlace(plan: Plan, s: State, step: Step)
    requires plan.g.WellFormed() && Parks(step) && Enabled(plan.g, s, step) && Follows(plan, s, step)
    ensures InPlace(plan, Apply(plan.g, s, step), step.d, step.t)
  {
    ParkApplied(plan.g, s, step);
    assert step.Delegate? ==> step.d in s.sent;
    var s' := Apply(plan.g, s, step);
    hide Apply, Enabled, Graph.WellFormed, Plan.Holdable, Plan.ToProxy, Plan.FansOut, Plan.BecomeEdge, SetPhase;
    SetPhaseMoves(s, step.d, step.t, ParkedPhase(s, step));
  }

  lemma StepKeepsEdgesInPlace(plan: Plan, s: State, step: Step)
    requires plan.g.WellFormed() && EdgesInPlace(plan, s) && Enabled(plan.g, s, step) && Follows(plan, s, step)
    ensures EdgesInPlace(plan, Apply(plan.g, s, step))
  {
    hide Apply, Enabled, Graph.WellFormed, Plan.Holdable, Plan.ToProxy, Plan.FansOut, Plan.BecomeEdge, EdgesInPlace, Follows,
      OnlyEdge;
    StepOnlyAdds(plan.g, s, step);
    if MovesEdge(step) {
      EdgeStepMovesOne(plan.g, s, step);
      if Parks(step) { ParkedInPlace(plan, s, step); } else { CountingSettles(plan.g, s, step); }
      OneEdgeInPlace(plan, s, Apply(plan.g, s, step), step.d, step.t);
    } else {
      SamePhaseOtherwise(plan.g, s, step);
      SamePhasesInPlace(plan, s, Apply(plan.g, s, step));
    }
  }

  lemma SamePhasesInPlace(plan: Plan, s: State, s': State)
    requires plan.g.WellFormed() && EdgesInPlace(plan, s) && s'.phase == s.phase && s.sent.Keys <= s'.sent.Keys
    ensures EdgesInPlace(plan, s')
  {
    hide Plan.Holdable, Plan.ToProxy, Plan.FansOut, Plan.BecomeEdge, Graph.WellFormed;
    assert SameEdges(s, s');
  }

  lemma SamePhaseOtherwise(g: Graph, s: State, step: Step)
    requires g.WellFormed() && Enabled(g, s, step) && !MovesEdge(step)
    ensures Apply(g, s, step).phase == s.phase
  {
    hide Graph.WellFormed, Inputs;
  }

  lemma CountingSettles(g: Graph, s: State, step: Step)
    requires g.WellFormed() && Enabled(g, s, step) && MovesEdge(step) && !Parks(step)
    ensures var p := Apply(g, s, step).Phase(step.d, step.t); p.Settled? || p.Taken?
  {
    hide Graph.WellFormed, Completes, Done;
    if Counts(step) {
      CountApplied(g, s, step);
      CountEdgeSettles(g, s, step.d, CountingClaim(step));
    } else if step.CountOwing? {
      CountOwingApplied(g, s, step.e, step.d, step.t);
      CountEdgeSettles(g, s, step.d, Claim(step.t, step.e, false));
    }
  }

  /** Where new claims come from, and who runs what. */
  lemma ProxyStaysInPlace(plan: Plan, s: State, s': State)
    requires ProxyInPlace(plan, s) && PROXY !in s'.gone
    requires forall d :: d in s'.sent ==> d in s.sent || plan.FansOut(d)
    requires forall d :: d in s'.ranBy ==> (d in s.ranBy && s'.ranBy[d] == s.ranBy[d]) || s'.ranBy[d] != PROXY
    requires forall c :: c in s'.pending && c.exec == PROXY ==>
               (c in s.pending && (c in s'.failed ==> c in s.failed)) || (c.mobile && c !in s'.failed)
    ensures ProxyInPlace(plan, s')
  {
    hide Plan.FansOut;
  }

  lemma QuietProxy(plan: Plan, s: State, step: Step)
    requires plan.g.WellFormed() && ProxyInPlace(plan, s) && Quiet(step) && Enabled(plan.g, s, step) && Follows(plan, s, step)
    ensures ProxyInPlace(plan, Apply(plan.g, s, step))
  {
    hide Graph.WellFormed, Plan.FansOut, HasFailed, AtEnd;
    assert PROXY !in s.gone && PROXY !in Apply(plan.g, s, step).gone;
    ProxyStaysInPlace(plan, s, Apply(plan.g, s, step));
  }

  lemma MoveProxy(plan: Plan, s: State, step: Step)
    requires plan.g.WellFormed() && ProxyInPlace(plan, s) && MovesEdge(step) && Enabled(plan.g, s, step) && s.failed <= s.pending
    ensures ProxyInPlace(plan, Apply(plan.g, s, step))
  {
    MovesOwnEdge(plan.g, s, step);
    EdgeStepMovesOne(plan.g, s, step);
    NewClaimOfMove(plan.g, s, step);
    ProxyCounts(plan, s, step);
    hide Apply, Enabled, Graph.WellFormed, Plan.FansOut;
    ProxyStaysInPlace(plan, s, Apply(plan.g, s, step));
  }

  lemma ProxyCounts(plan: Plan, s: State, step: Step)
    requires plan.g.WellFormed() && ProxyInPlace(plan, s) && MovesEdge(step) && Enabled(plan.g, s, step)
    ensures step.Actor() == PROXY ==> step.ProxyCount?
  {
    MovesOwnEdge(plan.g, s, step);
    hide Apply, Enabled, Graph.WellFormed, Plan.FansOut;
  }

  lemma RunProxy(plan: Plan, s: State, step: Step)
    requires plan.g.WellFormed() && ProxyInPlace(plan, s) && (step.Execute? || step.Invoke?)
    requires Enabled(plan.g, s, step) && Follows(plan, s, step)
    ensures ProxyInPlace(plan, Apply(plan.g, s, step))
  {
    assert s.Used(PROXY);
    var s' := Apply(plan.g, s, step);
    assert s'.sent == s.sent && s'.failed == s.failed && s'.gone == s.gone by { hide Inputs; }
    if step.Execute? { ExecuteChanges(plan.g, s, step.c); }
    assert step.Invoke? ==> step.e' != PROXY && s'.ranBy == s.ranBy;
    assert step.Invoke? ==> s'.pending == s.pending - {step.c} + {Claim(step.c.task, step.e', true)};
    hide Apply, Enabled, Graph.WellFormed, Plan.FansOut, State.Used;
    ProxyStaysInPlace(plan, s, s');
  }

  /** Where new claims come from, and who runs what. */
  lemma StepKeepsProxyInPlace(plan: Plan, s: State, step: Step)
    requires plan.g.WellFormed() && Discipline(plan.g, s) && ProxyInPlace(plan, s)
    requires Enabled(plan.g, s, step) && Follows(plan, s, step)
    ensures ProxyInPlace(plan, Apply(plan.g, s, step))
  {
    assert s.failed <= s.pending;
    hide Discipline, ProxyInPlace, Enabled, Apply, Follows;
    if MovesEdge(step) {
      MoveProxy(plan, s, step);
    } else if Quiet(step) {
      QuietProxy(plan, s, step);
    } else {
      RunProxy(plan, s, step);
    }
  }

  lemma NewClaimOfMove(g: Graph, s: State, step: Step)
    requires g.WellFormed() && Enabled(g, s, step) && MovesEdge(step)
    ensures forall c :: c in Apply(g, s, step).pending && c !in s.pending ==>
              c.exec == step.Actor() && c.task == step.t && (c.mobile <==> step.ProxyCount? || (step.Count? && step.mobile))
  {
    hide Graph.WellFormed, Completes, Done;
    if Counts(step) {
      CountApplied(g, s, step);
      hide Apply, Enabled, CountEdge;
      CountEdgeMovesOne(g, s, step.d, CountingClaim(step));
    } else if step.CountOwing? {
      CountOwingApplied(g, s, step.e, step.d, step.t);
      hide Apply, Enabled, CountEdge;
      CountEdgeMovesOne(g, s, step.d, Claim(step.t, step.e, false));
    } else if Parks(step) {
      ParkApplied(g, s, step);
      hide Apply, Enabled;
    } else if step.Peek? {
      PeekChanges(g, s, step.e, step.d, step.t);
      hide Apply, Enabled;
    }
  }

  lemma StillNothingLeft(plan: Plan, s: State, s': State, e: Exec)
    requires plan.g.WellFormed() && NothingLeft(plan, s, e) && s.store.Keys <= s'.store.Keys
    requires forall c :: c in s'.pending && c !in s.pending ==> c.exec != e
    requires forall d :: s'.Owns(e, d) <==> s.Owns(e, d)
    requires forall d, t :: s'.Phase(d, t).Waiting? ==> s.Phase(d, t).Waiting?
    requires forall edge :: edge in s'.owed && s.Owns(e, edge.src) ==> edge in s.owed
    ensures NothingLeft(plan, s', e)
  {
    hide Graph.WellFormed, Plan.Holdable, Plan.NotOnlyPulledDown, Graph.Downstream;
    assert forall t :: MayBeQueued(plan, s, e, t) ==> MayBeQueued(plan, s', e, t);
    hide MayBeQueued;
  }

  lemma MoveLeavesNothing(plan: Plan, s: State, step: Step, e: Exec)
    requires plan.g.WellFormed() && MovesEdge(step) && Enabled(plan.g, s, step) && e in s.gone && NothingLeft(plan, s, e)
    ensures NothingLeft(plan, Apply(plan.g, s, step), e)
  {
    assert step.Actor() != e;
    hide Apply, Enabled, Graph.WellFormed, NothingLeft;
    EdgeStepMovesOne(plan.g, s, step);
    MoveOwesNothing(plan.g, s, step, e);
    if Parks(step) { ParkedPhases(plan.g, s, step); } else { CountingSettles(plan.g, s, step); }
    StillNothingLeft(plan, s, Apply(plan.g, s, step), e);
  }

  lemma MoveOwesNothing(g: Graph, s: State, step: Step, e: Exec)
    requires g.WellFormed() && MovesEdge(step) && Enabled(g, s, step) && step.Actor() != e
    ensures forall edge :: edge in Apply(g, s, step).owed && s.Owns(e, edge.src) ==> edge in s.owed
  {
    EdgeStepMovesOne(g, s, step);
    MovesOwnEdge(g, s, step);
    if step.ProxyCount? { CountApplied(g, s, step); CountEdgeSettles(g, s, step.d, CountingClaim(step)); }
    hide Apply, Enabled, Graph.WellFormed;
  }

  lemma ParkedPhases(g: Graph, s: State, step: Step)
    requires g.WellFormed() && Parks(step) && Enabled(g, s, step)
    ensures !Apply(g, s, step).Phase(step.d, step.t).Waiting?
  {
    hide Graph.WellFormed;
  }

  lemma RunLeavesNothing(plan: Plan, s: State, step: Step, e: Exec)
    requires plan.g.WellFormed() && (step.Execute? || step.Invoke?) && Enabled(plan.g, s, step) && e in s.gone
    requires NothingLeft(plan, s, e) && Discipline(plan.g, s)
    ensures NothingLeft(plan, Apply(plan.g, s, step), e)
  {
    hide NothingLeft;
    RunChanges(plan.g, s, step, e);
    hide Apply, Enabled, Graph.WellFormed, Discipline;
    assert SameEdges(s, Apply(plan.g, s, step));
    StillNothingLeft(plan, s, Apply(plan.g, s, step), e);
  }

  /** What a step of another does to e, which has ended. */
  ghost predicate LeftAlone(s: State, s': State, e: Exec) {
    && s'.store == s.store && s'.owed == s.owed && s'.phase == s.phase
    && (forall c :: c in s'.pending && c !in s.pending ==> c.exec != e)
    && (forall d: Task :: s'.Owns(e, d) <==> s.Owns(e, d))
  }

  lemma ExecuteLeavesAlone(g: Graph, s: State, c: Claim, e: Exec)
    requires g.WellFormed() && Enabled(g, s, Execute(c)) && e in s.gone && Discipline(g, s)
    ensures LeftAlone(s, Apply(g, s, Execute(c)), e)
  {
    assert c.exec != e;
    ClaimedIsFresh(g, s, c);
    hide Discipline, Graph.WellFormed, Inputs;
  }

  lemma InvokeLeavesAlone(g: Graph, s: State, step: Step, e: Exec)
    requires g.WellFormed() && step.Invoke? && Enabled(g, s, step) && e in s.gone
    ensures LeftAlone(s, Apply(g, s, step), e)
  {
    assert s.Used(e);
    hide Graph.WellFormed;
  }

  lemma RunChanges(g: Graph, s: State, step: Step, e: Exec)
    requires g.WellFormed() && (step.Execute? || step.Invoke?) && Enabled(g, s, step) && e in s.gone && Discipline(g, s)
    ensures LeftAlone(s, Apply(g, s, step), e)
  {
    hide Apply, Enabled, Discipline;
    if step.Execute? { ExecuteLeavesAlone(g, s, step.c, e); } else { InvokeLeavesAlone(g, s, step, e); }
  }

  /** What others do does not bring back anything to do to an executor that has ended. */
  lemma NothingLeftStays(plan: Plan, s: State, step: Step, e: Exec)
    requires plan.g.WellFormed() && Discipline(plan.g, s) && Enabled(plan.g, s, step) && e in s.gone
    requires NothingLeft(plan, s, e)
    ensures NothingLeft(plan, Apply(plan.g, s, step), e)
  {
    hide Discipline, NothingLeft, Apply, Enabled;
    if MovesEdge(step) {
      MoveLeavesNothing(plan, s, step, e);
    } else if Quiet(step) {
      QuietLeavesNothing(plan, s, step, e);
    } else {
      RunLeavesNothing(plan, s, step, e);
    }
  }

  lemma QuietLeavesNothing(plan: Plan, s: State, step: Step, e: Exec)
    requires plan.g.WellFormed() && Quiet(step) && Enabled(plan.g, s, step) && NothingLeft(plan, s, e)
    ensures NothingLeft(plan, Apply(plan.g, s, step), e)
  {
    QuietApplied(plan.g, s, step);
    QuietOwes(plan.g, s, step);
    StepOnlyAdds(plan.g, s, step);
    hide Apply, Enabled, Graph.WellFormed, NothingLeft;
    assert SameEdges(s, Apply(plan.g, s, step));
    StillNothingLeft(plan, s, Apply(plan.g, s, step), e);
  }

  lemma QuietOwes(g: Graph, s: State, step: Step)
    requires g.WellFormed() && Enabled(g, s, step) && Quiet(step)
    ensures Apply(g, s, step).owed.Keys <= s.owed.Keys
  {
    hide Graph.WellFormed;
  }

  lemma StepKeepsEndedInOrder(plan: Plan, s: State, step: Step, e: Exec)
    requires plan.g.WellFormed() && Discipline(plan.g, s) && EndedInOrder(plan, s, e)
    requires Enabled(plan.g, s, step) && Follows(plan, s, step)
    ensures EndedInOrder(plan, Apply(plan.g, s, step), e)
  {
    StepOnlyAdds(plan.g, s, step);
    QuitInOrder(plan, s, step, e);
    FailureLasts(s, Apply(plan.g, s, step), e);
    hide Apply, Enabled, Follows, NothingLeft, Discipline, HasFailed, Graph.WellFormed;
    if e in s.gone && NothingLeft(plan, s, e) {
      NothingLeftStays(plan, s, step, e);
    } else if step.Quit? && NothingLeft(plan, s, e) {
      QuietLeavesNothing(plan, s, step, e);
    }
  }

  lemma FailureLasts(s: State, s': State, e: Exec)
    requires s.failed <= s'.failed
    ensures HasFailed(s, e) ==> HasFailed(s', e)
  {
  }

  lemma QuitInOrder(plan: Plan, s: State, step: Step, e: Exec)
    requires plan.g.WellFormed() && Enabled(plan.g, s, step) && Follows(plan, s, step)
    ensures step == Quit(e) ==> HasFailed(s, e) || NothingLeft(plan, s, e)
  {
    hide HasFailed, FinalsWritten;
  }

  lemma StepKeepsLawInv(plan: Plan, s: State, step: Step)
    requires plan.g.WellFormed() && Discipline(plan.g, s) && LawInv(plan, s)
    requires Enabled(plan.g, s, step) && Follows(plan, s, step)
    ensures LawInv(plan, Apply(plan.g, s, step))
  {
    hide Discipline, Apply, Enabled, Follows, EdgesInPlace, ProxyInPlace;
    StepKeepsEdgesInPlace(plan, s, step);
    StepKeepsProxyInPlace(plan, s, step);
    forall e ensures EndedInOrder(plan, Apply(plan.g, s, step), e) {
      assert EndedInOrder(plan, s, e);
      hide EndedInOrder;
      StepKeepsEndedInOrder(plan, s, step, e);
    }
  }

  lemma {:induction false} LawKeepsInv(plan: Plan, s: State, steps: seq<Step>, s': State)
    requires plan.g.WellFormed() && Inv(plan.g, s) && LawInv(plan, s) && LeadsTo(plan, s, steps, s')
    ensures LawInv(plan, s')
    decreases |steps|
  {
    hide Discipline, Supply, Apply, Enabled, Follows, LawInv;
    if steps != [] {
      StepKeepsInv(plan.g, s, steps[0]);
      StepKeepsLawInv(plan, s, steps[0]);
      LawKeepsInv(plan, Apply(plan.g, s, steps[0]), steps[1..], s');
    }
  }

  lemma InitLawInv(plan: Plan, lambda: map<Task, Exec>)
    requires plan.g.WellFormed() && OwnLambdas(plan, lambda)
    ensures LawInv(plan, Init(plan.g, lambda))
  {
  }

  lemma LawfulLawInv(plan: Plan, s: State)
    requires plan.g.WellFormed() && Lawful(plan, s)
    ensures LawInv(plan, s)
  {
    var lambda: map<Task, Exec> :| OwnLambdas(plan, lambda) && Onwards(plan, Init(plan.g, lambda), s);
    InitLawInv(plan, lambda);
    InitDiscipline(plan.g, lambda);
    InitSupply(plan.g, lambda);
    hide Init, LeadsTo, LawInv, Discipline, Supply;
    var steps :| LeadsTo(plan, Init(plan.g, lambda), steps, s);
    LawKeepsInv(plan, Init(plan.g, lambda), steps, s);
  }
}
