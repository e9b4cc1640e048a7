/** What becomes of the results of final tasks: those that the client waits for. */
module FinalResults {
  import opened Graphs
  import opened Plans
  import opened FanIn
  import opened FanInSafety
  import opened FanInTheorems
  import opened LocalViews
  import opened Conduct
  import opened GivingUp
  import opened LawfulRuns
  import opened Stages
  import opened Completion
  import opened Losses

  /** Whoever ran a task of the graph has ended. */
  ghost predicate AllEnded(plan: Plan, s: State)
    requires plan.g.WellFormed()
  {
    forall t :: t in plan.g.tasks && t in s.ranBy ==> s.ranBy[t] in s.gone
  }

  /** The result of t is in the store, and it is the right one. */
  ghost predicate HasResult(plan: Plan, s: State, t: Task)
    requires plan.g.WellFormed()
  {
    t in plan.g.tasks && t in s.store && s.store[t] == plan.g.Eval(t)
  }

  /** e may have come to t from its delayed queue, or t may have been its current task when it
      came to another from there. */
  ghost predicate QueueInterferes(plan: Plan, s: State, e: Exec, t: Task)
    requires plan.g.WellFormed()
  {
    MayBeQueued(plan, s, e, t) || (plan.NotOnlyPulledDown(t) && exists q :: MayBeQueued(plan, s, e, q))
  }

  /** Whoever has ended without a failure has left the results of its final tasks in the store,
      as far as its delayed queue did not interfere. */
  lemma EndedHasResults(plan: Plan, s: State, e: Exec, t: Task)
    requires plan.g.WellFormed() && Lawful(plan, s) && e in s.gone && !HasFailed(s, e)
    requires s.Owns(e, t) && plan.g.Downstream(t) == {}
    ensures HasResult(plan, s, t) || QueueInterferes(plan, s, e, t)
  {
    hide Lawful, EdgesInPlace, ProxyInPlace, Reachable, HasFailed, MayBeQueued, Plan.NotOnlyPulledDown;
    LawfulLawInv(plan, s);
    assert EndedInOrder(plan, s, e);
    LawfulReachable(plan, s);
    ValuesAreTheMeaning(plan.g, s, t);
  }

  lemma CompleteWithoutFailure(plan: Plan, s: State, e: Exec)
    requires plan.g.WellFormed() && Lawful(plan, s) && AllRanOnce(plan.g, s)
    ensures !HasFailed(s, e)
  {
    hide Lawful;
    LawfulInv(plan, s);
    LostIsNotRun(plan.g, s);
    assert s.failed <= s.pending;
    hide Inv;
    assert forall c :: c in s.failed ==> Dropped(s, c);
  }

  /** At the end of a complete run every final result is in the store, as far as no delayed
      queue interfered. */
  lemma CompleteHasResults(plan: Plan, s: State, t: Task)
    requires plan.g.WellFormed() && Lawful(plan, s) && AllRanOnce(plan.g, s) && AllEnded(plan, s)
    requires t in plan.g.tasks && plan.g.Downstream(t) == {}
    ensures t in s.ranBy && (HasResult(plan, s, t) || QueueInterferes(plan, s, s.ranBy[t], t))
  {
    hide Lawful, HasFailed, HasResult, QueueInterferes;
    if t !in s.ranBy { NotRunYet(plan, s, t); }
    CompleteWithoutFailure(plan, s, s.ranBy[t]);
    EndedHasResults(plan, s, s.ranBy[t], t);
  }

  /** Without the delayed queue, every final result is in the store at the end of a complete run. */
  lemma ResultsWithoutQueue(plan: Plan, s: State)
    requires plan.g.WellFormed() && Lawful(plan, s) && AllRanOnce(plan.g, s) && AllEnded(plan, s)
    requires forall d, t :: plan.g.HasEdge(d, t) ==> !plan.Holdable(d, t)
    ensures forall t :: t in plan.g.tasks && plan.g.Downstream(t) == {} ==> HasResult(plan, s, t)
  {
    hide Lawful, AllRanOnce, AllEnded;
    forall t | t in plan.g.tasks && plan.g.Downstream(t) == {} ensures HasResult(plan, s, t) {
      CompleteHasResults(plan, s, t);
    }
  }

  // ---- A result that is never stored -----------------------------------------

  /** f has been run by an executor that has ended, and nobody has its result to store. */
  ghost predicate Withheld(s: State, f: Task) {
    f in s.ranBy && s.ranBy[f] in s.gone && f !in s.store && f !in s.sent
  }

  lemma StaysWithheld(plan: Plan, s: State, step: Step, f: Task)
    requires plan.g.WellFormed() && Lawful(plan, s) && Withheld(s, f) && Enabled(plan.g, s, step)
    ensures Withheld(Apply(plan.g, s, step), f)
  {
    GoneStays(plan.g, s, step);
    if step.Execute? {
      ClaimedNotRun(plan, s, step.c);
      ExecuteRuns(plan.g, s, step.c);
    } else {
      LawfulDiscipline(plan, s);
      hide Lawful, Discipline;
      RanByStill(plan.g, s, step, f);
      OnlyOwnResults(plan.g, s, step, f);
    }
  }

  /** Only the runner of a task, or the proxy if it was sent its result, puts that into the store. */
  lemma OnlyOwnResults(g: Graph, s: State, step: Step, f: Task)
    requires g.WellFormed() && Enabled(g, s, step) && Withheld(s, f) && !step.Execute?
    ensures f !in Apply(g, s, step).store && f !in Apply(g, s, step).sent
  {
    if MovesEdge(step) { EdgeStepMovesOne(g, s, step); }
    hide Graph.WellFormed, Inputs;
  }

  lemma {:induction false} WithheldForGood(plan: Plan, s: State, steps: seq<Step>, s': State, f: Task)
    requires plan.g.WellFormed() && Lawful(plan, s) && Withheld(s, f) && LeadsTo(plan, s, steps, s')
    ensures f !in s'.store
    decreases |steps|
  {
    hide Lawful, Apply, Enabled, Follows;
    if steps != [] {
      StaysWithheld(plan, s, steps[0], f);
      LawfulStep(plan, s, steps[0]);
      hide Withheld;
      WithheldForGood(plan, Apply(plan.g, s, steps[0]), steps[1..], s', f);
    }
  }

  /** Some lawful run without a failure executes the final task f and ends its executor, and its
      result is never stored, whatever happens. */
  ghost predicate CanWithhold(plan: Plan, f: Task)
    requires plan.g.WellFormed()
  {
    plan.g.Downstream(f) == {} &&
    exists s ::
      && Lawful(plan, s) && f in s.ranBy && s.ranBy[f] in s.gone && s.failed == {}
      && forall s' :: Onwards(plan, s, s') ==> f !in s'.store
  }

  /** x is a big leaf and z a small one, and the final task f needs these two; x -> f is put into
      the delayed queue. */
  ghost predicate FinalInQueue(plan: Plan, x: Task, z: Task, f: Task)
    requires plan.g.WellFormed()
  {
    && x in plan.big && z !in plan.big && z != x && !plan.useBits && plan.Holdable(x, f)
    && x in plan.g.tasks && plan.g.deps[x] == {} && plan.g.Downstream(x) == {f}
    && z in plan.g.tasks && plan.g.deps[z] == {} && plan.g.Downstream(z) == {f}
    && plan.g.HasEdge(x, f) && plan.g.deps[f] == {x, z} && plan.g.Downstream(f) == {}
  }

  /** x's executor has put x -> f into its queue, and z is claimed by another ... */
  lemma QueueIt(plan: Plan, x: Task, z: Task, f: Task) returns (s: State, e: Exec, c': Claim)
    requires plan.g.WellFormed() && FinalInQueue(plan, x, z, f)
    ensures Smooth(plan, s) && s.ranBy == map[x := e] && e != PROXY && c' in s.pending && c'.task == z
    ensures forall c :: c in s.pending ==> c.exec != e && c.exec != PROXY && (c != c' ==> c.exec != c'.exec)
    ensures s.Phase(x, f).Held? && s.Phase(z, f).Waiting?
  {
    var s0 := Start(plan);
    var c := LeafClaim(plan, s0, x);
    c' := LeafClaim(plan, s0, z);
    e := c.exec;
    hide Lawful;
    var s1 := RunTask(plan, s0, c);
    assert NoClaims(s1, e) && s1.Phase(x, f).Waiting? && s1.Phase(z, f).Waiting?;
    hide RanTask, Leaves;
    s := HoldIt(plan, s1, x, f);
  }

  /** ... which has run it ... */
  lemma RunOther(plan: Plan, x: Task, z: Task, f: Task) returns (s: State, e: Exec, e': Exec)
    requires plan.g.WellFormed() && FinalInQueue(plan, x, z, f)
    ensures Smooth(plan, s) && s.ranBy == map[x := e, z := e'] && e != e' && e != PROXY && e' != PROXY
    ensures forall c :: c in s.pending ==> c.exec != e && c.exec != e'
    ensures s.Phase(x, f).Held? && s.Phase(z, f).Waiting?
  {
    var s1, c';
    s1, e, c' := QueueIt(plan, x, z, f);
    e' := c'.exec;
    hide Lawful, FinalInQueue;
    assert plan.g.deps[z] == {} && z in plan.g.tasks && z != x by { LeavesOfShape(plan, x, z, f); }
    s := RunTask(plan, s1, c');
  }

  lemma LeavesOfShape(plan: Plan, x: Task, z: Task, f: Task)
    requires plan.g.WellFormed() && FinalInQueue(plan, x, z, f)
    ensures plan.g.deps[z] == {} && z in plan.g.tasks && z != x
  {
  }

  /** ... and has stored its value and counted z -> f ... */
  lemma CountOther(plan: Plan, x: Task, z: Task, f: Task) returns (s: State, e: Exec, e': Exec)
    requires plan.g.WellFormed() && FinalInQueue(plan, x, z, f)
    ensures Smooth(plan, s) && s.ranBy == map[x := e, z := e'] && e != e' && e != PROXY
    ensures forall c :: c in s.pending ==> c.exec != e
    ensures s.Phase(x, f).Held? && s.Phase(z, f).Settled? && z in s.store
  {
    var s1, s2;
    s1, e, e' := RunOther(plan, x, z, f);
    hide Lawful, CountEdge;
    s2 := Publish(plan, s1, z);
    assert SameEdges(s1, s2);
    s := CountStored(plan, s2, z, f);
    NotTheLast(plan.g, s2, z, ClaimFrom(plan, s2, z, f), x);
  }

  /** ... and then x's executor takes x -> f from its queue and runs f. */
  lemma RunFromQueue(plan: Plan, x: Task, z: Task, f: Task) returns (s: State, e: Exec, e': Exec)
    requires plan.g.WellFormed() && FinalInQueue(plan, x, z, f)
    ensures Smooth(plan, s) && s.ranBy == map[x := e, z := e', f := e] && e != e' && e != PROXY
    ensures forall c :: c in s.pending ==> c.exec != e
    ensures s.Phase(x, f).Taken? && f !in s.store && f !in s.sent
  {
    var s1, s2;
    s1, e, e' := CountOther(plan, x, z, f);
    assert Done(plan.g, s1, f) == {z} && plan.g.deps[f] - {x} == {z};
    assert f != x && f != z;
    hide Lawful;
    NotRunYet(plan, s1, f);
    RunnerHas(plan, s1, x, f);
    NoResultYet(plan, s1, f);
    s2 := PeekLast(plan, s1, x, f);
    s := RunTask(plan, s2, Claim(f, e, false));
  }

  lemma NoResultYet(plan: Plan, s: State, f: Task)
    requires plan.g.WellFormed() && Lawful(plan, s) && f !in s.ranBy
    ensures f !in s.store && f !in s.sent
  {
    hide Lawful, Discipline, WithinReach, ValuesRight;
    LawfulInv(plan, s);
    assert Supply(plan.g, s);
    NoValueYet(plan.g, s, f);
  }

  lemma NoValueYet(g: Graph, s: State, f: Task)
    requires g.WellFormed() && ValuesRight(g, s) && f !in s.ranBy
    ensures f !in s.store && f !in s.sent
  {
    assert StoreRight(g, s, f) && SentRight(g, s, f);
  }

  /** A final task that is run from the delayed queue is not stored, and then it never is. */
  lemma QueuedResultIsLost(plan: Plan, x: Task, z: Task, f: Task)
    requires plan.g.WellFormed() && FinalInQueue(plan, x, z, f)
    ensures CanWithhold(plan, f)
  {
    var s0, e, e' := RunFromQueue(plan, x, z, f);
    hide Lawful, Onwards;
    EndsAfterQueue(plan, s0, e, e', x, z, f);
    assert s0.Owns(e, x) && s0.Used(e);
    var s := QuitNow(plan, s0, e);
    forall s' | Onwards(plan, s, s') ensures f !in s'.store { WithheldSince(plan, s, s', f); }
  }

  lemma WithheldSince(plan: Plan, s: State, s': State, f: Task)
    requires plan.g.WellFormed() && Lawful(plan, s) && Withheld(s, f) && Onwards(plan, s, s')
    ensures f !in s'.store
  {
    hide Lawful, LeadsTo;
    var steps :| LeadsTo(plan, s, steps, s');
    WithheldForGood(plan, s, steps, s', f);
  }

  lemma EndsAfterQueue(plan: Plan, s: State, e: Exec, e': Exec, x: Task, z: Task, f: Task)
    requires plan.g.WellFormed() && FinalInQueue(plan, x, z, f) && e != e'
    requires s.ranBy == map[x := e, z := e', f := e] && s.owed == map[] && s.Phase(x, f).Taken?
    requires forall c :: c in s.pending ==> c.exec != e
    ensures AtEnd(plan, s, e)
  {
    forall y, b | plan.g.HasEdge(y, b) && s.Owns(e, y) ensures s.Phase(y, b).Taken? {
      assert b in plan.g.Downstream(y);
    }
    assert MayBeQueued(plan, s, e, f);
    assert f in plan.g.Downstream(x);
    assert FinalsWritten(plan, s, e);
  }
}
