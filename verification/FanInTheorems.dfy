/** What the fan-in protocol promises about every run, whatever the interleaving and
    whichever mix of peeking, counting, holding and giving up the executors use. */
module FanInTheorems {
  import opened Graphs
  import opened FanIn
  import opened FanInSafety
  import opened LocalViews

  /** Nothing is left to do: no claim waits to be executed, and every out-edge of every
      task that ran was counted or taken. */
  ghost predicate Quiescent(g: Graph, s: State)
    requires g.WellFormed()
  {
    && s.pending == {}
    && (forall d, t :: g.HasEdge(d, t) && d in s.ranBy ==> s.Phase(d, t).Settled? || s.Phase(d, t).Taken?)
  }

  /** What is claimed has had its in-edges counted, or one of them taken. */
  lemma RanMeansCounted(g: Graph, s: State, d: Task, t: Task)
    requires g.WellFormed() && Inv(g, s) && g.HasEdge(d, t) && s.Claims(t) > 0
    ensures s.Phase(d, t).Settled? || s.Phase(d, t).Taken?
  {
    hide Supply;
    assert s.Claims(t) == Due(g, s, t);
    if !AllSettled(g, s, t) {
      var d' :| d' in g.deps[t] && s.Phase(d', t).Taken?;
      assert g.HasEdge(d', t);
    }
  }

  /** What is above a claimed task has run. */
  lemma {:induction false} AboveRan(g: Graph, s: State, x: Task, t: Task)
    requires g.WellFormed() && Inv(g, s) && g.Above(x, t) && s.Claims(t) > 0
    ensures x in s.ranBy && s.Claims(x) > 0
    decreases g.level[t]
  {
    forall y | y in g.deps[t] ensures y in s.ranBy && s.Claims(y) > 0 {
      assert g.HasEdge(y, t);
      RanMeansCounted(g, s, y, t);
      hide Supply, TakenIsLast, ClaimedWhenDue, PendingOnce;
    }
    if x !in g.deps[t] {
      var y :| y in g.deps[t] && g.Above(x, y);
      AboveRan(g, s, x, y);
    }
  }

  /** At most once, and never early. */
  lemma ClaimedOnceNeverEarly(g: Graph, s: State, t: Task)
    requires g.WellFormed() && Reachable(g, s) && t in g.tasks
    ensures s.Runs(t) <= s.Claims(t) <= 1
    ensures s.Claims(t) == 1 ==> forall d :: d in g.deps[t] ==> s.Runs(d) == 1
  {
    ReachableInv(g, s);
    hide Supply;
    if s.Claims(t) == 1 {
      forall d | d in g.deps[t] ensures s.Runs(d) == 1 {
        if SomeTaken(g, s, t) {
          var d' :| d' in g.deps[t] && s.Phase(d', t).Taken?;
          assert d' == d || s.Phase(d, t).Settled?;
        }
        assert g.HasEdge(d, t) && d in s.ranBy;
        assert s.Claims(d) == Due(g, s, d);
      }
    }
  }

  /** A run that ends with nothing left to do has executed every task exactly once. */
  lemma {:induction false} CompleteRun(g: Graph, s: State, t: Task)
    requires g.WellFormed() && Reachable(g, s) && Quiescent(g, s) && t in g.tasks
    ensures s.Runs(t) == 1
    decreases g.level[t]
  {
    forall d | d in g.deps[t] ensures s.Phase(d, t).Settled? || s.Phase(d, t).Taken? {
      CompleteRun(g, s, d);
      ReachableInv(g, s);
      assert g.HasEdge(d, t);
    }
    ReachableInv(g, s);
    hide Supply;
    assert AllSettled(g, s, t) || SomeTaken(g, s, t);
    assert s.Claims(t) == 1 && !HasPending(s, t);
    ClaimedOnceNeverEarly(g, s, t);
  }

  /** Every run computes the graph's meaning. */
  lemma ValuesAreTheMeaning(g: Graph, s: State, t: Task)
    requires g.WellFormed() && Reachable(g, s)
    ensures t in s.store ==> t in g.tasks && s.Runs(t) == 1 && s.store[t] == g.Eval(t)
    ensures forall e: Exec :: t in s.Cached(e) ==> t in g.tasks && s.Runs(t) == 1 && s.Cached(e)[t] == g.Eval(t)
  {
    ReachableInv(g, s);
    assert StoreRight(g, s, t);
    forall e: Exec | t in s.Cached(e) ensures Right(g, s, t, s.Cached(e)[t]) {
      assert CacheRight(g, s, e, t);
    }
    if t in g.tasks { ClaimedOnceNeverEarly(g, s, t); }
  }

  ghost predicate InReach(s: State, c: Claim, d: Task) {
    d in s.store || d in s.Cached(c.exec)
  }

  /** A claimed task can read its input d unless d's edge was counted before d's value was
      stored: the write is owed, or left to the proxy.  Whoever gets a mobile claim does not
      have to rely on a cache. */
  lemma InputsWithinReach(g: Graph, s: State, c: Claim, d: Task)
    requires g.WellFormed() && Reachable(g, s) && c in s.pending && g.HasEdge(d, c.task)
    ensures InReach(s, c, d) || Edge(d, c.task) in s.owed || d in s.sent
    ensures c.mobile ==> d in s.store || Edge(d, c.task) in s.owed || d in s.sent
  {
    hide Reachable, Discipline, ValuesRight;
    ReachableInv(g, s);
    assert Supplied(g, s, c, d);
  }

  // ---- Without late counts, inputs are always within reach --------------------

  /** The step counts d -> t before d's value need be stored: its executor gives up waiting, or
      leaves the value to the proxy. */
  predicate CountsLate(step: Step, d: Task, t: Task) {
    (step.CountOwing? || step.CountSent?) && step.d == d && step.t == t
  }

  ghost predicate Backs(s: State, c: Claim, d: Task) {
    d in s.store || (!c.mobile && d in s.Cached(c.exec))
  }

  /** Whoever claims t, or has claimed it, finds d's value. */
  ghost predicate Backed(g: Graph, s: State, d: Task, t: Task)
    requires g.WellFormed()
  {
    && (s.Phase(d, t).Settled? && s.Claims(t) == 0 ==> d in s.store)
    && (forall c :: c in s.pending && c.task == t ==> Backs(s, c, d))
  }

  /** Nothing but the caches has changed for t, and d's value is still where it was. */
  lemma StillBacked(g: Graph, s: State, s': State, d: Task, t: Task)
    requires g.WellFormed() && Backed(g, s, d, t) && s.store.Keys <= s'.store.Keys
    requires forall c :: c in s'.pending && c.task == t ==> c in s.pending || Backs(s', c, d)
    requires forall c :: c in s.pending && c.task == t && d in s.Cached(c.exec) ==> d in s'.Cached(c.exec)
    requires s'.Phase(d, t).Settled? && s'.Claims(t) == 0 ==> d in s'.store || (s.Phase(d, t).Settled? && s.Claims(t) == 0)
    ensures Backed(g, s', d, t)
  {
  }

  lemma CountEdgeClaims(g: Graph, s: State, y: Task, c: Claim, t: Task)
    requires g.WellFormed() && c.task in g.tasks
    ensures CountEdge(g, s, y, c).Claims(t) == s.Claims(t) + if c.task == t && Completes(g, s, y, c.task) then 1 else 0
  {
    hide Completes, SetPhase, AddClaim, Graph.WellFormed, State.Claims;
    SetPhaseMoves(s, y, c.task, Settled);
    AddClaimCounts(SetPhase(s, y, c.task, Settled), c, t);
    SameCounts(s, SetPhase(s, y, c.task, Settled), t);
  }

  lemma AddClaimCounts(s: State, c: Claim, t: Task)
    ensures AddClaim(s, c).Claims(t) == s.Claims(t) + if c.task == t then 1 else 0
  {
  }

  lemma SameCounts(s: State, s': State, t: Task)
    requires s'.claimCount == s.claimCount
    ensures s'.Claims(t) == s.Claims(t)
  {
  }

  lemma CountKeepsBacked(g: Graph, s: State, s': State, y: Task, c: Claim, d: Task, t: Task)
    requires g.WellFormed() && Discipline(g, s) && Backed(g, s, d, t) && g.HasEdge(d, t) && g.HasEdge(y, c.task)
    requires !s.Phase(y, c.task).Settled? && !s.Phase(y, c.task).Taken?
    requires y == d && c.task == t ==> d in s.store
    requires s' == CountEdge(g, s, y, c).(owed := s'.owed)
    ensures Backed(g, s', d, t)
  {
    hide Discipline, Backed, CountEdge, Completes;
    CountEdgeMovesOne(g, s, y, c);
    CountEdgeClaims(g, s, y, c, t);
    NotDueYet(g, s, y, c.task);
    if c.task == t && Completes(g, s, y, t) {
      OthersSettled(g, s, y, t);
      BackedWhenSettled(g, s, d, t);
    }
    hide Graph.WellFormed;
    StillBacked(g, s, s', d, t);
  }

  lemma BackedWhenSettled(g: Graph, s: State, d: Task, t: Task)
    requires g.WellFormed() && Backed(g, s, d, t)
    ensures s.Phase(d, t).Settled? && s.Claims(t) == 0 ==> d in s.store
  {
  }

  lemma PeekKeepsBacked(g: Graph, s: State, step: Step, d: Task, t: Task)
    requires g.WellFormed() && Inv(g, s) && step.Peek? && Enabled(g, s, step)
    requires Backed(g, s, d, t) && g.HasEdge(d, t)
    ensures Backed(g, Apply(g, s, step), d, t)
  {
    hide Discipline, WithinReach, ValuesRight, Apply, Done;
    StillCached(g, s, step.e, step.d, step.t);
    OthersSettled(g, s, step.d, step.t);
    PeekApplied(g, s, step.e, step.d, step.t);
    PeekTakes(g, s, step);
    hide Enabled;
    StillBacked(g, s, Apply(g, s, step), d, t);
  }

  lemma PeekTakes(g: Graph, s: State, step: Step)
    requires g.WellFormed() && step.Peek? && Enabled(g, s, step)
    ensures Apply(g, s, step).Phase(step.d, step.t).Taken?
  {
    hide Done;
  }

  lemma QuietKeepsBacked(g: Graph, s: State, step: Step, d: Task, t: Task)
    requires g.WellFormed() && Inv(g, s) && Quiet(step) && Enabled(g, s, step)
    requires Backed(g, s, d, t) && g.HasEdge(d, t)
    ensures Backed(g, Apply(g, s, step), d, t)
  {
    hide Inv, Backed;
    QuietApplied(g, s, step);
    if step.Evict? {
      EvictChanges(g, s, step);
      if step.d == d { EvictableIsUnneeded(g, s, step.e, d, t); }
    }
    hide Apply, Enabled, Graph.WellFormed;
    assert SameEdges(s, Apply(g, s, step));
    StillBacked(g, s, Apply(g, s, step), d, t);
  }

  lemma EvictChanges(g: Graph, s: State, step: Step)
    requires g.WellFormed() && step.Evict? && Enabled(g, s, step)
    ensures var s' := Apply(g, s, step);
            s'.store == s.store && forall e: Exec, x: Task :: x in s.Cached(e) && x != step.d ==> x in s'.Cached(e)
  {
    hide Graph.WellFormed;
  }

  lemma RunKeepsBacked(g: Graph, s: State, step: Step, d: Task, t: Task)
    requires g.WellFormed() && Discipline(g, s) && (step.Execute? || step.Invoke?) && Enabled(g, s, step)
    requires Backed(g, s, d, t) && g.HasEdge(d, t)
    ensures Backed(g, Apply(g, s, step), d, t)
  {
    hide Discipline, Inputs, Graph.WellFormed;
    assert step.Invoke? ==> forall c :: c in s.pending ==> c.exec != step.e';
    StillBacked(g, s, Apply(g, s, step), d, t);
  }

  lemma MoveKeepsBacked(g: Graph, s: State, step: Step, d: Task, t: Task)
    requires g.WellFormed() && Inv(g, s) && MovesEdge(step) && Enabled(g, s, step)
    requires Backed(g, s, d, t) && g.HasEdge(d, t) && !CountsLate(step, d, t)
    ensures Backed(g, Apply(g, s, step), d, t)
  {
    hide WithinReach, ValuesRight, Apply, Backed, Discipline;
    if Counts(step) {
      CountApplied(g, s, step);
      CountKeepsBacked(g, s, Apply(g, s, step), step.d, CountingClaim(step), d, t);
    } else if step.CountOwing? {
      CountOwingApplied(g, s, step.e, step.d, step.t);
      CountKeepsBacked(g, s, Apply(g, s, step), step.d, Claim(step.t, step.e, false), d, t);
    } else if step.Peek? {
      PeekKeepsBacked(g, s, step, d, t);
    } else {
      QuietMoveKeepsBacked(g, s, step, d, t);
    }
  }

  lemma QuietMoveKeepsBacked(g: Graph, s: State, step: Step, d: Task, t: Task)
    requires g.WellFormed() && Discipline(g, s) && (Parks(step) || step.Bookkeep?) && Enabled(g, s, step)
    requires Backed(g, s, d, t) && g.HasEdge(d, t)
    ensures Backed(g, Apply(g, s, step), d, t)
  {
    hide Discipline, Backed;
    EdgeStepMovesOne(g, s, step);
    if step.Bookkeep? { TakenIsClaimed(g, s, step.d, step.t); } else { ParkApplied(g, s, step); }
    QuietMoveClaims(g, s, step);
    hide Apply, Enabled, Graph.WellFormed;
    StillBacked(g, s, Apply(g, s, step), d, t);
  }

  lemma TakenIsClaimed(g: Graph, s: State, d: Task, t: Task)
    requires g.WellFormed() && Discipline(g, s) && g.HasEdge(d, t) && s.Phase(d, t).Taken?
    ensures s.Claims(t) > 0
  {
    assert SomeTaken(g, s, t);
  }

  lemma QuietMoveClaims(g: Graph, s: State, step: Step)
    requires g.WellFormed() && (Parks(step) || step.Bookkeep?) && Enabled(g, s, step)
    ensures var s' := Apply(g, s, step);
            && s'.pending == s.pending && s'.claimCount == s.claimCount
            && (Parks(step) ==> !s'.Phase(step.d, step.t).Settled?)
  {
    hide Graph.WellFormed;
  }

  lemma StepKeepsBacked(g: Graph, s: State, step: Step, d: Task, t: Task)
    requires g.WellFormed() && Inv(g, s) && Enabled(g, s, step)
    requires Backed(g, s, d, t) && g.HasEdge(d, t) && !CountsLate(step, d, t)
    ensures Backed(g, Apply(g, s, step), d, t)
  {
    hide Discipline, WithinReach, ValuesRight, Apply, Enabled, Backed;
    if MovesEdge(step) {
      MoveKeepsBacked(g, s, step, d, t);
    } else if Quiet(step) {
      QuietKeepsBacked(g, s, step, d, t);
    } else {
      RunKeepsBacked(g, s, step, d, t);
    }
  }

  lemma {:induction false} RunStaysBacked(g: Graph, s: State, steps: seq<Step>, d: Task, t: Task)
    requires g.WellFormed() && Inv(g, s) && CanRun(g, s, steps)
    requires Backed(g, s, d, t) && g.HasEdge(d, t) && forall step :: step in steps ==> !CountsLate(step, d, t)
    ensures Backed(g, RunFrom(g, s, steps), d, t)
    decreases |steps|
  {
    hide Inv, Apply, Enabled, Backed;
    if steps != [] {
      StepKeepsInv(g, s, steps[0]);
      StepKeepsBacked(g, s, steps[0], d, t);
      RunStaysBacked(g, Apply(g, s, steps[0]), steps[1..], d, t);
    }
  }

  /** In every run in which d -> t was not counted late, whoever has claimed t and has not run it
      finds d's value in the store or its own cache, and a mobile claim always in the store.
      Where nobody ever gives up or leaves a value to the proxy, this holds of every input. */
  lemma InputsAlwaysInReach(g: Graph, lambda: map<Task, Exec>, steps: seq<Step>, c: Claim, d: Task)
    requires g.WellFormed() && g.tasks <= lambda.Keys && CanRun(g, Init(g, lambda), steps)
    requires c in RunFrom(g, Init(g, lambda), steps).pending && g.HasEdge(d, c.task)
    requires forall step :: step in steps ==> !CountsLate(step, d, c.task)
    ensures InReach(RunFrom(g, Init(g, lambda), steps), c, d)
    ensures c.mobile ==> d in RunFrom(g, Init(g, lambda), steps).store
  {
    InitDiscipline(g, lambda);
    InitSupply(g, lambda);
    assert Backed(g, Init(g, lambda), d, c.task);
    hide Discipline, Supply, Init, CanRun, RunFrom;
    RunStaysBacked(g, Init(g, lambda), steps, d, c.task);
  }
}
