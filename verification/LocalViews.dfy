/** What one executor knows of the protocol state, what its own steps do to that, and
    that steps of other processes leave it alone. */
module LocalViews {
  import opened Graphs
  import opened FanIn
  import opened FanInSafety

  datatype Local = Local(
    claims: map<Task, bool>,        // tasks it was told to run and still can run; may it hand them on?
    waiting: set<Edge>,             // out-edges of its tasks it has not dealt with
    held: map<Edge, Value>,         // out-edges in its delayed queue
    taken: set<Edge>,               // out-edges it took by a peek and did not count
    ran: set<Task>,                 // tasks it ran
    cache: map<Task, Value>,        // its previous_results
    owing: set<Edge>,               // edges it gave up and whose value it has to write
    givingUp: bool)                 // is it giving up on its queue?

  ghost function TargetsOf(s: State, e: Exec): set<Task> { set c | c in s.pending && c !in s.failed && c.exec == e :: c.task }

  ghost function ClaimsOf(s: State, e: Exec): map<Task, bool> {
    map t | t in TargetsOf(s, e) :: Claim(t, e, true) in s.pending
  }

  ghost function RanOf(s: State, e: Exec): set<Task> { set d | d in s.ranBy && s.Owns(e, d) }

  ghost function WaitingOf(g: Graph, s: State, e: Exec): set<Edge>
    requires g.WellFormed()
  {
    set edge | edge in g.Edges() && s.Owns(e, edge.src) && s.Phase(edge.src, edge.dst).Waiting?
  }

  ghost function HeldOf(g: Graph, s: State, e: Exec): map<Edge, Value>
    requires g.WellFormed()
  {
    map edge | edge in g.Edges() && s.Owns(e, edge.src) && s.Phase(edge.src, edge.dst).Held? ::
      s.Phase(edge.src, edge.dst).held
  }

  ghost function TakenOf(g: Graph, s: State, e: Exec): set<Edge>
    requires g.WellFormed()
  {
    set edge | edge in g.Edges() && s.Owns(e, edge.src) && s.Phase(edge.src, edge.dst).Taken?
  }

  ghost function OwingOf(s: State, e: Exec): set<Edge> { set edge | edge in s.owed && s.Owns(e, edge.src) }

  ghost function View(g: Graph, s: State, e: Exec): Local
    requires g.WellFormed()
  {
    Local(ClaimsOf(s, e), WaitingOf(g, s, e), HeldOf(g, s, e), TakenOf(g, s, e), RanOf(s, e), s.Cached(e), OwingOf(s, e), e in s.givingUp)
  }

  /** The edge has been counted, and its target claimed or not. */
  ghost function Counted(v: Local, edge: Edge, claimed: map<Task, bool>): Local {
    v.(waiting := v.waiting - {edge}, held := v.held - {edge}, claims := v.claims + claimed)
  }

  function Granted(won: bool, t: Task, mobile: bool): map<Task, bool> {
    if won then map[t := mobile] else map[]
  }

  /** The edge's target has been claimed by a peek. */
  ghost function Took(v: Local, edge: Edge): Local {
    v.(waiting := v.waiting - {edge}, held := v.held - {edge}, taken := v.taken + {edge}, claims := v.claims[edge.dst := false])
  }

  /** The task has been run, with this result. */
  ghost function Ran(g: Graph, v: Local, t: Task, value: Value): Local
    requires g.WellFormed()
  {
    v.(claims := v.claims - {t}, waiting := v.waiting + g.OutEdges(t), ran := v.ran + {t},
       cache := v.cache[t := value])
  }

  /** Tasks that nobody has run yet. */
  ghost function Unrun(g: Graph, s: State): set<Task> {
    set t | t in g.tasks && s.Runs(t) == 0
  }

  // ---- Steps of others -------------------------------------------------------

  /** Progress that never goes back: s' is reached from s, runs and writes stay. */
  ghost predicate Onward(g: Graph, e: Exec, s: State, s': State)
    requires g.WellFormed()
  {
    && Reaches(g, s, s')
    && Unrun(g, s') <= Unrun(g, s)
    && NothingLost(s, s')
    && (s.Active(e) ==> s'.Active(e))
  }

  /** Everything e relies on while other processes take steps. */
  ghost predicate Undisturbed(g: Graph, e: Exec, s: State, s': State)
    requires g.WellFormed()
  {
    View(g, s', e) == View(g, s, e) && Onward(g, e, s, s')
  }

  lemma StandingStill(g: Graph, e: Exec, s: State)
    requires g.WellFormed()
    ensures Undisturbed(g, e, s, s)
  {
    ReachesItself(g, s);
  }

  lemma OnwardCompose(g: Graph, e: Exec, s: State, s': State, s'': State)
    requires g.WellFormed() && Onward(g, e, s, s') && Onward(g, e, s', s'')
    ensures Onward(g, e, s, s'')
  {
    hide Reaches, Unrun;
    ReachesCompose(g, s, s', s'');
  }

  /** e's claims, and which of them failed, are the same. */
  ghost predicate OwnClaimsSame(s: State, s': State, e: Exec) {
    forall c: Claim :: c.exec == e ==>
      && (c in s.pending <==> c in s'.pending)
      && (c in s.pending && c !in s.failed <==> c in s'.pending && c !in s'.failed)
  }

  lemma SameClaims(s: State, s': State, e: Exec)
    requires OwnClaimsSame(s, s', e)
    ensures ClaimsOf(s', e) == ClaimsOf(s, e)
  {
    assert TargetsOf(s', e) == TargetsOf(s, e);
  }

  lemma ClaimAdded(s: State, s': State, c: Claim)
    requires s'.pending == s.pending + {c} && !HasPending(s, c.task) && s'.failed == s.failed <= s.pending
    ensures ClaimsOf(s', c.exec) == ClaimsOf(s, c.exec)[c.task := c.mobile] && c.task !in ClaimsOf(s, c.exec)
  {
    assert TargetsOf(s', c.exec) == TargetsOf(s, c.exec) + {c.task};
  }

  lemma ClaimRemoved(g: Graph, s: State, s': State, c: Claim)
    requires g.WellFormed() && Discipline(g, s) && c in s.pending
    requires forall c': Claim :: c'.exec == c.exec ==>
               (c' in s'.pending && c' !in s'.failed <==> c' in s.pending && c' !in s.failed && c' != c)
    requires forall c': Claim :: c'.exec == c.exec && c' != c ==> (c' in s'.pending <==> c' in s.pending)
    ensures ClaimsOf(s', c.exec) == ClaimsOf(s, c.exec) - {c.task}
  {
    hide EdgesFollowRuns, TakenIsLast, ClaimedWhenDue, RunsWithinClaims;
    assert TargetsOf(s', c.exec) == TargetsOf(s, c.exec) - {c.task};
  }

  /** Every edge of e is as it was, or went from the proxy to counted. */
  ghost predicate OwnEdgesSame(g: Graph, s: State, s': State, e: Exec)
    requires g.WellFormed()
  {
    forall edge :: edge in g.Edges() && s.Owns(e, edge.src) ==>
      s'.Phase(edge.src, edge.dst) == s.Phase(edge.src, edge.dst)
      || (s.Phase(edge.src, edge.dst).Proxied? && s'.Phase(edge.src, edge.dst).Settled?)
  }

  lemma SameWaiting(g: Graph, s: State, s': State, e: Exec)
    requires g.WellFormed() && OwnEdgesSame(g, s, s', e) && forall d: Task :: s.Owns(e, d) <==> s'.Owns(e, d)
    ensures WaitingOf(g, s', e) == WaitingOf(g, s, e) && TakenOf(g, s', e) == TakenOf(g, s, e)
  {
    hide State.Owns, Graph.Edges;
  }

  lemma SameHeld(g: Graph, s: State, s': State, e: Exec)
    requires g.WellFormed() && OwnEdgesSame(g, s, s', e) && forall d: Task :: s.Owns(e, d) <==> s'.Owns(e, d)
    ensures HeldOf(g, s', e) == HeldOf(g, s, e)
  {
    hide State.Owns, Graph.Edges;
  }

  /** Nobody but e adds to what e owes, or pays it. */
  ghost predicate OwnOwingSame(s: State, s': State, e: Exec) {
    forall edge: Edge :: s.Owns(e, edge.src) ==> (edge in s'.owed <==> edge in s.owed)
  }

  lemma SameView(g: Graph, s: State, s': State, e: Exec)
    requires g.WellFormed()
    requires OwnClaimsSame(s, s', e) && OwnOwingSame(s, s', e)
    requires forall d: Task :: s.Owns(e, d) <==> s'.Owns(e, d)
    requires OwnEdgesSame(g, s, s', e) && s'.Cached(e) == s.Cached(e) && (e in s'.givingUp <==> e in s.givingUp)
    ensures View(g, s', e) == View(g, s, e)
  {
    assert OwingOf(s', e) == OwingOf(s, e);
    hide OwnEdgesSame, WaitingOf, HeldOf, TakenOf, ClaimsOf, OwingOf, OwnOwingSame, OwnClaimsSame, Graph.Edges;
    SameClaims(s, s', e);
    SameWaiting(g, s, s', e);
    SameHeld(g, s, s', e);
    assert RanOf(s', e) == RanOf(s, e);
  }

  /** The steps that move one edge, and at most claim its target for their actor. */
  predicate MovesEdge(step: Step) {
    Counts(step) || step.CountOwing? || step.Peek? || step.Bookkeep? || Parks(step)
  }

  function MovedEdge(step: Step): Edge
    requires MovesEdge(step)
  {
    Edge(step.d, step.t)
  }

  ghost predicate OneEdgeMoved(s: State, s': State, edge: Edge, p: Exec) {
    && OnlyEdge(s, s', edge.src, edge.dst)
    && s'.store == s.store && s'.cache == s.cache && s'.ranBy == s.ranBy && s'.runCount == s.runCount
    && s.pending <= s'.pending && s.owed.Keys <= s'.owed.Keys <= s.owed.Keys + {edge}
    && s'.sent == s.sent && s'.failed == s.failed && s'.gone == s.gone && s'.givingUp == s.givingUp
    && (forall c :: c in s'.pending && c !in s.pending ==> c.exec == p)
  }

  lemma CountEdgeMovesOne(g: Graph, s: State, d: Task, c: Claim)
    requires g.WellFormed() && c.task in g.tasks
    ensures OneEdgeMoved(s, CountEdge(g, s, d, c), Edge(d, c.task), c.exec)
    ensures CountEdge(g, s, d, c).Phase(d, c.task).Settled?
    ensures CountEdge(g, s, d, c).pending == s.pending + if Completes(g, s, d, c.task) then {c} else {}
  {
    hide Completes, SetPhase;
    SetPhaseMoves(s, d, c.task, Settled);
  }

  lemma EdgeStepMovesOne(g: Graph, s: State, step: Step)
    requires g.WellFormed() && MovesEdge(step) && Enabled(g, s, step)
    ensures OneEdgeMoved(s, Apply(g, s, step), MovedEdge(step), step.Actor())
    ensures step.ProxyCount? ==> Apply(g, s, step).Phase(step.d, step.t).Settled?
  {
    hide Completes, Done, CountEdge, SetPhase;
    if Counts(step) {
      CountApplied(g, s, step);
      hide Apply, Enabled;
      CountEdgeMovesOne(g, s, step.d, CountingClaim(step));
    } else if Parks(step) {
      ParkApplied(g, s, step);
      hide Apply, Enabled;
      SetPhaseMoves(s, step.d, step.t, ParkedPhase(s, step));
    } else if step.CountOwing? {
      CountOwingApplied(g, s, step.e, step.d, step.t);
      hide Apply, Enabled;
      CountEdgeMovesOne(g, s, step.d, Claim(step.t, step.e, false));
    } else {
      SetPhaseMoves(s, step.d, step.t, if step.Peek? then Taken else Settled);
    }
  }

  /** Whose edge it is. */
  lemma MovesOwnEdge(g: Graph, s: State, step: Step)
    requires g.WellFormed() && MovesEdge(step) && Enabled(g, s, step)
    ensures if step.ProxyCount? then s.Phase(step.d, step.t).Proxied? else s.Owns(step.Actor(), step.d)
  {
    hide Done;
  }

  lemma OthersEdgeStep(g: Graph, s: State, step: Step, e: Exec)
    requires g.WellFormed() && MovesEdge(step) && Enabled(g, s, step) && step.Actor() != e
    ensures View(g, Apply(g, s, step), e) == View(g, s, e)
  {
    hide Apply, Enabled, View, OwnOwingSame, OwnClaimsSame, OwnEdgesSame;
    EdgeStepMovesOne(g, s, step);
    OthersMoveOwing(g, s, step, e);
    OthersMoveClaims(s, Apply(g, s, step), MovedEdge(step), step.Actor(), e);
    OthersMoveEdges(g, s, step, e);
    SameView(g, s, Apply(g, s, step), e);
  }

  lemma OthersMoveOwing(g: Graph, s: State, step: Step, e: Exec)
    requires g.WellFormed() && MovesEdge(step) && Enabled(g, s, step) && step.Actor() != e
    ensures OwnOwingSame(s, Apply(g, s, step), e)
  {
    hide Apply, Enabled, Graph.WellFormed, OnlyEdge;
    MovesOwnEdge(g, s, step);
    EdgeStepMovesOne(g, s, step);
    if step.ProxyCount? { PlainCountChanges(g, s, step); }
  }

  lemma OthersMoveClaims(s: State, s': State, edge: Edge, p: Exec, e: Exec)
    requires OneEdgeMoved(s, s', edge, p) && p != e
    ensures OwnClaimsSame(s, s', e)
  {
  }

  lemma OthersMoveEdges(g: Graph, s: State, step: Step, e: Exec)
    requires g.WellFormed() && MovesEdge(step) && Enabled(g, s, step) && step.Actor() != e
    ensures OwnEdgesSame(g, s, Apply(g, s, step), e)
  {
    MovesOwnEdge(g, s, step);
    EdgeStepMovesOne(g, s, step);
    hide Apply, Enabled, Graph.WellFormed;
  }

  lemma ExecuteChanges(g: Graph, s: State, c: Claim)
    requires g.WellFormed() && Enabled(g, s, Execute(c))
    ensures var s', v := Apply(g, s, Execute(c)), g.code[c.task](Inputs(g, s, c));
            && s'.phase == s.phase && s'.pending == s.pending - {c} && s'.ranBy == s.ranBy[c.task := c.exec]
            && s'.runCount == s.runCount[c.task := s.Runs(c.task) + 1]
            && s'.owed == s.owed && s'.failed == s.failed && s'.gone == s.gone && s'.givingUp == s.givingUp && c !in s.failed
            && s'.Cached(c.exec) == s.Cached(c.exec)[c.task := v]
            && forall e: Exec :: e != c.exec ==> s'.Cached(e) == s.Cached(e)
  {
  }

  lemma OthersExecute(g: Graph, s: State, c: Claim, e: Exec)
    requires g.WellFormed() && Discipline(g, s) && Enabled(g, s, Execute(c)) && c.exec != e
    ensures View(g, Apply(g, s, Execute(c)), e) == View(g, s, e)
  {
    assert c.task !in s.ranBy;
    ExecuteChanges(g, s, c);
    hide Discipline, Apply, Enabled, Graph.WellFormed, View;
    var s' := Apply(g, s, Execute(c));
    SamePhases(g, s, s', e);
    hide State.Phase, OwnEdgesSame;
    OthersClaimUsed(s, s', c, e);
    hide OwnClaimsSame;
    assert s'.Cached(e) == s.Cached(e) && OwnOwingSame(s, s', e);
    hide OwnOwingSame, State.Cached;
    SameView(g, s, s', e);
  }

  lemma OthersClaimUsed(s: State, s': State, c: Claim, e: Exec)
    requires c.exec != e && s'.pending == s.pending - {c} && s'.failed == s.failed
    ensures OwnClaimsSame(s, s', e)
  {
  }

  lemma SamePhases(g: Graph, s: State, s': State, e: Exec)
    requires g.WellFormed() && s'.phase == s.phase
    ensures OwnEdgesSame(g, s, s', e)
  {
    assert SameEdges(s, s');
  }

  lemma OthersInvoke(g: Graph, s: State, step: Step, e: Exec)
    requires g.WellFormed() && step.Invoke? && Enabled(g, s, step) && step.e != e && s.Used(e)
    ensures View(g, Apply(g, s, step), e) == View(g, s, e)
  {
    SameView(g, s, Apply(g, s, step), e);
  }

  lemma QuietOwnClaims(g: Graph, s: State, step: Step, e: Exec)
    requires g.WellFormed() && Enabled(g, s, step) && Quiet(step) && step.Actor() != e
    ensures OwnClaimsSame(s, Apply(g, s, step), e)
  {
    hide Graph.WellFormed;
  }

  lemma QuietOwnOwing(g: Graph, s: State, step: Step, e: Exec)
    requires g.WellFormed() && Enabled(g, s, step) && Quiet(step) && step.Actor() != e
    ensures OwnOwingSame(s, Apply(g, s, step), e)
  {
    hide Graph.WellFormed;
  }

  lemma QuietOwnMode(g: Graph, s: State, step: Step, e: Exec)
    requires g.WellFormed() && Enabled(g, s, step) && Quiet(step) && step.Actor() != e
    ensures e in Apply(g, s, step).givingUp <==> e in s.givingUp
  {
    hide Graph.WellFormed;
  }

  lemma QuietOwnCache(g: Graph, s: State, step: Step, e: Exec)
    requires g.WellFormed() && Enabled(g, s, step) && Quiet(step) && step.Actor() != e
    ensures Apply(g, s, step).Cached(e) == s.Cached(e)
  {
    hide Graph.WellFormed;
  }

  lemma OthersQuietStep(g: Graph, s: State, step: Step, e: Exec)
    requires g.WellFormed() && Enabled(g, s, step) && Quiet(step) && step.Actor() != e
    ensures View(g, Apply(g, s, step), e) == View(g, s, e)
  {
    QuietOwnClaims(g, s, step, e);
    QuietOwnOwing(g, s, step, e);
    QuietOwnCache(g, s, step, e);
    QuietOwnMode(g, s, step, e);
    QuietApplied(g, s, step);
    hide View, Apply, Enabled, OwnClaimsSame, OwnOwingSame;
    SamePhases(g, s, Apply(g, s, step), e);
    hide OwnEdgesSame;
    SameView(g, s, Apply(g, s, step), e);
  }

  /** No step unruns a task or empties the store. */
  lemma StepOnlyAdds(g: Graph, s: State, step: Step)
    requires g.WellFormed() && Enabled(g, s, step)
    ensures Unrun(g, Apply(g, s, step)) <= Unrun(g, s)
    ensures NothingLost(s, Apply(g, s, step))
    ensures s.cache.Keys <= Apply(g, s, step).cache.Keys && s.failed <= Apply(g, s, step).failed
    ensures Apply(g, s, step).gone <= s.gone + {step.Actor()} && (!step.Quit? ==> Apply(g, s, step).gone == s.gone)
  {
    if MovesEdge(step) {
      EdgeStepMovesOne(g, s, step);
      hide Completes, CountEdge, Done, Apply;
    }
  }

  /** e has not ended, and nobody else ends it. */
  lemma StillActive(g: Graph, s: State, s': State, e: Exec)
    requires g.WellFormed() && View(g, s', e) == View(g, s, e)
    requires s.cache.Keys <= s'.cache.Keys && s.failed <= s'.failed <= s'.pending && (e in s'.gone ==> e in s.gone)
    ensures s.Active(e) ==> s'.Active(e)
  {
    if c :| c in s.pending && c.exec == e {
      if c in s.failed {
        assert c in s'.pending;
      } else {
        assert c.task in View(g, s, e).claims;
        assert c.task in TargetsOf(s', e);
      }
    }
    if d :| d in s.ranBy && s.ranBy[d] == e {
      assert d in View(g, s, e).ran;
      assert d in s'.ranBy && s'.ranBy[d] == e;
    }
  }

  lemma OthersStepUndisturbed(g: Graph, s: State, step: Step, e: Exec)
    requires g.WellFormed() && Discipline(g, s) && Enabled(g, s, step) && step.Actor() != e && s.Active(e)
    ensures Undisturbed(g, e, s, Apply(g, s, step))
  {
    StepKeepsDiscipline(g, s, step);
    assert Apply(g, s, step).failed <= Apply(g, s, step).pending by { hide Apply, Enabled; }
    hide Discipline, Apply, Enabled, View, Reaches;
    if step.Execute? {
      OthersExecute(g, s, step.c, e);
    } else if step.Invoke? {
      OthersInvoke(g, s, step, e);
    } else if Quiet(step) {
      OthersQuietStep(g, s, step, e);
    } else {
      OthersEdgeStep(g, s, step, e);
    }
    StepReaches(g, s, step);
    StepOnlyAdds(g, s, step);
    StillActive(g, s, Apply(g, s, step), e);
  }

  /** Whatever others do, and however long, e finds its own affairs as it left them. */
  lemma {:induction false} OthersRunUndisturbed(g: Graph, s: State, steps: seq<Step>, e: Exec)
    requires g.WellFormed() && Inv(g, s) && CanRun(g, s, steps) && s.Active(e)
    requires forall i :: 0 <= i < |steps| ==> steps[i].Actor() != e
    ensures Undisturbed(g, e, s, RunFrom(g, s, steps))
    decreases |steps|
  {
    hide Discipline, Supply, Apply, Enabled, View, Reaches;
    if steps == [] {
      ReachesItself(g, s);
    } else {
      OthersStepUndisturbed(g, s, steps[0], e);
      StepKeepsInv(g, s, steps[0]);
      OthersRunUndisturbed(g, Apply(g, s, steps[0]), steps[1..], e);
      OnwardCompose(g, e, s, Apply(g, s, steps[0]), RunFrom(g, s, steps));
    }
  }

  // ---- Own steps -------------------------------------------------------------

  lemma OwnWaitingMoved(g: Graph, s: State, s': State, e: Exec, d: Task, t: Task)
    requires g.WellFormed() && g.HasEdge(d, t) && s.Owns(e, d) && OnlyEdge(s, s', d, t) && s'.ranBy == s.ranBy
    ensures WaitingOf(g, s', e) == WaitingOf(g, s, e) - {Edge(d, t)} + if s'.Phase(d, t).Waiting? then {Edge(d, t)} else {}
    ensures TakenOf(g, s', e) == TakenOf(g, s, e) - {Edge(d, t)} + if s'.Phase(d, t).Taken? then {Edge(d, t)} else {}
  {
    assert Edge(d, t) in g.Edges();
  }

  lemma OwnHeldMoved(g: Graph, s: State, s': State, e: Exec, d: Task, t: Task)
    requires g.WellFormed() && g.HasEdge(d, t) && s.Owns(e, d) && OnlyEdge(s, s', d, t) && s'.ranBy == s.ranBy
    ensures HeldOf(g, s', e) ==
            if s'.Phase(d, t).Held? then HeldOf(g, s, e)[Edge(d, t) := s'.Phase(d, t).held] else HeldOf(g, s, e) - {Edge(d, t)}
  {
    assert Edge(d, t) in g.Edges();
  }

  /** An own edge leaves Waiting or Held, and its target is claimed or not. */
  lemma OwnEdgeMoved(g: Graph, s: State, s': State, e: Exec, d: Task, t: Task, claimed: map<Task, bool>)
    requires g.WellFormed() && g.HasEdge(d, t) && s.Owns(e, d) && OnlyEdge(s, s', d, t)
    requires s'.cache == s.cache && s'.ranBy == s.ranBy && ClaimsOf(s', e) == ClaimsOf(s, e) + claimed && s'.givingUp == s.givingUp
    ensures var v, v' := View(g, s, e), View(g, s', e);
            && v'.claims == v.claims + claimed
            && v'.waiting == v.waiting - {Edge(d, t)} + (if s'.Phase(d, t).Waiting? then {Edge(d, t)} else {})
            && v'.held == (if s'.Phase(d, t).Held? then v.held[Edge(d, t) := s'.Phase(d, t).held] else v.held - {Edge(d, t)})
            && v'.taken == v.taken - {Edge(d, t)} + (if s'.Phase(d, t).Taken? then {Edge(d, t)} else {})
            && v'.ran == v.ran && v'.cache == v.cache && v'.owing == OwingOf(s', e) && v'.givingUp == v.givingUp
  {
    OwnWaitingMoved(g, s, s', e, d, t);
    OwnHeldMoved(g, s, s', e, d, t);
    assert RanOf(s', e) == RanOf(s, e);
    hide WaitingOf, HeldOf, TakenOf, ClaimsOf, RanOf, OwingOf;
  }

  lemma SameOwnEdges(g: Graph, s: State, s': State, e: Exec)
    requires g.WellFormed() && SameEdges(s, s') && s'.ranBy == s.ranBy
    ensures WaitingOf(g, s', e) == WaitingOf(g, s, e)
    ensures HeldOf(g, s', e) == HeldOf(g, s, e)
    ensures TakenOf(g, s', e) == TakenOf(g, s, e)
    ensures RanOf(s', e) == RanOf(s, e)
    ensures s'.owed == s.owed ==> OwingOf(s', e) == OwingOf(s, e)
  {
  }

  /** The counts that an executor makes itself. */
  predicate OwnCounting(step: Step, e: Exec, d: Task, t: Task) {
    || (step.Count? && step.e == e && step.d == d && step.t == t)
    || step == CountOwing(e, d, t) || step == CountSent(e, d, t)
  }

  /** Whether a claim made by this count may be handed on. */
  predicate HandsOn(step: Step) { step.Count? && step.mobile }

  /** What it leaves owing. */
  ghost function Late(g: Graph, s: State, step: Step): set<Edge>
    requires g.WellFormed() && (step.CountOwing? ==> step.t in g.tasks)
  {
    if step.CountOwing? && !Completes(g, s, step.d, step.t) then {Edge(step.d, step.t)} else {}
  }

  lemma CountChanges(g: Graph, s: State, e: Exec, d: Task, t: Task, step: Step)
    requires g.WellFormed() && OwnCounting(step, e, d, t) && Enabled(g, s, step)
    ensures OneEdgeMoved(s, Apply(g, s, step), Edge(d, t), e) && g.HasEdge(d, t) && s.Owns(e, d)
    ensures Apply(g, s, step).Phase(d, t).Settled? && !s.Phase(d, t).Taken? && !s.Phase(d, t).Settled?
    ensures Apply(g, s, step).pending == s.pending + if Completes(g, s, d, t) then {Claim(t, e, HandsOn(step))} else {}
    ensures Apply(g, s, step).owed.Keys == s.owed.Keys + Late(g, s, step)
  {
    hide Completes, CountEdge, Done, Apply, Enabled, Graph.WellFormed, OneEdgeMoved;
    CountingOpen(g, s, e, d, t, step);
    EdgeStepMovesOne(g, s, step);
    if step.CountOwing? { OwingChanges(g, s, e, d, t); } else { PlainCountChanges(g, s, step); }
  }

  lemma OwingChanges(g: Graph, s: State, e: Exec, d: Task, t: Task)
    requires g.WellFormed() && Enabled(g, s, CountOwing(e, d, t))
    ensures var s' := Apply(g, s, CountOwing(e, d, t));
            && g.HasEdge(d, t) && s'.Phase(d, t).Settled?
            && s'.pending == s.pending + (if Completes(g, s, d, t) then {Claim(t, e, false)} else {})
            && s'.owed.Keys == s.owed.Keys + (if Completes(g, s, d, t) then {} else {Edge(d, t)})
  {
    CountOwingApplied(g, s, e, d, t);
    hide Completes, CountEdge, Done, Apply, Enabled, OnlyEdge;
    CountEdgeMovesOne(g, s, d, Claim(t, e, false));
    CountEdgeSettles(g, s, d, Claim(t, e, false));
  }

  lemma PlainCountChanges(g: Graph, s: State, step: Step)
    requires g.WellFormed() && Counts(step) && Enabled(g, s, step)
    ensures var s', c := Apply(g, s, step), CountingClaim(step);
            && g.HasEdge(step.d, step.t) && s'.Phase(step.d, step.t).Settled?
            && s'.pending == s.pending + (if Completes(g, s, step.d, step.t) then {c} else {}) && s'.owed == s.owed
  {
    CountApplied(g, s, step);
    hide Completes, CountEdge, Done, Apply, Enabled, OnlyEdge;
    CountEdgeMovesOne(g, s, step.d, CountingClaim(step));
    CountEdgeSettles(g, s, step.d, CountingClaim(step));
  }

  lemma CountingOpen(g: Graph, s: State, e: Exec, d: Task, t: Task, step: Step)
    requires g.WellFormed() && OwnCounting(step, e, d, t) && Enabled(g, s, step)
    ensures Open(g, s, e, d, t)
  {
  }

  lemma NoClaimYet(g: Graph, s: State, e: Exec, d: Task, t: Task)
    requires g.WellFormed() && Discipline(g, s) && g.HasEdge(d, t)
    requires !s.Phase(d, t).Settled? && !s.Phase(d, t).Taken?
    ensures !HasPending(s, t) && t !in ClaimsOf(s, e)
  {
    hide Discipline;
    LastEdge(g, s, d, t);
  }

  lemma OwnEdgeCounted(g: Graph, s: State, s': State, e: Exec, d: Task, t: Task, claimed: map<Task, bool>)
    requires g.WellFormed() && g.HasEdge(d, t) && s.Owns(e, d) && OnlyEdge(s, s', d, t)
    requires s'.cache == s.cache && s'.ranBy == s.ranBy && ClaimsOf(s', e) == ClaimsOf(s, e) + claimed && s'.givingUp == s.givingUp
    requires !s.Phase(d, t).Taken?
    ensures s'.Phase(d, t).Settled? ==>
              View(g, s', e) == Counted(View(g, s, e), Edge(d, t), claimed).(owing := OwingOf(s', e))
    ensures s'.Phase(d, t).Taken? && claimed == map[t := false] ==>
              View(g, s', e) == Took(View(g, s, e), Edge(d, t)).(owing := OwingOf(s', e))
  {
    hide ClaimsOf, OnlyEdge, OwingOf;
    OwnEdgeMoved(g, s, s', e, d, t, claimed);
    assert View(g, s, e).taken - {Edge(d, t)} == View(g, s, e).taken;
    assert ClaimsOf(s, e) + map[t := false] == ClaimsOf(s, e)[t := false];
  }

  lemma ClaimGranted(g: Graph, s: State, s': State, e: Exec, d: Task, t: Task, won: bool, mobile: bool)
    requires g.WellFormed() && Discipline(g, s) && g.HasEdge(d, t)
    requires !s.Phase(d, t).Settled? && !s.Phase(d, t).Taken?
    requires s'.pending == (s.pending + if won then {Claim(t, e, mobile)} else {}) && s'.failed == s.failed
    ensures ClaimsOf(s', e) == ClaimsOf(s, e) + Granted(won, t, mobile)
  {
    assert s.failed <= s.pending;
    hide Discipline, HasPending, ClaimsOf, Graph.WellFormed, Granted;
    NoClaimYet(g, s, e, d, t);
    if won {
      ClaimAdded(s, s', Claim(t, e, mobile));
    } else {
      SameClaims(s, s', e);
    }
    GrantedAdds(ClaimsOf(s, e), won, t, mobile);
  }

  lemma GrantedAdds(claims: map<Task, bool>, won: bool, t: Task, mobile: bool)
    ensures claims + Granted(won, t, mobile) == if won then claims[t := mobile] else claims
  {
  }

  lemma OwnCount(g: Graph, s: State, e: Exec, d: Task, t: Task, step: Step)
    requires g.WellFormed() && Discipline(g, s) && OwnCounting(step, e, d, t) && Enabled(g, s, step)
    ensures g.HasEdge(d, t)
    ensures View(g, Apply(g, s, step), e) ==
            Counted(View(g, s, e), Edge(d, t), Granted(Completes(g, s, d, t), t, HandsOn(step))).(
              owing := View(g, s, e).owing + Late(g, s, step))
    ensures t !in View(g, s, e).claims
  {
    var s' := Apply(g, s, step);
    CountChanges(g, s, e, d, t, step);
    hide Discipline, Completes, Done, Apply, Enabled, HasPending, View, ClaimsOf, Granted, OnlyEdge, OwnCounting, Late;
    NoClaimYet(g, s, e, d, t);
    ClaimGranted(g, s, s', e, d, t, Completes(g, s, d, t), HandsOn(step));
    OwnEdgeCounted(g, s, s', e, d, t, Granted(Completes(g, s, d, t), t, HandsOn(step)));
    LateIsOwing(g, s, s', e, step);
    ClaimsInView(g, s, e);
  }

  lemma LateIsOwing(g: Graph, s: State, s': State, e: Exec, step: Step)
    requires g.WellFormed() && (step.CountOwing? ==> step.t in g.tasks && s.Owns(e, step.d))
    requires s'.ranBy == s.ranBy && s'.owed.Keys == s.owed.Keys + Late(g, s, step)
    ensures OwingOf(s', e) == OwingOf(s, e) + Late(g, s, step) && View(g, s, e).owing == OwingOf(s, e)
  {
    hide Completes;
  }

  lemma ClaimsInView(g: Graph, s: State, e: Exec)
    requires g.WellFormed()
    ensures View(g, s, e).claims == ClaimsOf(s, e)
  {
  }

  lemma PeekChanges(g: Graph, s: State, e: Exec, d: Task, t: Task)
    requires g.WellFormed() && Enabled(g, s, Peek(e, d, t))
    ensures var s' := Apply(g, s, Peek(e, d, t));
            && s'.Phase(d, t).Taken? && s'.pending == s.pending + {Claim(t, e, false)}
            && OneEdgeMoved(s, s', Edge(d, t), e) && s'.owed == s.owed
  {
    hide Done;
    EdgeStepMovesOne(g, s, Peek(e, d, t));
  }

  lemma OwnPeek(g: Graph, s: State, e: Exec, d: Task, t: Task)
    requires g.WellFormed() && Discipline(g, s) && Enabled(g, s, Peek(e, d, t))
    ensures View(g, Apply(g, s, Peek(e, d, t)), e) == Took(View(g, s, e), Edge(d, t))
    ensures t !in View(g, s, e).claims
  {
    hide Discipline, Done, HasPending, View, ClaimsOf, Granted, Apply, OnlyEdge;
    var s' := Apply(g, s, Peek(e, d, t));
    PeekChanges(g, s, e, d, t);
    NoClaimYet(g, s, e, d, t);
    ClaimGranted(g, s, s', e, d, t, true, false);
    GrantedOne(t);
    OwnEdgeCounted(g, s, s', e, d, t, Granted(true, t, false));
    SameOwing(g, s, s', e);
    ClaimsInView(g, s, e);
  }

  lemma SameOwing(g: Graph, s: State, s': State, e: Exec)
    requires g.WellFormed() && s'.ranBy == s.ranBy && s'.owed.Keys == s.owed.Keys
    ensures OwingOf(s', e) == OwingOf(s, e) == View(g, s, e).owing
  {
  }

  lemma GrantedOne(t: Task)
    ensures Granted(true, t, false) == map[t := false]
  {
  }

  /** An own edge changes its phase, and nothing else happens. */
  lemma OwnPhaseSet(g: Graph, s: State, e: Exec, d: Task, t: Task, p: Phase)
    requires g.WellFormed() && g.HasEdge(d, t) && s.Owns(e, d)
    ensures var v, v' := View(g, s, e), View(g, SetPhase(s, d, t, p), e);
            && v'.claims == v.claims && v'.ran == v.ran && v'.cache == v.cache && v'.owing == v.owing && v'.givingUp == v.givingUp
            && v'.waiting == v.waiting - {Edge(d, t)} + (if p.Waiting? then {Edge(d, t)} else {})
            && v'.held == (if p.Held? then v.held[Edge(d, t) := p.held] else v.held - {Edge(d, t)})
            && v'.taken == v.taken - {Edge(d, t)} + (if p.Taken? then {Edge(d, t)} else {})
  {
    hide View, SetPhase, OnlyEdge, Graph.WellFormed;
    var s' := SetPhase(s, d, t, p);
    SetPhaseMoves(s, d, t, p);
    assert OwnClaimsSame(s, s', e);
    hide OwnClaimsSame;
    SameClaims(s, s', e);
    SameOwing(g, s, s', e);
    hide ClaimsOf, OwingOf;
    OwnEdgeMoved(g, s, s', e, d, t, map[]);
  }

  lemma OwnBookkeep(g: Graph, s: State, e: Exec, d: Task, t: Task)
    requires g.WellFormed() && Enabled(g, s, Bookkeep(e, d, t))
    ensures var v := View(g, s, e);
            View(g, Apply(g, s, Bookkeep(e, d, t)), e) == v.(taken := v.taken - {Edge(d, t)})
  {
    hide View, SetPhase;
    OwnPhaseSet(g, s, e, d, t, Settled);
    InView(g, s, e, d, t);
    var v := View(g, s, e);
    assert v.waiting - {Edge(d, t)} == v.waiting && v.held - {Edge(d, t)} == v.held;
  }

  lemma OwnHold(g: Graph, s: State, e: Exec, d: Task, t: Task)
    requires g.WellFormed() && Enabled(g, s, Hold(e, d, t))
    ensures var v := View(g, s, e);
            View(g, Apply(g, s, Hold(e, d, t)), e) == v.(
              waiting := v.waiting - {Edge(d, t)}, held := v.held[Edge(d, t) := v.cache[d]])
  {
    hide View, SetPhase;
    OwnPhaseSet(g, s, e, d, t, Held(s.Cached(e)[d]));
    InView(g, s, e, d, t);
    CacheInView(g, s, e);
    assert View(g, s, e).taken - {Edge(d, t)} == View(g, s, e).taken;
  }

  /** Leaving an edge to the proxy, or out. */
  lemma OwnDelegate(g: Graph, s: State, step: Step)
    requires g.WellFormed() && (step.Delegate? || step.LeaveOut?) && Enabled(g, s, step)
    ensures var v := View(g, s, step.e);
            View(g, Apply(g, s, step), step.e) == v.(waiting := v.waiting - {Edge(step.d, step.t)})
  {
    hide View, SetPhase;
    ParkApplied(g, s, step);
    hide Apply, Enabled;
    OwnPhaseSet(g, s, step.e, step.d, step.t, ParkedPhase(s, step));
    InView(g, s, step.e, step.d, step.t);
    var v := View(g, s, step.e);
    assert v.taken - {Edge(step.d, step.t)} == v.taken && v.held - {Edge(step.d, step.t)} == v.held;
  }

  lemma OwnCaching(g: Graph, s: State, e: Exec, d: Task, step: Step)
    requires g.WellFormed() && Enabled(g, s, step) && (step == Fetch(e, d) || step == Evict(e, d))
    ensures var v := View(g, s, e);
            View(g, Apply(g, s, step), e) == v.(
              cache := if step.Fetch? then v.cache[d := s.store[d]] else v.cache - {d})
  {
    SameOwnEdges(g, s, Apply(g, s, step), e);
    SameClaims(s, Apply(g, s, step), e);
    hide WaitingOf, HeldOf, TakenOf, RanOf, ClaimsOf, OwingOf;
  }

  lemma OwnWaitingAfterRun(g: Graph, s: State, s': State, e: Exec, t: Task)
    requires g.WellFormed() && SameEdges(s, s') && t in g.tasks && t !in s.ranBy
    requires s'.ranBy == s.ranBy[t := e]
    requires forall t' :: g.HasEdge(t, t') ==> s.Phase(t, t').Waiting?
    ensures WaitingOf(g, s', e) == WaitingOf(g, s, e) + g.OutEdges(t)
    ensures g.OutEdges(t) !! WaitingOf(g, s, e)
  {
    assert forall d: Task :: s'.Owns(e, d) <==> s.Owns(e, d) || d == t;
    hide State.Owns;
    forall edge | edge in g.Edges() && edge.src == t ensures edge in g.OutEdges(t) {
      assert edge == Edge(t, edge.dst) && edge.dst in g.Downstream(t);
    }
  }

  lemma OwnEdgesAfterRun(g: Graph, s: State, s': State, e: Exec, t: Task)
    requires g.WellFormed() && SameEdges(s, s') && t in g.tasks && t !in s.ranBy
    requires s'.ranBy == s.ranBy[t := e]
    requires forall t' :: g.HasEdge(t, t') ==> s.Phase(t, t').Waiting?
    ensures WaitingOf(g, s', e) == WaitingOf(g, s, e) + g.OutEdges(t)
    ensures g.OutEdges(t) !! WaitingOf(g, s, e)
    ensures HeldOf(g, s', e) == HeldOf(g, s, e)
    ensures TakenOf(g, s', e) == TakenOf(g, s, e)
    ensures RanOf(s', e) == RanOf(s, e) + {t}
  {
    OwnWaitingAfterRun(g, s, s', e, t);
    hide WaitingOf, Graph.OutEdges;
    assert forall d: Task :: s'.Owns(e, d) <==> s.Owns(e, d) || d == t;
    assert RanOf(s', e) == RanOf(s, e) + {t};
    hide State.Owns;
  }

  lemma ClaimedIsFresh(g: Graph, s: State, c: Claim)
    requires g.WellFormed() && Discipline(g, s) && c in s.pending
    ensures c.task in g.tasks && s.Runs(c.task) == 0 && c.task !in s.ranBy
    ensures forall t :: g.HasEdge(c.task, t) ==> s.Phase(c.task, t).Waiting?
  {
  }

  /** Nothing is owed for a task that has not run. */
  lemma FreshOwesNothing(g: Graph, s: State, s': State, e: Exec, t: Task)
    requires g.WellFormed() && ValuesRight(g, s) && t !in s.ranBy && s'.ranBy == s.ranBy[t := e] && s'.owed == s.owed
    ensures OwingOf(s', e) == OwingOf(s, e)
  {
    forall edge | edge in s.owed ensures edge.src != t {
      assert OwedRight(g, s, edge);
    }
  }

  lemma OwnExecute(g: Graph, s: State, c: Claim)
    requires g.WellFormed() && Inv(g, s) && Enabled(g, s, Execute(c))
    ensures View(g, Apply(g, s, Execute(c)), c.exec) ==
            Ran(g, View(g, s, c.exec), c.task, g.code[c.task](Inputs(g, s, c)))
    ensures c.task in Unrun(g, s) && Unrun(g, Apply(g, s, Execute(c))) == Unrun(g, s) - {c.task}
    ensures g.OutEdges(c.task) !! View(g, s, c.exec).waiting && c.task !in View(g, s, c.exec).ran
  {
    hide Discipline, ValuesRight, WithinReach, Apply;
    ClaimedIsFresh(g, s, c);
    ExecuteChanges(g, s, c);
    var s' := Apply(g, s, Execute(c));
    hide Enabled;
    FreshOwesNothing(g, s, s', c.exec, c.task);
    OwnEdgesAfterRun(g, s, s', c.exec, c.task);
    ClaimRemoved(g, s, s', c);
    hide WaitingOf, HeldOf, TakenOf, RanOf, ClaimsOf, OwingOf, Graph.OutEdges;
    assert Unrun(g, s') == Unrun(g, s) - {c.task};
  }

  /** Writing a value changes no executor's own affairs. */
  lemma OwnWrite(g: Graph, s: State, e: Exec, step: Step)
    requires g.WellFormed() && Enabled(g, s, step) && (step.Put? || step.Send?)
    ensures View(g, Apply(g, s, step), e) == View(g, s, e)
  {
    hide View;
    SameView(g, s, Apply(g, s, step), e);
  }

  /** Writing the value of an edge given up settles that debt. */
  lemma OwnPay(g: Graph, s: State, e: Exec, edge: Edge)
    requires g.WellFormed() && Enabled(g, s, Pay(e, edge))
    ensures var v := View(g, s, e); View(g, Apply(g, s, Pay(e, edge)), e) == v.(owing := v.owing - {edge})
  {
    var s' := Apply(g, s, Pay(e, edge));
    SameClaims(s, s', e);
    SameOwnEdges(g, s, s', e);
    assert OwingOf(s', e) == OwingOf(s, e) - {edge};
    hide WaitingOf, HeldOf, TakenOf, RanOf, ClaimsOf, OwingOf;
  }

  /** Beginning or ending to give up changes nothing else. */
  lemma OwnMode(g: Graph, s: State, e: Exec, step: Step)
    requires g.WellFormed() && Enabled(g, s, step) && (step == GiveUp(e) || step == Resume(e))
    ensures View(g, Apply(g, s, step), e) == View(g, s, e).(givingUp := step.GiveUp?)
  {
    var s' := Apply(g, s, step);
    SameClaims(s, s', e);
    SameOwnEdges(g, s, s', e);
    assert OwingOf(s', e) == OwingOf(s, e);
    hide WaitingOf, HeldOf, TakenOf, RanOf, ClaimsOf, OwingOf;
  }

  /** A claim that cannot be run is no claim to run any more. */
  lemma OwnDrop(g: Graph, s: State, c: Claim)
    requires g.WellFormed() && Discipline(g, s) && Enabled(g, s, Drop(c))
    ensures var v := View(g, s, c.exec); View(g, Apply(g, s, Drop(c)), c.exec) == v.(claims := v.claims - {c.task})
  {
    hide Discipline;
    var s' := Apply(g, s, Drop(c));
    ClaimRemoved(g, s, s', c);
    SameOwnEdges(g, s, s', c.exec);
    hide WaitingOf, HeldOf, TakenOf, RanOf, ClaimsOf, OwingOf;
  }

  lemma OwnInvoke(g: Graph, s: State, step: Step)
    requires g.WellFormed() && Discipline(g, s) && step.Invoke? && Enabled(g, s, step) && s.Used(step.e)
    ensures var v := View(g, s, step.e);
            View(g, Apply(g, s, step), step.e) == v.(claims := v.claims - {step.c.task})
  {
    hide Discipline;
    var s' := Apply(g, s, step);
    assert step.e' != step.e;
    ClaimRemoved(g, s, s', step.c);
    SameOwnEdges(g, s, s', step.e);
    hide WaitingOf, HeldOf, TakenOf, RanOf, ClaimsOf;
  }

  lemma OwnStepOnward(g: Graph, s: State, step: Step, e: Exec)
    requires g.WellFormed() && Enabled(g, s, step) && step.Actor() == e && !step.Quit?
    requires Apply(g, s, step).Used(e)
    ensures Onward(g, e, s, Apply(g, s, step))
  {
    hide Apply, Enabled, Reaches;
    StepReaches(g, s, step);
    StepOnlyAdds(g, s, step);
  }

  lemma InView(g: Graph, s: State, e: Exec, d: Task, t: Task)
    requires g.WellFormed()
    ensures Edge(d, t) in View(g, s, e).waiting <==> g.HasEdge(d, t) && s.Owns(e, d) && s.Phase(d, t).Waiting?
    ensures Edge(d, t) in View(g, s, e).held <==> g.HasEdge(d, t) && s.Owns(e, d) && s.Phase(d, t).Held?
    ensures Edge(d, t) in View(g, s, e).taken <==> g.HasEdge(d, t) && s.Owns(e, d) && s.Phase(d, t).Taken?
    ensures d in View(g, s, e).ran <==> s.Owns(e, d)
  {
    assert Edge(d, t) in g.Edges() <==> g.HasEdge(d, t);
  }

  lemma ClaimInView(g: Graph, s: State, e: Exec, t: Task)
    requires g.WellFormed() && Discipline(g, s) && t in View(g, s, e).claims
    ensures Claim(t, e, View(g, s, e).claims[t]) in s.pending - s.failed
  {
    hide EdgesFollowRuns, TakenIsLast, ClaimedWhenDue, RunsWithinClaims;
    var c :| c in s.pending && c !in s.failed && c.exec == e && c.task == t;
    assert c == Claim(t, e, c.mobile);
  }

  lemma CacheInView(g: Graph, s: State, e: Exec)
    requires g.WellFormed()
    ensures View(g, s, e).cache == s.Cached(e)
  {
  }

  lemma RanInView(g: Graph, s: State, e: Exec)
    requires g.WellFormed()
    ensures forall d :: d in View(g, s, e).ran <==> s.Owns(e, d)
  {
  }
}
