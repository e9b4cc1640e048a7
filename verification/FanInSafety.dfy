/** What every step of the fan-in protocol keeps, and what that means for runs. */
module FanInSafety {
  import opened Graphs
  import opened FanIn

  // ---- Who claims what -------------------------------------------------------

  ghost predicate AllSettled(g: Graph, s: State, t: Task)
    requires g.WellFormed() && t in g.tasks
  {
    forall d :: d in g.deps[t] ==> s.Phase(d, t).Settled?
  }

  ghost predicate SomeTaken(g: Graph, s: State, t: Task)
    requires g.WellFormed() && t in g.tasks
  {
    exists d :: d in g.deps[t] && s.Phase(d, t).Taken?
  }

  /** How many claims of t there must have been: one as soon as the last edge was
      counted, or taken by a peek. */
  ghost function Due(g: Graph, s: State, t: Task): nat
    requires g.WellFormed() && t in g.tasks
  {
    if AllSettled(g, s, t) || SomeTaken(g, s, t) then 1 else 0
  }

  ghost predicate EdgesFollowRuns(g: Graph, s: State)
    requires g.WellFormed()
  {
    forall d, t :: g.HasEdge(d, t) && !s.Phase(d, t).Waiting? ==> d in s.ranBy
  }

  /** A peek takes t only when every other edge is counted. */
  ghost predicate TakenIsLast(g: Graph, s: State)
    requires g.WellFormed()
  {
    forall d, d', t :: g.HasEdge(d, t) && g.HasEdge(d', t) && d != d' && s.Phase(d, t).Taken? ==> s.Phase(d', t).Settled?
  }

  ghost predicate ClaimedWhenDue(g: Graph, s: State)
    requires g.WellFormed()
  {
    forall t :: t in g.tasks ==> s.Claims(t) == Due(g, s, t)
  }

  ghost predicate HasPending(s: State, t: Task) {
    exists c :: c in s.pending && c.task == t
  }

  ghost predicate PendingOnce(g: Graph, s: State)
    requires g.WellFormed()
  {
    && (forall c :: c in s.pending ==> c.task in g.tasks && s.Claims(c.task) == 1 && s.Runs(c.task) == 0)
    && (forall c, c' :: c in s.pending && c' in s.pending && c.task == c'.task ==> c == c')
    && (forall t :: t in g.tasks && s.Claims(t) == 1 && s.Runs(t) == 0 ==> HasPending(s, t))
    && s.failed <= s.pending
  }

  ghost predicate RunsWithinClaims(g: Graph, s: State)
    requires g.WellFormed()
  {
    && (forall t :: t in g.tasks ==> s.Runs(t) <= s.Claims(t))
    && (forall t :: t in s.ranBy <==> s.Runs(t) > 0)
    && s.ranBy.Keys <= g.tasks
  }

  ghost predicate Discipline(g: Graph, s: State)
    requires g.WellFormed()
  {
    && EdgesFollowRuns(g, s) && TakenIsLast(g, s) && ClaimedWhenDue(g, s)
    && PendingOnce(g, s) && RunsWithinClaims(g, s)
  }

  // ---- Where the values are --------------------------------------------------

  ghost predicate Right(g: Graph, s: State, t: Task, v: Value)
    requires g.WellFormed()
  {
    t in g.tasks && t in s.ranBy && v == g.Eval(t)
  }

  ghost predicate StoreRight(g: Graph, s: State, t: Task)
    requires g.WellFormed()
  {
    t in s.store ==> Right(g, s, t, s.store[t])
  }

  ghost predicate CacheRight(g: Graph, s: State, e: Exec, t: Task)
    requires g.WellFormed()
  {
    t in s.Cached(e) ==> Right(g, s, t, s.Cached(e)[t])
  }

  /** Whoever ran t has t's result in hand. */
  ghost predicate MadeRight(g: Graph, s: State, t: Task)
    requires g.WellFormed()
  {
    (t in s.made <==> t in s.ranBy) && (t in s.made ==> Right(g, s, t, s.made[t]))
  }

  ghost predicate OwedRight(g: Graph, s: State, edge: Edge)
    requires g.WellFormed()
  {
    edge in s.owed ==> Right(g, s, edge.src, s.owed[edge])
  }

  ghost predicate SentRight(g: Graph, s: State, t: Task)
    requires g.WellFormed()
  {
    t in s.sent ==> Right(g, s, t, s.sent[t])
  }

  ghost predicate PhaseRight(g: Graph, s: State, d: Task, t: Task)
    requires g.WellFormed()
  {
    g.HasEdge(d, t) ==>
      match s.Phase(d, t)
      case Held(v) => Right(g, s, d, v)
      case _ => true
  }

  /** Every value anywhere is the meaning of its task. */
  ghost predicate ValuesRight(g: Graph, s: State)
    requires g.WellFormed()
  {
    && (forall t {:trigger StoreRight(g, s, t)} :: StoreRight(g, s, t))
    && (forall e, t {:trigger CacheRight(g, s, e, t)} :: CacheRight(g, s, e, t))
    && (forall t {:trigger MadeRight(g, s, t)} :: MadeRight(g, s, t))
    && (forall edge {:trigger OwedRight(g, s, edge)} :: OwedRight(g, s, edge))
    && (forall d, t {:trigger PhaseRight(g, s, d, t)} :: PhaseRight(g, s, d, t))
    && (forall t {:trigger SentRight(g, s, t)} :: SentRight(g, s, t))
  }

  /** d's value leaves its producer's cache only when t no longer needs it. */
  ghost predicate Retained(g: Graph, s: State, d: Task, t: Task)
    requires g.WellFormed()
  {
    g.HasEdge(d, t) && d in s.ranBy && s.Runs(t) == 0 ==> d in s.Cached(s.ranBy[d])
  }

  /** d's value can be read from Redis, or its write is still owed for this very edge. */
  ghost predicate StoredOrOwed(s: State, d: Task, t: Task) {
    d in s.store || Edge(d, t) in s.owed
  }

  /** ... or the proxy has been sent it, and will store it. */
  ghost predicate Coming(s: State, d: Task, t: Task) {
    StoredOrOwed(s, d, t) || d in s.sent
  }

  ghost predicate SettledStored(g: Graph, s: State, d: Task, t: Task)
    requires g.WellFormed()
  {
    g.HasEdge(d, t) && s.Phase(d, t).Settled? && s.Claims(t) == 0 ==> Coming(s, d, t)
  }

  /** Whoever holds a claim can get at every input; a mobile claim does not even need the
      claimant's cache. */
  ghost predicate Supplied(g: Graph, s: State, c: Claim, d: Task)
    requires g.WellFormed()
  {
    c in s.pending && g.HasEdge(d, c.task) ==>
      Coming(s, d, c.task) || (!c.mobile && d in s.Cached(c.exec))
  }

  ghost predicate WithinReach(g: Graph, s: State)
    requires g.WellFormed()
  {
    && (forall d, t {:trigger Retained(g, s, d, t)} :: Retained(g, s, d, t))
    && (forall d, t {:trigger SettledStored(g, s, d, t)} :: SettledStored(g, s, d, t))
    && (forall c, d {:trigger Supplied(g, s, c, d)} :: Supplied(g, s, c, d))
  }

  ghost predicate Supply(g: Graph, s: State)
    requires g.WellFormed()
  {
    ValuesRight(g, s) && WithinReach(g, s)
  }

  ghost predicate Inv(g: Graph, s: State)
    requires g.WellFormed()
  {
    Discipline(g, s) && Supply(g, s)
  }

  // ---- Every step keeps the claim discipline ---------------------------------

  lemma InitDiscipline(g: Graph, lambda: map<Task, Exec>)
    requires g.WellFormed() && g.tasks <= lambda.Keys
    ensures Discipline(g, Init(g, lambda))
  {
    var s := Init(g, lambda);
    forall t | t in g.tasks ensures s.Claims(t) == Due(g, s, t) {
      if g.deps[t] != {} {
        var d :| d in g.deps[t];
        assert !s.Phase(d, t).Settled?;
      }
    }
    forall t | t in g.tasks && s.Claims(t) == 1 ensures HasPending(s, t) {
      assert Claim(t, lambda[t], true) in s.pending;
    }
  }

  /** s and s' agree on every edge but d -> t. */
  ghost predicate OnlyEdge(s: State, s': State, d: Task, t: Task) {
    forall d': Task, t': Task :: d' != d || t' != t ==> s'.Phase(d', t') == s.Phase(d', t')
  }

  lemma SetPhaseMoves(s: State, d: Task, t: Task, p: Phase)
    ensures var s' := SetPhase(s, d, t, p);
            && OnlyEdge(s, s', d, t) && s'.Phase(d, t) == p && s'.store == s.store && s'.cache == s.cache
            && s'.made == s.made && s'.owed == s.owed && s'.ranBy == s.ranBy && s'.runCount == s.runCount
            && s'.pending == s.pending && s'.claimCount == s.claimCount && s'.failed == s.failed && s'.sent == s.sent
            && s'.gone == s.gone && s'.givingUp == s.givingUp
  {
  }

  /** While d -> t is open, t has not been claimed. */
  lemma NotDueYet(g: Graph, s: State, d: Task, t: Task)
    requires g.WellFormed() && Discipline(g, s) && g.HasEdge(d, t)
    requires !s.Phase(d, t).Settled? && !s.Phase(d, t).Taken?
    ensures s.Claims(t) == 0 && !SomeTaken(g, s, t) && !HasPending(s, t)
  {
    hide EdgesFollowRuns, RunsWithinClaims;
  }

  /** Counting d -> t, or taking it by a peek, is the event that makes t due, and it
      was not due before. */
  lemma LastEdge(g: Graph, s: State, d: Task, t: Task)
    requires g.WellFormed() && Discipline(g, s) && g.HasEdge(d, t)
    requires !s.Phase(d, t).Settled? && !s.Phase(d, t).Taken?
    ensures s.Claims(t) == 0 && !SomeTaken(g, s, t) && !HasPending(s, t)
    ensures AllSettled(g, SetPhase(s, d, t, Settled), t) <==> Completes(g, s, d, t)
    ensures !SomeTaken(g, SetPhase(s, d, t, Settled), t)
  {
    NotDueYet(g, s, d, t);
    hide Discipline, SetPhase;
    var s' := SetPhase(s, d, t, Settled);
    SetPhaseMoves(s, d, t, Settled);
    assert AllSettled(g, s', t) <==> forall d' :: d' in g.deps[t] ==> d' == d || d' in Done(g, s, t);
  }

  ghost predicate SameEdges(s: State, s': State) {
    forall d: Task, t: Task :: s'.Phase(d, t) == s.Phase(d, t)
  }

  /** Changing the phase of one edge into t leaves every other task as due as it was. */
  lemma OtherTasksAsDue(g: Graph, s: State, s': State, d: Task, t: Task, t': Task)
    requires g.WellFormed() && t' in g.tasks && t' != t && OnlyEdge(s, s', d, t)
    ensures Due(g, s', t') == Due(g, s, t')
  {
    assert forall d': Task :: s'.Phase(d', t') == s.Phase(d', t');
  }

  /** What has to be shown when one edge into t changes and at most t is claimed. */
  lemma OneEdgeKeepsDiscipline(g: Graph, s: State, s': State, d: Task, t: Task)
    requires g.WellFormed() && Discipline(g, s) && g.HasEdge(d, t) && d in s.ranBy
    requires OnlyEdge(s, s', d, t) && s'.ranBy == s.ranBy && s'.runCount == s.runCount
    requires s'.Phase(d, t).Taken? ==> forall d' :: d' in g.deps[t] && d' != d ==> s.Phase(d', t).Settled?
    requires forall d' :: d' in g.deps[t] && d' != d && s.Phase(d', t).Taken? ==> s'.Phase(d, t).Settled?
    requires s'.Claims(t) == Due(g, s', t) && s'.Claims(t) >= s.Claims(t)
    requires forall t': Task :: t' != t ==> s'.Claims(t') == s.Claims(t')
    requires PendingOnce(g, s')
    ensures Discipline(g, s')
  {
    forall t' | t' in g.tasks ensures s'.Claims(t') == Due(g, s', t') {
      if t' != t { OtherTasksAsDue(g, s, s', d, t, t'); }
    }
    assert EdgesFollowRuns(g, s');
    forall a, b, t' | g.HasEdge(a, t') && g.HasEdge(b, t') && a != b && s'.Phase(a, t').Taken?
      ensures s'.Phase(b, t').Settled?
    {
      if t' != t {
        assert s.Phase(a, t').Taken?;
      }
    }
  }

  lemma CountingKeepsDiscipline(g: Graph, s: State, d: Task, c: Claim)
    requires g.WellFormed() && Discipline(g, s) && g.HasEdge(d, c.task) && d in s.ranBy
    requires !s.Phase(d, c.task).Settled? && !s.Phase(d, c.task).Taken?
    ensures Discipline(g, CountEdge(g, s, d, c))
  {
    var t := c.task;
    LastEdge(g, s, d, t);
    var s' := CountEdge(g, s, d, c);
    assert OnlyEdge(s, s', d, t);
    NewClaimKeepsPendingOnce(g, s, s', c);
    assert Due(g, s', t) == Due(g, SetPhase(s, d, t, Settled), t);
    OneEdgeKeepsDiscipline(g, s, s', d, t);
  }

  lemma PeekKeepsDiscipline(g: Graph, s: State, d: Task, t: Task, c: Claim)
    requires g.WellFormed() && Discipline(g, s) && g.HasEdge(d, t) && d in s.ranBy && c.task == t
    requires !s.Phase(d, t).Settled? && !s.Phase(d, t).Taken?
    requires Done(g, s, t) == g.deps[t] - {d}
    ensures Discipline(g, AddClaim(SetPhase(s, d, t, Taken), c))
  {
    LastEdge(g, s, d, t);
    var s' := AddClaim(SetPhase(s, d, t, Taken), c);
    assert OnlyEdge(s, s', d, t) && s'.Phase(d, t).Taken?;
    assert forall d' :: d' in g.deps[t] && d' != d ==> d' in Done(g, s, t);
    assert SomeTaken(g, s', t);
    NewClaimKeepsPendingOnce(g, s, s', c);
    OneEdgeKeepsDiscipline(g, s, s', d, t);
  }

  lemma NewClaimKeepsPendingOnce(g: Graph, s: State, s': State, c: Claim)
    requires g.WellFormed() && PendingOnce(g, s) && c.task in g.tasks
    requires s.Claims(c.task) == 0 ==> s.Runs(c.task) == 0
    requires s'.runCount == s.runCount && s'.failed == s.failed
    requires
      || (s'.pending == s.pending && s'.claimCount == s.claimCount)
      || (s.Claims(c.task) == 0 && s'.pending == s.pending + {c} && s'.claimCount == s.claimCount[c.task := 1])
    ensures PendingOnce(g, s')
  {
    forall t | t in g.tasks && s'.Claims(t) == 1 && s'.Runs(t) == 0 ensures HasPending(s', t) {
      if t == c.task && s'.pending != s.pending {
        assert c in s'.pending;
      } else {
        assert HasPending(s, t);
        var c' :| c' in s.pending && c'.task == t;
        assert c' in s'.pending;
      }
    }
  }

  lemma BookkeepKeepsDiscipline(g: Graph, s: State, d: Task, t: Task)
    requires g.WellFormed() && Discipline(g, s) && g.HasEdge(d, t) && s.Phase(d, t).Taken?
    ensures Discipline(g, SetPhase(s, d, t, Settled))
  {
    var s' := SetPhase(s, d, t, Settled);
    assert OnlyEdge(s, s', d, t) && s'.Phase(d, t).Settled?;
    assert SomeTaken(g, s, t) && AllSettled(g, s', t);
    SameClaimsSamePending(g, s, s');
    OneEdgeKeepsDiscipline(g, s, s', d, t);
  }

  /** Moving a waiting edge into the queue, to the proxy or out of the way claims nothing. */
  lemma ParkingKeepsDiscipline(g: Graph, s: State, d: Task, t: Task, p: Phase)
    requires g.WellFormed() && Discipline(g, s) && g.HasEdge(d, t) && d in s.ranBy
    requires s.Phase(d, t).Waiting? && (p.Held? || p.Proxied? || p.LeftOut?)
    ensures Discipline(g, SetPhase(s, d, t, p))
  {
    var s' := SetPhase(s, d, t, p);
    assert OnlyEdge(s, s', d, t) && s'.Phase(d, t) == p;
    LastEdge(g, s, d, t);
    assert !AllSettled(g, s', t) && !SomeTaken(g, s', t);
    SameClaimsSamePending(g, s, s');
    OneEdgeKeepsDiscipline(g, s, s', d, t);
  }

  lemma SameClaimsSamePending(g: Graph, s: State, s': State)
    requires g.WellFormed() && PendingOnce(g, s)
    requires s'.pending == s.pending && s'.claimCount == s.claimCount && s'.runCount == s.runCount
    requires s'.failed <= s'.pending
    ensures PendingOnce(g, s')
  {
    forall t | t in g.tasks && s'.Claims(t) == 1 && s'.Runs(t) == 0 ensures HasPending(s', t) {
      assert HasPending(s, t);
    }
  }

  /** What has to be shown when no edge changes and nothing new is claimed. */
  lemma SameEdgesKeepDiscipline(g: Graph, s: State, s': State)
    requires g.WellFormed() && Discipline(g, s)
    requires s'.phase == s.phase && s'.claimCount == s.claimCount
    requires s.ranBy.Keys <= s'.ranBy.Keys
    requires PendingOnce(g, s') && RunsWithinClaims(g, s')
    ensures Discipline(g, s')
  {
    hide PendingOnce, RunsWithinClaims;
    assert SameEdges(s, s');
    forall t | t in g.tasks ensures s'.Claims(t) == Due(g, s', t) {
      assert s'.Claims(t) == s.Claims(t);
      assert Due(g, s', t) == Due(g, s, t);
    }
  }

  /** Steps that touch no edge, claim or run. */
  lemma QuietKeepsDiscipline(g: Graph, s: State, s': State)
    requires g.WellFormed() && Discipline(g, s)
    requires s'.phase == s.phase && s'.claimCount == s.claimCount && s'.pending == s.pending
    requires s'.runCount == s.runCount && s'.ranBy == s.ranBy && s'.failed <= s.pending
    ensures Discipline(g, s')
  {
    SameClaimsSamePending(g, s, s');
    assert forall t :: s'.Runs(t) == s.Runs(t) && s'.Claims(t) == s.Claims(t);
    SameEdgesKeepDiscipline(g, s, s');
  }

  /** The claim c is used up by running its task. */
  lemma RunningKeepsOthersPending(g: Graph, s: State, s': State, c: Claim, t: Task)
    requires g.WellFormed() && PendingOnce(g, s) && c in s.pending && t in g.tasks
    requires s'.pending == s.pending - {c} && s.Claims(t) == 1 && s.Runs(t) == 0 && t != c.task
    ensures HasPending(s', t)
  {
    assert HasPending(s, t);
    var c' :| c' in s.pending && c'.task == t;
    assert c' in s'.pending;
  }

  lemma RunningKeepsPending(g: Graph, s: State, s': State, c: Claim)
    requires g.WellFormed() && PendingOnce(g, s) && RunsWithinClaims(g, s) && c in s.pending && c !in s.failed
    requires s'.failed == s.failed
    requires s'.claimCount == s.claimCount && s'.pending == s.pending - {c}
    requires s'.runCount == s.runCount[c.task := s.Runs(c.task) + 1] && s'.ranBy == s.ranBy[c.task := c.exec]
    ensures PendingOnce(g, s') && RunsWithinClaims(g, s')
  {
    assert forall t: Task :: s'.Runs(t) == if t == c.task then 1 else s.Runs(t);
    assert forall t: Task :: s'.Claims(t) == s.Claims(t);
    hide HasPending;
    forall t | t in g.tasks && s'.Claims(t) == 1 && s'.Runs(t) == 0 ensures HasPending(s', t) {
      RunningKeepsOthersPending(g, s, s', c, t);
    }
  }

  lemma RunningKeepsDiscipline(g: Graph, s: State, s': State, c: Claim)
    requires g.WellFormed() && Discipline(g, s) && c in s.pending && c !in s.failed && s'.failed == s.failed
    requires s'.phase == s.phase && s'.claimCount == s.claimCount && s'.pending == s.pending - {c}
    requires s'.runCount == s.runCount[c.task := s.Runs(c.task) + 1] && s'.ranBy == s.ranBy[c.task := c.exec]
    ensures Discipline(g, s')
  {
    hide EdgesFollowRuns, TakenIsLast, ClaimedWhenDue, PendingOnce, RunsWithinClaims;
    RunningKeepsPending(g, s, s', c);
    hide Discipline;
    SameEdgesKeepDiscipline(g, s, s');
  }

  lemma ExecuteKeepsDiscipline(g: Graph, s: State, c: Claim)
    requires g.WellFormed() && Discipline(g, s) && Enabled(g, s, Execute(c))
    ensures Discipline(g, Apply(g, s, Execute(c)))
  {
    hide Discipline, Inputs;
    RunningKeepsDiscipline(g, s, Apply(g, s, Execute(c)), c);
  }

  /** A claim that changes hands stays the one claim of its task. */
  lemma MovedClaimKeepsPending(g: Graph, s: State, s': State, c: Claim, moved: Claim)
    requires g.WellFormed() && PendingOnce(g, s) && c in s.pending && c !in s.failed && s'.failed == s.failed && moved.task == c.task
    requires s'.pending == s.pending - {c} + {moved}
    requires s'.claimCount == s.claimCount && s'.runCount == s.runCount
    ensures PendingOnce(g, s')
  {
    assert forall t :: s'.Runs(t) == s.Runs(t) && s'.Claims(t) == s.Claims(t);
    forall t | t in g.tasks && s'.Claims(t) == 1 && s'.Runs(t) == 0 ensures HasPending(s', t) {
      assert HasPending(s, t);
      var c' :| c' in s.pending && c'.task == t;
      assert c' in s'.pending || moved in s'.pending;
    }
  }

  lemma MovedClaimKeepsDiscipline(g: Graph, s: State, s': State, c: Claim, moved: Claim)
    requires g.WellFormed() && Discipline(g, s) && c in s.pending && c !in s.failed && s'.failed == s.failed && moved.task == c.task
    requires s'.pending == s.pending - {c} + {moved}
    requires s'.phase == s.phase && s'.claimCount == s.claimCount
    requires s'.runCount == s.runCount && s'.ranBy == s.ranBy
    ensures Discipline(g, s')
  {
    hide EdgesFollowRuns, TakenIsLast, ClaimedWhenDue, PendingOnce;
    MovedClaimKeepsPending(g, s, s', c, moved);
    assert forall t :: s'.Runs(t) == s.Runs(t) && s'.Claims(t) == s.Claims(t);
    assert RunsWithinClaims(g, s');
    hide Discipline, RunsWithinClaims;
    SameEdgesKeepDiscipline(g, s, s');
  }

  /** The steps that count an edge and owe nothing. */
  predicate Counts(step: Step) { step.Count? || step.CountSent? || step.ProxyCount? }

  /** The claim that a count makes if it is the last. */
  function CountingClaim(step: Step): Claim
    requires Counts(step)
  {
    match step
    case Count(e, _, t, mobile) => Claim(t, e, mobile)
    case CountSent(e, _, t) => Claim(t, e, false)
    case ProxyCount(p, _, t) => Claim(t, p, true)
  }

  lemma CountApplied(g: Graph, s: State, step: Step)
    requires g.WellFormed() && Counts(step) && Enabled(g, s, step)
    ensures g.HasEdge(step.d, step.t) && Apply(g, s, step) == CountEdge(g, s, step.d, CountingClaim(step))
    ensures !s.Phase(step.d, step.t).Settled? && !s.Phase(step.d, step.t).Taken?
    ensures step.ProxyCount? || s.Owns(step.e, step.d)
    ensures step.ProxyCount? ==> s.Phase(step.d, step.t).Proxied?
  {
    hide CountEdge;
  }

  lemma CountKeepsDiscipline(g: Graph, s: State, step: Step)
    requires g.WellFormed() && Discipline(g, s) && Counts(step) && Enabled(g, s, step)
    ensures Discipline(g, Apply(g, s, step))
  {
    CountApplied(g, s, step);
    assert step.d in s.ranBy;
    hide Apply, Enabled, Discipline, CountEdge;
    CountingKeepsDiscipline(g, s, step.d, CountingClaim(step));
  }

  /** Counting without a stored value differs from counting only in what is owed. */
  lemma CountOwingApplied(g: Graph, s: State, e: Exec, d: Task, t: Task)
    requires g.WellFormed() && Enabled(g, s, CountOwing(e, d, t))
    ensures var s', c := Apply(g, s, CountOwing(e, d, t)), CountEdge(g, s, d, Claim(t, e, false));
            && s' == c.(owed := s'.owed) && c.owed == s.owed
            && s'.owed == if Completes(g, s, d, t) then s.owed
                          else s.owed[Edge(d, t) := if s.Phase(d, t).Held? then s.Phase(d, t).held else s.Cached(e)[d]]
  {
    hide Completes, Done, CountEdge;
    CountEdgeSettles(g, s, d, Claim(t, e, false));
  }

  lemma CountOwingKeepsDiscipline(g: Graph, s: State, e: Exec, d: Task, t: Task)
    requires g.WellFormed() && Discipline(g, s) && Enabled(g, s, CountOwing(e, d, t))
    ensures Discipline(g, Apply(g, s, CountOwing(e, d, t)))
  {
    assert d in s.ranBy;
    hide Discipline, Apply, CountEdge;
    CountingKeepsDiscipline(g, s, d, Claim(t, e, false));
    CountOwingApplied(g, s, e, d, t);
    QuietKeepsDiscipline(g, CountEdge(g, s, d, Claim(t, e, false)), Apply(g, s, CountOwing(e, d, t)));
  }

  /** The steps that set an own edge's phase and do nothing else. */
  predicate Parks(step: Step) { step.Hold? || step.Delegate? || step.LeaveOut? }

  ghost function ParkedPhase(s: State, step: Step): Phase
    requires Parks(step) && (step.Hold? ==> step.d in s.Cached(step.e))
  {
    if step.Hold? then Held(s.Cached(step.e)[step.d]) else if step.Delegate? then Proxied else LeftOut
  }

  lemma ParkApplied(g: Graph, s: State, step: Step)
    requires g.WellFormed() && Parks(step) && Enabled(g, s, step)
    ensures g.HasEdge(step.d, step.t) && s.Owns(step.e, step.d) && s.Phase(step.d, step.t).Waiting?
    ensures step.Hold? ==> step.d in s.Cached(step.e)
    ensures Apply(g, s, step) == SetPhase(s, step.d, step.t, ParkedPhase(s, step))
  {
    hide SetPhase;
  }

  lemma ParkKeepsDiscipline(g: Graph, s: State, step: Step)
    requires g.WellFormed() && Discipline(g, s) && Parks(step) && Enabled(g, s, step)
    ensures Discipline(g, Apply(g, s, step))
  {
    ParkApplied(g, s, step);
    hide Apply, Enabled, Discipline, SetPhase;
    ParkingKeepsDiscipline(g, s, step.d, step.t, ParkedPhase(s, step));
  }

  /** Steps that move no edge and use up no claim. */
  predicate Quiet(step: Step) {
    || step.Fetch? || step.Put? || step.Send? || step.ProxyPut? || step.Pay? || step.Evict? || step.Drop? || step.Quit?
    || step.GiveUp? || step.Resume?
  }

  lemma QuietApplied(g: Graph, s: State, step: Step)
    requires g.WellFormed() && Quiet(step) && Enabled(g, s, step)
    ensures var s' := Apply(g, s, step);
            && s'.phase == s.phase && s'.claimCount == s.claimCount && s'.pending == s.pending
            && s'.runCount == s.runCount && s'.ranBy == s.ranBy && s'.made == s.made && (s.failed <= s.pending ==> s'.failed <= s.pending)
            && (!step.Evict? ==> NothingLost(s, s') && forall e: Exec, d: Task :: d in s.Cached(e) ==> d in s'.Cached(e))
  {
    hide Graph.WellFormed, State.Used;
    match step
    case Fetch(_, _) =>
    case Put(_, _) =>
    case Send(_, _) =>
    case ProxyPut(_, _) =>
    case Pay(_, _) =>
    case Evict(_, _) =>
    case Drop(_) =>
    case Quit(_) =>
    case GiveUp(_) =>
    case Resume(_) =>
  }

  lemma QuietStepKeepsDiscipline(g: Graph, s: State, step: Step)
    requires g.WellFormed() && Discipline(g, s) && Enabled(g, s, step) && Quiet(step)
    ensures Discipline(g, Apply(g, s, step))
  {
    QuietApplied(g, s, step);
    hide Apply, Enabled;
    QuietKeepsDiscipline(g, s, Apply(g, s, step));
  }

  lemma InvokeKeepsDiscipline(g: Graph, s: State, step: Step)
    requires g.WellFormed() && Discipline(g, s) && step.Invoke? && Enabled(g, s, step)
    ensures Discipline(g, Apply(g, s, step))
  {
    MovedClaimKeepsDiscipline(g, s, Apply(g, s, step), step.c, Claim(step.c.task, step.e', true));
  }

  /** Safety, step by step: whatever one process does, no task gains a second claim
      or a claim before its dependencies ran. */
  lemma StepKeepsDiscipline(g: Graph, s: State, step: Step)
    requires g.WellFormed() && Discipline(g, s) && Enabled(g, s, step)
    ensures Discipline(g, Apply(g, s, step))
  {
    hide Discipline, Apply, Enabled;
    if Quiet(step) {
      QuietStepKeepsDiscipline(g, s, step);
    } else if Counts(step) {
      CountKeepsDiscipline(g, s, step);
    } else if Parks(step) {
      ParkKeepsDiscipline(g, s, step);
    } else if step.Execute? {
      ExecuteKeepsDiscipline(g, s, step.c);
    } else if step.Invoke? {
      InvokeKeepsDiscipline(g, s, step);
    } else if step.CountOwing? {
      CountOwingKeepsDiscipline(g, s, step.e, step.d, step.t);
    } else {
      TakingKeepsDiscipline(g, s, step);
    }
  }

  lemma TakingKeepsDiscipline(g: Graph, s: State, step: Step)
    requires g.WellFormed() && Discipline(g, s) && Enabled(g, s, step) && (step.Peek? || step.Bookkeep?)
    ensures Discipline(g, Apply(g, s, step))
  {
    if step.Peek? {
      PeekKeepsDiscipline(g, s, step.d, step.t, Claim(step.t, step.e, false));
    } else {
      BookkeepKeepsDiscipline(g, s, step.d, step.t);
    }
  }

  // ---- Every step keeps the values right -------------------------------------

  lemma InitSupply(g: Graph, lambda: map<Task, Exec>)
    requires g.WellFormed() && g.tasks <= lambda.Keys
    ensures Supply(g, Init(g, lambda))
  {
  }

  /** Values stay right if what is new is right and what has run stays run. */
  lemma RightValuesStay(g: Graph, s: State, s': State)
    requires g.WellFormed() && ValuesRight(g, s) && s.ranBy.Keys <= s'.ranBy.Keys
    requires forall t :: t in s'.store ==> (t in s.store && s'.store[t] == s.store[t]) || Right(g, s', t, s'.store[t])
    requires forall e, t :: t in s'.Cached(e) ==>
               (t in s.Cached(e) && s'.Cached(e)[t] == s.Cached(e)[t]) || Right(g, s', t, s'.Cached(e)[t])
    requires s.made.Keys <= s'.made.Keys && forall t :: t in s'.ranBy ==> t in s.ranBy || t in s'.made
    requires forall t :: t in s'.made ==> (t in s.made && s'.made[t] == s.made[t]) || Right(g, s', t, s'.made[t])
    requires forall edge :: edge in s'.owed ==>
               (edge in s.owed && s'.owed[edge] == s.owed[edge]) || Right(g, s', edge.src, s'.owed[edge])
    requires forall d, t :: g.HasEdge(d, t) ==> s'.Phase(d, t) == s.Phase(d, t) || PhaseRight(g, s', d, t)
    requires forall t :: t in s'.sent ==> (t in s.sent && s'.sent[t] == s.sent[t]) || Right(g, s', t, s'.sent[t])
    ensures ValuesRight(g, s')
  {
    forall t ensures StoreRight(g, s', t) { assert StoreRight(g, s, t); }
    forall e, t ensures CacheRight(g, s', e, t) { assert CacheRight(g, s, e, t); }
    forall t ensures MadeRight(g, s', t) {
      assert MadeRight(g, s, t);
    }
    forall edge ensures OwedRight(g, s', edge) { assert OwedRight(g, s, edge); }
    forall d, t ensures PhaseRight(g, s', d, t) { assert PhaseRight(g, s, d, t); }
    forall t ensures SentRight(g, s', t) { assert SentRight(g, s, t); }
  }

  lemma ExecutedValueRight(g: Graph, s: State, c: Claim)
    requires g.WellFormed() && ValuesRight(g, s) && Enabled(g, s, Execute(c))
    ensures g.code[c.task](Inputs(g, s, c)) == g.Eval(c.task)
  {
    var inputs := Inputs(g, s, c);
    forall d | d in g.deps[c.task] ensures inputs[d] == g.Eval(d) {
      assert CacheRight(g, s, c.exec, d);
    }
    assert inputs == map d | d in g.deps[c.task] :: g.Eval(d);
  }

  lemma ExecuteKeepsValuesRight(g: Graph, s: State, c: Claim)
    requires g.WellFormed() && ValuesRight(g, s) && Enabled(g, s, Execute(c))
    ensures ValuesRight(g, Apply(g, s, Execute(c)))
  {
    ExecutedValueRight(g, s, c);
    hide ValuesRight;
    var s' := Apply(g, s, Execute(c));
    assert Right(g, s', c.task, g.Eval(c.task));
    RightValuesStay(g, s, s');
  }

  lemma InvokeKeepsValuesRight(g: Graph, s: State, step: Step)
    requires g.WellFormed() && ValuesRight(g, s) && step.Invoke? && Enabled(g, s, step)
    ensures ValuesRight(g, Apply(g, s, step))
  {
    forall k | k in step.data ensures Right(g, s, k, step.data[k]) {
      assert StoreRight(g, s, k) && CacheRight(g, s, step.e, k);
    }
    hide ValuesRight;
    RightValuesStay(g, s, Apply(g, s, step));
  }

  lemma CachingKeepsValuesRight(g: Graph, s: State, step: Step)
    requires g.WellFormed() && ValuesRight(g, s) && Enabled(g, s, step)
    requires step.Fetch? || step.Evict? || step.Drop? || step.Quit? || step.GiveUp? || step.Resume?
    ensures ValuesRight(g, Apply(g, s, step))
  {
    var s' := Apply(g, s, step);
    if step.Fetch? || step.Evict? {
      if step.Fetch? { assert StoreRight(g, s, step.d); }
      hide ValuesRight;
      RightValuesStay(g, s, s');
    } else {
      assert s' == s.(failed := s'.failed, gone := s'.gone, givingUp := s'.givingUp);
      hide Apply, Enabled;
      SameValuesRight(g, s, s');
    }
  }

  lemma SameValuesRight(g: Graph, s: State, s': State)
    requires g.WellFormed() && ValuesRight(g, s) && s' == s.(failed := s'.failed, gone := s'.gone, givingUp := s'.givingUp)
    ensures ValuesRight(g, s')
  {
    hide ValuesRight;
    assert SameEdges(s, s');
    assert forall e: Exec :: s'.Cached(e) == s.Cached(e);
    RightValuesStay(g, s, s');
  }

  /** A right value is stored, or published, and perhaps a debt is paid. */
  lemma RightValueStored(g: Graph, s: State, s': State, d: Task, v: Value)
    requires g.WellFormed() && ValuesRight(g, s) && Right(g, s, d, v)
    requires s'.store == s.store[d := v] || s'.store == s.store
    requires s'.sent == s.sent[d := v] || s'.sent == s.sent
    requires s'.cache == s.cache && s'.made == s.made && s'.ranBy == s.ranBy && s'.phase == s.phase
    requires forall edge :: edge in s'.owed ==> edge in s.owed && s'.owed[edge] == s.owed[edge]
    ensures ValuesRight(g, s')
  {
    hide ValuesRight;
    assert SameEdges(s, s');
    RightValuesStay(g, s, s');
  }

  lemma StoringKeepsValuesRight(g: Graph, s: State, step: Step)
    requires g.WellFormed() && ValuesRight(g, s) && Enabled(g, s, step)
    requires step.Put? || step.Send? || step.ProxyPut? || step.Pay?
    ensures ValuesRight(g, Apply(g, s, step))
  {
    if step.Pay? {
      assert OwedRight(g, s, step.edge);
      hide ValuesRight, Right;
      RightValueStored(g, s, Apply(g, s, step), step.edge.src, s.owed[step.edge]);
    } else if step.ProxyPut? {
      assert SentRight(g, s, step.d);
      hide ValuesRight, Right;
      RightValueStored(g, s, Apply(g, s, step), step.d, s.sent[step.d]);
    } else {
      assert MadeRight(g, s, step.d);
      hide ValuesRight, Right;
      RightValueStored(g, s, Apply(g, s, step), step.d, s.made[step.d]);
    }
  }

  lemma EdgeKeepsValuesRight(g: Graph, s: State, s': State, d: Task, t: Task)
    requires g.WellFormed() && ValuesRight(g, s) && OnlyEdge(s, s', d, t) && PhaseRight(g, s', d, t)
    requires s'.store == s.store && s'.cache == s.cache && s'.made == s.made && s'.owed == s.owed && s'.ranBy == s.ranBy
    requires s'.sent == s.sent
    ensures ValuesRight(g, s')
  {
    hide ValuesRight, PhaseRight, Right;
    RightValuesStay(g, s, s');
  }

  lemma ClaimingMovesNoEdge(s: State, c: Claim)
    ensures var s' := AddClaim(s, c);
            && SameEdges(s, s') && s'.store == s.store && s'.cache == s.cache && s'.made == s.made && s'.owed == s.owed
            && s'.ranBy == s.ranBy && s'.sent == s.sent && s'.failed == s.failed && s'.gone == s.gone && s'.givingUp == s.givingUp
  {
  }

  lemma CountEdgeSettles(g: Graph, s: State, d: Task, c: Claim)
    requires g.WellFormed() && c.task in g.tasks
    ensures var s' := CountEdge(g, s, d, c);
            && OnlyEdge(s, s', d, c.task) && s'.Phase(d, c.task).Settled? && s'.store == s.store
            && s'.cache == s.cache && s'.made == s.made && s'.owed == s.owed && s'.ranBy == s.ranBy
            && s'.sent == s.sent && s'.failed == s.failed && s'.gone == s.gone && s'.givingUp == s.givingUp
  {
    hide Completes, SetPhase, AddClaim, Graph.WellFormed;
    ClaimingMovesNoEdge(SetPhase(s, d, c.task, Settled), c);
    SetPhaseMoves(s, d, c.task, Settled);
  }

  lemma CountingKeepsValuesRight(g: Graph, s: State, d: Task, c: Claim)
    requires g.WellFormed() && ValuesRight(g, s) && g.HasEdge(d, c.task)
    ensures ValuesRight(g, CountEdge(g, s, d, c))
  {
    hide ValuesRight, CountEdge, Right, OnlyEdge;
    CountEdgeSettles(g, s, d, c);
    EdgeKeepsValuesRight(g, s, CountEdge(g, s, d, c), d, c.task);
  }

  lemma TakingKeepsValuesRight(g: Graph, s: State, step: Step)
    requires g.WellFormed() && ValuesRight(g, s) && Enabled(g, s, step)
    requires step.Peek? || step.Bookkeep?
    ensures ValuesRight(g, Apply(g, s, step))
  {
    hide ValuesRight, Completes;
    RightValuesStay(g, s, Apply(g, s, step));
  }

  lemma OpenEdgeRight(g: Graph, s: State, e: Exec, d: Task, t: Task)
    requires g.WellFormed() && ValuesRight(g, s) && Enabled(g, s, CountOwing(e, d, t))
    ensures Right(g, s, d, if s.Phase(d, t).Held? then s.Phase(d, t).held else s.Cached(e)[d])
  {
    hide Right;
    assert PhaseRight(g, s, d, t) && CacheRight(g, s, e, d);
  }

  lemma CountOwingKeepsValuesRight(g: Graph, s: State, e: Exec, d: Task, t: Task)
    requires g.WellFormed() && ValuesRight(g, s) && Enabled(g, s, CountOwing(e, d, t))
    ensures ValuesRight(g, Apply(g, s, CountOwing(e, d, t)))
  {
    hide ValuesRight, Completes, Apply, CountEdge;
    OpenEdgeRight(g, s, e, d, t);
    CountingKeepsValuesRight(g, s, d, Claim(t, e, false));
    CountOwingApplied(g, s, e, d, t);
    CountEdgeSettles(g, s, d, Claim(t, e, false));
    RightValuesStay(g, CountEdge(g, s, d, Claim(t, e, false)), Apply(g, s, CountOwing(e, d, t)));
  }

  lemma ParkKeepsValuesRight(g: Graph, s: State, step: Step)
    requires g.WellFormed() && ValuesRight(g, s) && Parks(step) && Enabled(g, s, step)
    ensures ValuesRight(g, Apply(g, s, step))
  {
    ParkApplied(g, s, step);
    assert CacheRight(g, s, step.e, step.d);
    hide ValuesRight, SetPhase, OnlyEdge, Apply, Enabled;
    SetPhaseMoves(s, step.d, step.t, ParkedPhase(s, step));
    EdgeKeepsValuesRight(g, s, SetPhase(s, step.d, step.t, ParkedPhase(s, step)), step.d, step.t);
  }

  lemma CountKeepsValuesRight(g: Graph, s: State, step: Step)
    requires g.WellFormed() && ValuesRight(g, s) && Counts(step) && Enabled(g, s, step)
    ensures ValuesRight(g, Apply(g, s, step))
  {
    CountApplied(g, s, step);
    hide Apply, Enabled, ValuesRight, CountEdge;
    CountingKeepsValuesRight(g, s, step.d, CountingClaim(step));
  }

  lemma StepKeepsValuesRight(g: Graph, s: State, step: Step)
    requires g.WellFormed() && ValuesRight(g, s) && Enabled(g, s, step)
    ensures ValuesRight(g, Apply(g, s, step))
  {
    hide ValuesRight, Apply, Enabled;
    if step.Put? || step.Send? || step.ProxyPut? || step.Pay? {
      StoringKeepsValuesRight(g, s, step);
    } else if Quiet(step) {
      CachingKeepsValuesRight(g, s, step);
    } else if Counts(step) {
      CountKeepsValuesRight(g, s, step);
    } else if Parks(step) {
      ParkKeepsValuesRight(g, s, step);
    } else if step.Execute? {
      ExecuteKeepsValuesRight(g, s, step.c);
    } else if step.Invoke? {
      InvokeKeepsValuesRight(g, s, step);
    } else if step.CountOwing? {
      CountOwingKeepsValuesRight(g, s, step.e, step.d, step.t);
    } else {
      TakingKeepsValuesRight(g, s, step);
    }
  }

  // ---- Every step keeps the inputs of claimed tasks within reach -------------

  /** Nothing that some task may still need has been lost between s and s'. */
  ghost predicate NothingLost(s: State, s': State) {
    && s.store.Keys <= s'.store.Keys && s.sent.Keys <= s'.sent.Keys && s.failed <= s'.failed
    && (forall edge :: edge in s.owed && edge !in s'.owed ==> edge.src in s'.store)
  }

  lemma StaysStoredOrOwed(s: State, s': State, d: Task, t: Task)
    requires NothingLost(s, s') && StoredOrOwed(s, d, t)
    ensures StoredOrOwed(s', d, t)
  {
    if Edge(d, t) in s.owed && Edge(d, t) !in s'.owed {
      assert Edge(d, t).src in s'.store;
    }
  }

  lemma StaysComing(s: State, s': State, d: Task, t: Task)
    requires NothingLost(s, s') && Coming(s, d, t)
    ensures Coming(s', d, t)
  {
    if StoredOrOwed(s, d, t) { StaysStoredOrOwed(s, s', d, t); }
  }

  /** Steps that claim and run nothing.  An edge that becomes settled has its value
      stored or owed, or its task claimed already. */
  lemma SpreadingKeepsReach(g: Graph, s: State, s': State)
    requires g.WellFormed() && WithinReach(g, s) && NothingLost(s, s')
    requires forall e: Exec, d: Task :: d in s.Cached(e) ==> d in s'.Cached(e)
    requires s'.claimCount == s.claimCount && s'.runCount == s.runCount && s'.ranBy == s.ranBy
    requires s'.pending == s.pending
    requires forall d, t :: g.HasEdge(d, t) && s'.Phase(d, t).Settled? ==>
               s.Phase(d, t).Settled? || s.Claims(t) > 0 || Coming(s', d, t)
    ensures WithinReach(g, s')
  {
    forall d, t ensures Retained(g, s', d, t) { assert Retained(g, s, d, t); }
    forall d, t ensures SettledStored(g, s', d, t) {
      assert SettledStored(g, s, d, t);
      if Coming(s, d, t) { StaysComing(s, s', d, t); }
    }
    forall c, d ensures Supplied(g, s', c, d) {
      assert Supplied(g, s, c, d);
      if Coming(s, d, c.task) { StaysComing(s, s', d, c.task); }
    }
  }

  /** t is claimed by c when d -> t settles or is taken and all other edges are settled. */
  lemma ClaimingKeepsReach(g: Graph, s: State, s': State, d: Task, t: Task, c: Claim)
    requires g.WellFormed() && WithinReach(g, s) && g.HasEdge(d, t) && c.task == t
    requires s.Claims(t) == 0 && OnlyEdge(s, s', d, t) && s'.sent == s.sent
    requires forall d' :: d' in g.deps[t] && d' != d ==> s.Phase(d', t).Settled?
    requires s'.store == s.store && s'.cache == s.cache && s'.owed == s.owed
    requires s'.ranBy == s.ranBy && s'.runCount == s.runCount
    requires s'.pending == s.pending + {c} && s'.claimCount == s.claimCount[t := 1]
    requires d in s.store || (!c.mobile && d in s.Cached(c.exec))
    ensures WithinReach(g, s')
  {
    forall d', t' ensures Retained(g, s', d', t') { assert Retained(g, s, d', t'); }
    forall d', t' ensures SettledStored(g, s', d', t') { assert SettledStored(g, s, d', t'); }
    forall c', d' ensures Supplied(g, s', c', d') {
      assert Supplied(g, s, c', d') && SettledStored(g, s, d', t);
    }
  }

  lemma QuietStepKeepsReach(g: Graph, s: State, step: Step)
    requires g.WellFormed() && WithinReach(g, s) && Enabled(g, s, step) && Quiet(step) && !step.Evict?
    ensures WithinReach(g, Apply(g, s, step))
  {
    QuietApplied(g, s, step);
    hide WithinReach, Apply, Enabled, NothingLost;
    assert SameEdges(s, Apply(g, s, step));
    SpreadingKeepsReach(g, s, Apply(g, s, step));
  }

  lemma ParkKeepsReach(g: Graph, s: State, step: Step)
    requires g.WellFormed() && WithinReach(g, s) && Parks(step) && Enabled(g, s, step)
    ensures WithinReach(g, Apply(g, s, step))
  {
    ParkApplied(g, s, step);
    hide WithinReach, Apply, Enabled, SetPhase;
    SetPhaseMoves(s, step.d, step.t, ParkedPhase(s, step));
    SpreadingKeepsReach(g, s, Apply(g, s, step));
  }

  lemma BookkeepKeepsReach(g: Graph, s: State, step: Step)
    requires g.WellFormed() && Discipline(g, s) && WithinReach(g, s) && step.Bookkeep? && Enabled(g, s, step)
    ensures WithinReach(g, Apply(g, s, step))
  {
    assert SomeTaken(g, s, step.t);
    hide Discipline;
    SpreadingKeepsReach(g, s, Apply(g, s, step));
  }

  /** d's producer still has d's value while a task downstream of d has not run. */
  lemma StillCached(g: Graph, s: State, e: Exec, d: Task, t: Task)
    requires g.WellFormed() && Discipline(g, s) && WithinReach(g, s) && Open(g, s, e, d, t)
    ensures s.Claims(t) == 0 && s.Runs(t) == 0 && d in s.Cached(e)
  {
    LastEdge(g, s, d, t);
    assert Retained(g, s, d, t);
  }

  lemma SettlingKeepsReach(g: Graph, s: State, d: Task, t: Task)
    requires g.WellFormed() && WithinReach(g, s) && (d in s.store || d in s.sent)
    ensures WithinReach(g, SetPhase(s, d, t, Settled))
  {
    hide WithinReach;
    SpreadingKeepsReach(g, s, SetPhase(s, d, t, Settled));
  }

  lemma LastCountKeepsReach(g: Graph, s: State, d: Task, c: Claim)
    requires g.WellFormed() && WithinReach(g, s) && g.HasEdge(d, c.task) && s.Claims(c.task) == 0
    requires Completes(g, s, d, c.task)
    requires d in s.store || (!c.mobile && d in s.Cached(c.exec))
    ensures WithinReach(g, CountEdge(g, s, d, c))
  {
    hide WithinReach;
    OthersSettled(g, s, d, c.task);
    ClaimingKeepsReach(g, s, CountEdge(g, s, d, c), d, c.task, c);
  }

  lemma CountingKeepsReach(g: Graph, s: State, d: Task, c: Claim)
    requires g.WellFormed() && Discipline(g, s) && WithinReach(g, s) && g.HasEdge(d, c.task)
    requires !s.Phase(d, c.task).Settled? && !s.Phase(d, c.task).Taken?
    requires d in s.store || (!c.mobile && d in s.Cached(c.exec) && (Completes(g, s, d, c.task) || d in s.sent))
    ensures WithinReach(g, CountEdge(g, s, d, c))
  {
    hide WithinReach;
    if Completes(g, s, d, c.task) {
      LastEdge(g, s, d, c.task);
      hide Discipline;
      LastCountKeepsReach(g, s, d, c);
    } else {
      hide Discipline;
      SettlingKeepsReach(g, s, d, c.task);
    }
  }

  lemma CountKeepsReach(g: Graph, s: State, step: Step)
    requires g.WellFormed() && Discipline(g, s) && WithinReach(g, s) && Counts(step) && Enabled(g, s, step)
    ensures WithinReach(g, Apply(g, s, step))
  {
    CountApplied(g, s, step);
    assert step.d in s.store || (step.CountSent? && step.d in s.sent && step.d in s.Cached(step.e));
    hide Apply, Enabled, Discipline, WithinReach, CountEdge;
    CountingKeepsReach(g, s, step.d, CountingClaim(step));
  }

  lemma OthersSettled(g: Graph, s: State, d: Task, t: Task)
    requires g.WellFormed() && g.HasEdge(d, t)
    requires Completes(g, s, d, t) || Done(g, s, t) == g.deps[t] - {d}
    ensures forall d' :: d' in g.deps[t] && d' != d ==> s.Phase(d', t).Settled?
  {
    forall d' | d' in g.deps[t] && d' != d ensures s.Phase(d', t).Settled? {
      assert d' in Done(g, s, t) + {d};
    }
  }

  lemma CountOwingKeepsReach(g: Graph, s: State, e: Exec, d: Task, t: Task)
    requires g.WellFormed() && Discipline(g, s) && WithinReach(g, s) && Enabled(g, s, CountOwing(e, d, t))
    ensures WithinReach(g, Apply(g, s, CountOwing(e, d, t)))
  {
    hide Discipline, WithinReach, Completes, Apply;
    StillCached(g, s, e, d, t);
    CountOwingApplied(g, s, e, d, t);
    if Completes(g, s, d, t) {
      CountingKeepsReach(g, s, d, Claim(t, e, false));
    } else {
      SpreadingKeepsReach(g, s, Apply(g, s, CountOwing(e, d, t)));
    }
  }

  lemma PeekApplied(g: Graph, s: State, e: Exec, d: Task, t: Task)
    requires g.WellFormed() && Enabled(g, s, Peek(e, d, t)) && s.Claims(t) == 0
    ensures var s' := Apply(g, s, Peek(e, d, t));
            && OnlyEdge(s, s', d, t) && s'.store == s.store && s'.cache == s.cache && s'.owed == s.owed
            && s'.ranBy == s.ranBy && s'.runCount == s.runCount && s'.sent == s.sent
            && s'.pending == s.pending + {Claim(t, e, false)} && s'.claimCount == s.claimCount[t := 1]
  {
    hide Done, SetPhase;
    SetPhaseMoves(s, d, t, Taken);
  }

  lemma PeekKeepsReach(g: Graph, s: State, e: Exec, d: Task, t: Task)
    requires g.WellFormed() && Discipline(g, s) && WithinReach(g, s) && Enabled(g, s, Peek(e, d, t))
    ensures WithinReach(g, Apply(g, s, Peek(e, d, t)))
  {
    hide Discipline, WithinReach, Apply, Done, OnlyEdge;
    StillCached(g, s, e, d, t);
    OthersSettled(g, s, d, t);
    PeekApplied(g, s, e, d, t);
    ClaimingKeepsReach(g, s, Apply(g, s, Peek(e, d, t)), d, t, Claim(t, e, false));
  }

  lemma RunningKeepsReach(g: Graph, s: State, s': State, c: Claim)
    requires g.WellFormed() && WithinReach(g, s) && s.Runs(c.task) == 0 && c.task !in s.ranBy
    requires s'.phase == s.phase && s'.claimCount == s.claimCount && s'.store == s.store && s'.owed == s.owed
    requires s'.pending == s.pending - {c} && s'.sent == s.sent
    requires s'.ranBy == s.ranBy[c.task := c.exec] && s'.runCount == s.runCount[c.task := 1]
    requires c.task in s'.Cached(c.exec) && forall e: Exec :: s.Cached(e).Keys <= s'.Cached(e).Keys
    ensures WithinReach(g, s')
  {
    forall d, t ensures Retained(g, s', d, t) { assert Retained(g, s, d, t); }
    forall d, t ensures SettledStored(g, s', d, t) { assert SettledStored(g, s, d, t); }
    forall c', d ensures Supplied(g, s', c', d) { assert Supplied(g, s, c', d); }
  }

  lemma ExecuteKeepsReach(g: Graph, s: State, c: Claim)
    requires g.WellFormed() && Discipline(g, s) && WithinReach(g, s) && Enabled(g, s, Execute(c))
    ensures WithinReach(g, Apply(g, s, Execute(c)))
  {
    assert s.Runs(c.task) == 0 && c.task !in s.ranBy;
    hide Discipline, WithinReach, Inputs;
    RunningKeepsReach(g, s, Apply(g, s, Execute(c)), c);
  }

  /** What may be evicted is needed by no task that has still to run. */
  lemma EvictableIsUnneeded(g: Graph, s: State, e: Exec, d: Task, t: Task)
    requires g.WellFormed() && Inv(g, s) && Enabled(g, s, Evict(e, d)) && g.HasEdge(d, t)
    ensures s.Runs(t) > 0 && forall c :: c in s.pending ==> c.task != t
  {
    hide WithinReach;
    assert t in g.Downstream(d) && StoreRight(g, s, t);
  }

  lemma DroppingKeepsReach(g: Graph, s: State, s': State, e: Exec, d: Task)
    requires g.WellFormed() && WithinReach(g, s)
    requires forall t :: g.HasEdge(d, t) ==> s.Runs(t) > 0 && forall c :: c in s.pending ==> c.task != t
    requires s' == s.(cache := s.cache[e := s.Cached(e) - {d}])
    ensures WithinReach(g, s')
  {
    forall d', t ensures Retained(g, s', d', t) { assert Retained(g, s, d', t); }
    forall d', t ensures SettledStored(g, s', d', t) { assert SettledStored(g, s, d', t); }
    forall c, d' ensures Supplied(g, s', c, d') { assert Supplied(g, s, c, d'); }
  }

  lemma EvictKeepsReach(g: Graph, s: State, e: Exec, d: Task)
    requires g.WellFormed() && Inv(g, s) && Enabled(g, s, Evict(e, d))
    ensures WithinReach(g, Apply(g, s, Evict(e, d)))
  {
    hide Discipline, WithinReach, ValuesRight;
    forall t | g.HasEdge(d, t) ensures s.Runs(t) > 0 && forall c :: c in s.pending ==> c.task != t {
      EvictableIsUnneeded(g, s, e, d, t);
    }
    DroppingKeepsReach(g, s, Apply(g, s, Evict(e, d)), e, d);
  }

  lemma InvokeKeepsReach(g: Graph, s: State, step: Step)
    requires g.WellFormed() && WithinReach(g, s) && step.Invoke? && Enabled(g, s, step)
    ensures WithinReach(g, Apply(g, s, step))
  {
    var s' := Apply(g, s, step);
    assert forall d :: d in s.ranBy ==> s.ranBy[d] != step.e';
    assert forall c :: c in s.pending ==> c.exec != step.e';
    forall d', t ensures Retained(g, s', d', t) { assert Retained(g, s, d', t); }
    forall d', t ensures SettledStored(g, s', d', t) { assert SettledStored(g, s, d', t); }
    forall c, d' ensures Supplied(g, s', c, d') {
      assert Supplied(g, s, c, d') && Supplied(g, s, step.c, d');
    }
  }

  lemma StepKeepsReach(g: Graph, s: State, step: Step)
    requires g.WellFormed() && Inv(g, s) && Enabled(g, s, step)
    ensures WithinReach(g, Apply(g, s, step))
  {
    hide Discipline, WithinReach, ValuesRight, Apply, Enabled;
    if step.Evict? {
      EvictKeepsReach(g, s, step.e, step.d);
    } else if Quiet(step) {
      QuietStepKeepsReach(g, s, step);
    } else if Counts(step) {
      CountKeepsReach(g, s, step);
    } else if Parks(step) {
      ParkKeepsReach(g, s, step);
    } else if step.Execute? {
      ExecuteKeepsReach(g, s, step.c);
    } else if step.Invoke? {
      InvokeKeepsReach(g, s, step);
    } else if step.CountOwing? {
      CountOwingKeepsReach(g, s, step.e, step.d, step.t);
    } else if step.Peek? {
      PeekKeepsReach(g, s, step.e, step.d, step.t);
    } else {
      BookkeepKeepsReach(g, s, step);
    }
  }

  // ---- Runs ------------------------------------------------------------------

  lemma StepKeepsInv(g: Graph, s: State, step: Step)
    requires g.WellFormed() && Inv(g, s) && Enabled(g, s, step)
    ensures Inv(g, Apply(g, s, step))
  {
    hide Discipline, WithinReach, ValuesRight, Apply, Enabled;
    StepKeepsDiscipline(g, s, step);
    StepKeepsValuesRight(g, s, step);
    StepKeepsReach(g, s, step);
  }

  lemma {:induction false} RunKeepsInv(g: Graph, s: State, steps: seq<Step>)
    requires g.WellFormed() && Inv(g, s) && CanRun(g, s, steps)
    ensures Inv(g, RunFrom(g, s, steps))
    decreases |steps|
  {
    hide Inv, Apply, Enabled;
    if steps != [] {
      StepKeepsInv(g, s, steps[0]);
      RunKeepsInv(g, Apply(g, s, steps[0]), steps[1..]);
    }
  }

  lemma {:induction false} RunsCompose(g: Graph, s: State, steps: seq<Step>, more: seq<Step>)
    requires g.WellFormed() && CanRun(g, s, steps) && CanRun(g, RunFrom(g, s, steps), more)
    ensures CanRun(g, s, steps + more) && RunFrom(g, s, steps + more) == RunFrom(g, RunFrom(g, s, steps), more)
    decreases |steps|
  {
    hide Apply, Enabled;
    if steps == [] {
      assert steps + more == more;
    } else {
      RunsCompose(g, Apply(g, s, steps[0]), steps[1..], more);
      assert (steps + more)[1..] == steps[1..] + more;
    }
  }

  lemma ReachesCompose(g: Graph, s: State, s': State, s'': State)
    requires g.WellFormed() && Reaches(g, s, s') && Reaches(g, s', s'')
    ensures Reaches(g, s, s'')
  {
    var steps :| CanRun(g, s, steps) && RunFrom(g, s, steps) == s';
    var more :| CanRun(g, s', more) && RunFrom(g, s', more) == s'';
    RunsCompose(g, s, steps, more);
  }

  lemma ReachesItself(g: Graph, s: State)
    requires g.WellFormed()
    ensures Reaches(g, s, s)
  {
    assert CanRun(g, s, []);
  }

  lemma StepReaches(g: Graph, s: State, step: Step)
    requires g.WellFormed() && Enabled(g, s, step)
    ensures Reaches(g, s, Apply(g, s, step))
  {
    hide Apply, Enabled;
    assert CanRun(g, Apply(g, s, step), []);
    assert [step][1..] == [];
    assert CanRun(g, s, [step]) && RunFrom(g, s, [step]) == Apply(g, s, step);
  }

  lemma ReachableInv(g: Graph, s: State)
    requires g.WellFormed() && Reachable(g, s)
    ensures Inv(g, s)
  {
    var lambda: map<Task, Exec> :| g.tasks <= lambda.Keys && PROXY !in lambda.Values && Reaches(g, Init(g, lambda), s);
    var steps :| CanRun(g, Init(g, lambda), steps) && RunFrom(g, Init(g, lambda), steps) == s;
    InitDiscipline(g, lambda);
    InitSupply(g, lambda);
    hide Discipline, Supply, Init, CanRun, RunFrom;
    RunKeepsInv(g, Init(g, lambda), steps);
  }

  // ---- Executors -------------------------------------------------------------

  lemma {:induction false} SomeUnused(s: set<Exec>) returns (e: Exec)
    ensures forall x :: x in s ==> x < e
    decreases |s|
  {
    if s == {} {
      e := 0;
    } else {
      var x :| x in s;
      var e' := SomeUnused(s - {x});
      e := if e' > x then e' else x + 1;
      assert forall y :: y in s ==> y == x || y in s - {x};
    }
  }

  lemma FreshExec(s: State) returns (e: Exec)
    ensures !s.Used(e)
  {
    var claimants := set c | c in s.pending :: c.exec;
    e := SomeUnused(s.cache.Keys + claimants + s.ranBy.Values + s.gone + {PROXY});
    assert forall c :: c in s.pending ==> c.exec in claimants;
    assert forall d :: d in s.ranBy ==> s.ranBy[d] in s.ranBy.Values;
    assert PROXY in {PROXY};
  }

  lemma OwnerUsed(s: State, e: Exec, d: Task)
    requires s.Owns(e, d)
    ensures s.Used(e)
  {
  }
}
