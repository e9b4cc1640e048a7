/** Building lawful runs: counting an edge however the plan has it counted, claiming a task by a
    chosen last edge, and running it. */
module LawfulRuns {
  import opened Graphs
  import opened Plans
  import opened FanIn
  import opened FanInSafety
  import opened FanInTheorems
  import opened LocalViews
  import opened Conduct

  // ---- Counting what is stored -----------------------------------------------

  /** y has run, and its value is where its edges can be counted. */
  ghost predicate Ready(plan: Plan, s: State, y: Task) {
    y in s.ranBy && y in s.store && (plan.FansOut(y) ==> y in s.sent)
  }

  /** Who makes the claim when y -> z is the last to be counted. */
  ghost function Counter(plan: Plan, s: State, y: Task, z: Task): Exec
    requires y in s.ranBy
  {
    if plan.ToProxy(y, z) then PROXY else s.ranBy[y]
  }

  ghost function ClaimFrom(plan: Plan, s: State, y: Task, z: Task): Claim
    requires y in s.ranBy
  {
    Claim(z, Counter(plan, s, y, z), plan.Mobile(y, z))
  }

  lemma SameCompletes(g: Graph, s: State, y: Task, z: Task, p: Phase)
    requires g.WellFormed() && z in g.tasks && !s.Phase(y, z).Settled? && !p.Settled?
    ensures Done(g, SetPhase(s, y, z, p), z) == Done(g, s, z)
  {
    SetPhaseMoves(s, y, z, p);
  }

  /** It makes no difference to a count that the edge was parked before. */
  lemma ParkThenCount(g: Graph, s: State, y: Task, c: Claim, p: Phase)
    requires g.WellFormed() && c.task in g.tasks && !s.Phase(y, c.task).Settled? && !p.Settled?
    ensures CountEdge(g, SetPhase(s, y, c.task, p), y, c) == CountEdge(g, s, y, c)
  {
    SameCompletes(g, s, y, c.task, p);
    hide Done;
    assert s.phase[Edge(y, c.task) := p][Edge(y, c.task) := Settled] == s.phase[Edge(y, c.task) := Settled];
  }

  /** Whoever has run a task has no claim, and nobody has ended or gives up. */
  ghost predicate Calm(plan: Plan, s: State)
    requires plan.g.WellFormed()
  {
    && Lawful(plan, s) && s.gone == {} && s.givingUp == {}
    && (forall c, x :: c in s.pending && x in s.ranBy ==> s.ranBy[x] != c.exec)
  }

  /** y's executor may count its edges. */
  ghost predicate FreeToCount(s: State, y: Task) {
    y in s.ranBy && s.gone == {} && s.ranBy[y] !in s.givingUp && NoClaims(s, s.ranBy[y])
  }

  lemma CountProxied(plan: Plan, s: State, y: Task, z: Task) returns (s': State)
    requires plan.g.WellFormed() && Lawful(plan, s) && FreeToCount(s, y) && plan.g.HasEdge(y, z)
    requires Ready(plan, s, y) && s.Phase(y, z).Waiting? && plan.ToProxy(y, z)
    ensures Lawful(plan, s') && s' == CountEdge(plan.g, s, y, ClaimFrom(plan, s, y, z))
  {
    hide Lawful, CountEdge;
    var s1 := LeaveToProxy(plan, s, y, z);
    SetPhaseMoves(s, y, z, Proxied);
    s' := CountByProxy(plan, s1, y, z);
    ParkThenCount(plan.g, s, y, ClaimFrom(plan, s, y, z), Proxied);
  }

  lemma LeaveToProxy(plan: Plan, s: State, y: Task, z: Task) returns (s': State)
    requires plan.g.WellFormed() && Lawful(plan, s) && FreeToCount(s, y) && plan.g.HasEdge(y, z)
    requires Ready(plan, s, y) && s.Phase(y, z).Waiting? && plan.ToProxy(y, z)
    ensures Lawful(plan, s') && s' == SetPhase(s, y, z, Proxied)
  {
    hide Lawful;
    var park := Delegate(s.ranBy[y], y, z);
    assert Enabled(plan.g, s, park) && Follows(plan, s, park);
    LawfulStep(plan, s, park);
    s' := Apply(plan.g, s, park);
  }

  lemma CountByProxy(plan: Plan, s: State, y: Task, z: Task) returns (s': State)
    requires plan.g.WellFormed() && Lawful(plan, s) && s.gone == {} && plan.g.HasEdge(y, z)
    requires Ready(plan, s, y) && s.Phase(y, z).Proxied? && plan.ToProxy(y, z)
    ensures Lawful(plan, s') && s' == CountEdge(plan.g, s, y, ClaimFrom(plan, s, y, z))
  {
    hide Lawful, CountEdge;
    var count := ProxyCount(PROXY, y, z);
    assert Enabled(plan.g, s, count) && Follows(plan, s, count);
    LawfulStep(plan, s, count);
    s' := Apply(plan.g, s, count);
  }

  lemma CountHeld(plan: Plan, s: State, y: Task, z: Task) returns (s': State)
    requires plan.g.WellFormed() && Lawful(plan, s) && FreeToCount(s, y) && plan.g.HasEdge(y, z)
    requires Ready(plan, s, y) && s.Phase(y, z).Waiting? && plan.Holdable(y, z)
    ensures Lawful(plan, s') && s' == CountEdge(plan.g, s, y, ClaimFrom(plan, s, y, z))
  {
    hide Lawful, CountEdge;
    var e := s.ranBy[y];
    var s1 := IntoQueue(plan, s, y, z);
    var count := Count(e, y, z, false);
    SetPhaseMoves(s, y, z, Held(s.Cached(e)[y]));
    assert Enabled(plan.g, s1, count) && Follows(plan, s1, count);
    LawfulStep(plan, s1, count);
    s' := Apply(plan.g, s1, count);
    ParkThenCount(plan.g, s, y, ClaimFrom(plan, s, y, z), Held(s.Cached(e)[y]));
  }

  lemma OwnerHasValue(plan: Plan, s: State, y: Task, z: Task)
    requires plan.g.WellFormed() && Lawful(plan, s) && plan.g.HasEdge(y, z) && y in s.ranBy && s.Phase(y, z).Waiting?
    ensures y in s.Cached(s.ranBy[y]) && y in s.made && s.Runs(z) == 0 && s.Claims(z) == 0 && s.ranBy[y] != PROXY
  {
    hide Lawful, Discipline, WithinReach, ValuesRight, EdgesInPlace;
    LawfulInv(plan, s);
    LawfulLawInv(plan, s);
    assert MadeRight(plan.g, s, y) by { assert Supply(plan.g, s) && ValuesRight(plan.g, s); Made(plan.g, s, y); }
    StillCached(plan.g, s, s.ranBy[y], y, z);
  }

  lemma Made(g: Graph, s: State, y: Task)
    requires g.WellFormed() && ValuesRight(g, s)
    ensures MadeRight(g, s, y)
  {
  }

  lemma IntoQueue(plan: Plan, s: State, y: Task, z: Task) returns (s': State)
    requires plan.g.WellFormed() && Lawful(plan, s) && FreeToCount(s, y) && plan.g.HasEdge(y, z)
    requires s.Phase(y, z).Waiting? && plan.Holdable(y, z)
    ensures y in s.Cached(s.ranBy[y])
    ensures Lawful(plan, s') && s' == SetPhase(s, y, z, Held(s.Cached(s.ranBy[y])[y]))
  {
    hide Lawful, SetPhase;
    OwnerHasValue(plan, s, y, z);
    var step := Hold(s.ranBy[y], y, z);
    assert Enabled(plan.g, s, step) && Follows(plan, s, step);
    LawfulStep(plan, s, step);
    s' := Apply(plan.g, s, step);
  }

  /** However the plan has y -> z counted, it can be counted now. */
  lemma CountStored(plan: Plan, s: State, y: Task, z: Task) returns (s': State)
    requires plan.g.WellFormed() && Lawful(plan, s) && FreeToCount(s, y) && plan.g.HasEdge(y, z)
    requires Ready(plan, s, y) && s.Phase(y, z).Waiting?
    ensures Lawful(plan, s') && s' == CountEdge(plan.g, s, y, ClaimFrom(plan, s, y, z))
  {
    if plan.ToProxy(y, z) {
      s' := CountProxied(plan, s, y, z);
    } else if plan.Holdable(y, z) {
      s' := CountHeld(plan, s, y, z);
    } else {
      hide Lawful, CountEdge;
      var step := Count(s.ranBy[y], y, z, plan.Mobile(y, z));
      assert Enabled(plan.g, s, step) && Follows(plan, s, step);
      LawfulStep(plan, s, step);
      s' := Apply(plan.g, s, step);
    }
  }

  // ---- Claiming a task by a chosen last edge ---------------------------------

  /** From s to s', the edges from ys into z have been counted, and that is all. */
  ghost predicate OnlyCounted(s: State, s': State, ys: set<Task>, z: Task) {
    && s' == s.(phase := s'.phase)
    && (forall a: Task, b: Task :: s'.Phase(a, b) == if b == z && a in ys then Settled else s.Phase(a, b))
  }

  lemma {:induction false} CountAll(plan: Plan, s: State, ys: set<Task>, z: Task, last: Task) returns (s': State)
    requires plan.g.WellFormed() && Calm(plan, s) && z in plan.g.tasks
    requires last in plan.g.deps[z] && !s.Phase(last, z).Settled? && ys <= plan.g.deps[z] - {last}
    requires forall y :: y in ys ==> Ready(plan, s, y) && s.Phase(y, z).Waiting?
    ensures Calm(plan, s') && OnlyCounted(s, s', ys, z)
    decreases |ys|
  {
    hide Lawful, CountEdge, Plan.FansOut;
    s' := s;
    if ys != {} {
      var y :| y in ys;
      assert plan.g.HasEdge(y, z);
      var s1 := CountStored(plan, s, y, z);
      NotTheLast(plan.g, s, y, ClaimFrom(plan, s, y, z), last);
      s' := CountAll(plan, s1, ys - {y}, z, last);
    }
  }

  lemma NotTheLast(g: Graph, s: State, y: Task, c: Claim, last: Task)
    requires g.WellFormed() && g.HasEdge(y, c.task) && last in g.deps[c.task] && last != y && !s.Phase(last, c.task).Settled?
    ensures OnlyCounted(s, CountEdge(g, s, y, c), {y}, c.task)
  {
    assert last !in Done(g, s, c.task) + {y};
    hide Done;
    SetPhaseMoves(s, y, c.task, Settled);
  }

  /** From s to s', the claim c has been made, by edges into its task alone. */
  ghost predicate ClaimMade(s: State, s': State, c: Claim) {
    && s' == s.(phase := s'.phase, pending := s.pending + {c}, claimCount := s'.claimCount)
    && (forall a: Task, b: Task :: b != c.task ==> s'.Phase(a, b) == s.Phase(a, b))
  }

  lemma LastStored(plan: Plan, s: State, y: Task, z: Task) returns (s': State)
    requires plan.g.WellFormed() && Lawful(plan, s) && FreeToCount(s, y) && plan.g.HasEdge(y, z)
    requires Ready(plan, s, y) && s.Phase(y, z).Waiting? && Completes(plan.g, s, y, z)
    ensures Lawful(plan, s') && ClaimMade(s, s', ClaimFrom(plan, s, y, z))
  {
    hide Lawful;
    s' := CountStored(plan, s, y, z);
    SetPhaseMoves(s, y, z, Settled);
  }

  /** A check of d -> z, which is the last, by an executor that has not stored d's value. */
  lemma PeekLast(plan: Plan, s: State, d: Task, z: Task) returns (s': State)
    requires plan.g.WellFormed() && Lawful(plan, s) && s.gone == {} && s.givingUp == {} && plan.g.HasEdge(d, z)
    requires d in s.ranBy && d in plan.big && !plan.Missed(d, z)
    requires s.Phase(d, z).Held? || (s.Phase(d, z).Waiting? && NoDependentRan(plan.g, s, d))
    requires Done(plan.g, s, z) == plan.g.deps[z] - {d}
    ensures Lawful(plan, s') && ClaimMade(s, s', Claim(z, s.ranBy[d], false)) && s'.Phase(d, z).Taken?
    ensures forall a: Task, b: Task :: a != d || b != z ==> s'.Phase(a, b) == s.Phase(a, b)
  {
    hide Lawful, Done, NoDependentRan;
    var step := Peek(s.ranBy[d], d, z);
    assert Enabled(plan.g, s, step) && Follows(plan, s, step);
    LawfulStep(plan, s, step);
    s' := Apply(plan.g, s, step);
    SetPhaseMoves(s, d, z, Taken);
  }

  /** All in-edges of z wait, and all are ready to be counted. */
  ghost predicate CanBeLast(plan: Plan, s: State, y: Task, z: Task)
    requires plan.g.WellFormed()
  {
    plan.g.HasEdge(y, z) && forall x :: x in plan.g.deps[z] ==> s.Phase(x, z).Waiting? && Ready(plan, s, x)
  }

  lemma ClaimVia(plan: Plan, s: State, y: Task, z: Task) returns (s': State)
    requires plan.g.WellFormed() && Calm(plan, s) && CanBeLast(plan, s, y, z)
    ensures Lawful(plan, s') && ClaimMade(s, s', ClaimFrom(plan, s, y, z))
  {
    hide Lawful, Plan.FansOut;
    var s1 := CountAll(plan, s, plan.g.deps[z] - {y}, z, y);
    assert Done(plan.g, s1, z) == plan.g.deps[z] - {y};
    s' := LastStored(plan, s1, y, z);
  }

  // ---- Running a task --------------------------------------------------------

  lemma HandOff(plan: Plan, s: State, c: Claim) returns (s': State, e: Exec)
    requires plan.g.WellFormed() && Lawful(plan, s) && s.gone == {} && c in s.pending - s.failed && c.mobile && c.task in plan.g.tasks
    ensures Lawful(plan, s') && !s.Used(e)
    ensures s' == s.(pending := s.pending - {c} + {Claim(c.task, e, true)}, cache := s.cache[e := map[]])
  {
    hide Lawful;
    e := FreshExec(s);
    var step := Invoke(c.exec, e, c, map[]);
    assert Enabled(plan.g, s, step) && Follows(plan, s, step);
    LawfulStep(plan, s, step);
    s' := Apply(plan.g, s, step);
  }

  /** From s to s', e has read ys from the store, and that is all. */
  ghost predicate OnlyRead(s: State, s': State, e: Exec, ys: set<Task>) {
    && s' == s.(cache := s'.cache)
    && (forall e': Exec :: e' != e ==> s'.Cached(e') == s.Cached(e'))
    && s'.Cached(e).Keys == s.Cached(e).Keys + ys
  }

  lemma ReadOne(plan: Plan, s: State, e: Exec, y: Task) returns (s': State)
    requires plan.g.WellFormed() && Lawful(plan, s) && s.gone == {} && y in s.store
    ensures Lawful(plan, s') && OnlyRead(s, s', e, {y}) && s'.store == s.store && s'.gone == s.gone
  {
    hide Lawful;
    var step := Fetch(e, y);
    assert Enabled(plan.g, s, step) && Follows(plan, s, step);
    LawfulStep(plan, s, step);
    s' := Apply(plan.g, s, step);
  }

  lemma ReadMore(s: State, s1: State, s': State, e: Exec, y: Task, ys: set<Task>)
    requires OnlyRead(s, s1, e, {y}) && OnlyRead(s1, s', e, ys)
    ensures OnlyRead(s, s', e, {y} + ys)
  {
  }

  lemma ReadNothing(s: State, e: Exec)
    ensures OnlyRead(s, s, e, {})
  {
  }

  lemma {:induction false} ReadAll(plan: Plan, s: State, e: Exec, ys: set<Task>) returns (s': State)
    requires plan.g.WellFormed() && Lawful(plan, s) && s.gone == {} && ys <= s.store.Keys
    ensures Lawful(plan, s') && OnlyRead(s, s', e, ys)
    decreases |ys|
  {
    hide Lawful, Graph.WellFormed, OnlyRead;
    if ys == {} {
      s' := s;
      ReadNothing(s, e);
    } else {
      var y :| y in ys;
      var s1 := ReadOne(plan, s, e, y);
      s' := ReadAll(plan, s1, e, ys - {y});
      ReadMore(s, s1, s', e, y, ys - {y});
      assert {y} + (ys - {y}) == ys;
    }
  }

  /** From s to s', c's executor has read what it could of c.task's inputs, and has run it. */
  ghost predicate RanTask(g: Graph, s: State, s': State, c: Claim)
    requires g.WellFormed()
  {
    && c.task in g.tasks
    && s'.phase == s.phase && s'.store == s.store && s'.sent == s.sent && s'.failed == s.failed && s'.gone == s.gone && s'.givingUp == s.givingUp
    && s'.owed == s.owed && s'.pending == s.pending - {c} && s'.ranBy == s.ranBy[c.task := c.exec]
    && (forall e: Exec :: e != c.exec ==> s'.Cached(e) == s.Cached(e))
    && s'.Cached(c.exec).Keys <= s.Cached(c.exec).Keys + s.store.Keys + {c.task}
  }

  lemma ExecuteRuns(g: Graph, s: State, c: Claim)
    requires g.WellFormed() && Enabled(g, s, Execute(c))
    ensures RanTask(g, s, Apply(g, s, Execute(c)), c)
  {
    ExecuteChanges(g, s, c);
    StepOnlyAdds(g, s, Execute(c));
    ExecuteStores(g, s, c);
    hide Apply, Inputs, Graph.WellFormed;
  }

  lemma ExecuteStores(g: Graph, s: State, c: Claim)
    requires g.WellFormed() && Enabled(g, s, Execute(c))
    ensures Apply(g, s, Execute(c)).store == s.store && Apply(g, s, Execute(c)).sent == s.sent
  {
    hide Inputs, Graph.WellFormed;
  }

  lemma RunNow(plan: Plan, s: State, c: Claim) returns (s': State)
    requires plan.g.WellFormed() && Lawful(plan, s) && s.gone == {} && c in s.pending - s.failed && c.exec != PROXY && c.exec !in s.givingUp
    requires c.task in plan.g.tasks && plan.g.deps[c.task] <= s.Cached(c.exec).Keys
    ensures Lawful(plan, s') && RanTask(plan.g, s, s', c)
  {
    hide Lawful, Apply, RanTask;
    assert Enabled(plan.g, s, Execute(c)) && Follows(plan, s, Execute(c));
    LawfulStep(plan, s, Execute(c));
    ExecuteRuns(plan.g, s, c);
    s' := Apply(plan.g, s, Execute(c));
  }

  lemma RunTask(plan: Plan, s: State, c: Claim) returns (s': State)
    requires plan.g.WellFormed() && Lawful(plan, s) && s.gone == {} && c in s.pending - s.failed && c.exec != PROXY && c.exec !in s.givingUp
    requires c.task in plan.g.tasks && plan.g.deps[c.task] <= s.store.Keys + s.Cached(c.exec).Keys
    ensures Lawful(plan, s') && RanTask(plan.g, s, s', c)
  {
    hide Lawful;
    var s1 := ReadAll(plan, s, c.exec, plan.g.deps[c.task] * s.store.Keys);
    s' := RunNow(plan, s1, c);
  }

  lemma Publish(plan: Plan, s: State, z: Task) returns (s': State)
    requires plan.g.WellFormed() && Lawful(plan, s) && s.gone == {} && z in s.ranBy
    ensures Lawful(plan, s') && s' == s.(store := s'.store, sent := s'.sent) && Ready(plan, s', z)
    ensures s'.store.Keys == s.store.Keys + {z} && s.sent.Keys <= s'.sent.Keys
  {
    hide Lawful;
    var put, send := Put(s.ranBy[z], z), Send(s.ranBy[z], z);
    assert z in s.made by { IsMade(plan, s, z); }
    assert Enabled(plan.g, s, put) && Follows(plan, s, put);
    LawfulStep(plan, s, put);
    s' := Apply(plan.g, s, put);
    if plan.FansOut(z) {
      assert Enabled(plan.g, s', send) && Follows(plan, s', send);
      LawfulStep(plan, s', send);
      s' := Apply(plan.g, s', send);
    }
  }

  lemma IsMade(plan: Plan, s: State, z: Task)
    requires plan.g.WellFormed() && Lawful(plan, s) && z in s.ranBy
    ensures z in s.made
  {
    hide Lawful, Discipline, WithinReach;
    LawfulInv(plan, s);
    Made(plan.g, s, z);
  }
}
