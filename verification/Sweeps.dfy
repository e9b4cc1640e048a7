/** A big task's executor looks at all out-edges: those that may wait go into its queue, and the
    others are taken by checks, whose targets are then run; the value is not stored. */
module Sweeps {
  import opened Graphs
  import opened Plans
  import opened FanIn
  import opened FanInSafety
  import opened FanInTheorems
  import opened LocalViews
  import opened Conduct
  import opened GivingUp
  import opened LawfulRuns
  import opened Colocation
  import opened Schedules
  import opened Stages

  ghost function ClaimsAt(e: Exec, ts: set<Task>): set<Claim> { set t | t in ts :: Claim(t, e, false) }

  /** Into tasks that have not run: d's edges to `held` are in the queue, those to `taken` taken by
      checks, and all other edges into `counted` are counted. */
  ghost predicate SweptSoFar(g: Graph, s: State, d: Task, done: set<Task>, held: set<Task>, counted: set<Task>, taken: set<Task>)
    requires g.WellFormed()
  {
    forall y, z :: g.HasEdge(y, z) && z !in done ==>
      if y == d then (if z in held then s.Phase(y, z).Held? else if z in taken then s.Phase(y, z).Taken? else s.Phase(y, z).Waiting?)
      else if z in counted then s.Phase(y, z).Settled?
      else s.Phase(y, z).Waiting?
  }

  /** As Staged, in the middle of looking at d's out-edges. */
  ghost predicate Sweeping(plan: Plan, s: State, d: Task, k: seq<Task>, done: set<Task>, held: set<Task>, counted: set<Task>, taken: set<Task>)
    requires plan.g.WellFormed() && k != []
  {
    && Lawful(plan, s) && s.gone == {} && s.givingUp == {} && s.failed == {} && s.ranBy.Keys == done && done <= plan.g.tasks
    && d in done && s.pending == ClaimsAt(s.ranBy[d], taken)
    && SweptSoFar(plan.g, s, d, done, held, counted, taken) && KeptByRunner(plan, s, d)
    && (forall y :: y in done && y != d ==> Ready(plan, s, y))
    && Camped(plan, s, d, k, done)
  }

  lemma BeginSweep(plan: Plan, s: State, d: Task, k: seq<Task>, done: set<Task>)
    requires plan.g.WellFormed() && k != [] && Staged(plan, s, d, k, done, false) && d in done && s.pending == {}
    ensures Sweeping(plan, s, d, k, done, {}, {}, {})
  {
    hide Lawful, Camped, Tied, KeptByRunner, Ready, Leaves;
  }

  /** Only phases have changed, and as the new sets say. */
  lemma StillSweeping(plan: Plan, s: State, s': State, d: Task, k: seq<Task>, done: set<Task>,
                      held: set<Task>, counted: set<Task>, taken: set<Task>, held': set<Task>, counted': set<Task>)
    requires plan.g.WellFormed() && k != [] && Sweeping(plan, s, d, k, done, held, counted, taken)
    requires Lawful(plan, s') && s' == s.(phase := s'.phase) && SweptSoFar(plan.g, s', d, done, held', counted', taken)
    ensures Sweeping(plan, s', d, k, done, held', counted', taken)
  {
    hide Lawful, Tied, Graph.WellFormed, SweptSoFar;
    assert forall e: Exec {:trigger s'.Cached(e)} :: s'.Cached(e) == s.Cached(e);
  }

  lemma IdleSweep(plan: Plan, s: State, d: Task, k: seq<Task>, done: set<Task>, held: set<Task>, counted: set<Task>)
    requires plan.g.WellFormed() && k != [] && Sweeping(plan, s, d, k, done, held, counted, {})
    ensures Calm(plan, s) && FreeToCount(s, d)
  {
    hide Lawful, Camped, Tied, KeptByRunner, Ready, SweptSoFar;
  }

  lemma HoldOne(plan: Plan, s: State, d: Task, k: seq<Task>, done: set<Task>, held: set<Task>, z: Task) returns (s': State)
    requires plan.g.WellFormed() && k != [] && Sweeping(plan, s, d, k, done, held, {}, {})
    requires plan.g.HasEdge(d, z) && plan.Holdable(d, z) && z !in done && z !in held
    ensures Sweeping(plan, s', d, k, done, held + {z}, {}, {})
  {
    IdleSweep(plan, s, d, k, done, held, {});
    assert s.Phase(d, z).Waiting?;
    hide Lawful, Plan.Holdable, Sweeping;
    s' := IntoQueue(plan, s, d, z);
    SetPhaseMoves(s, d, z, Held(s.Cached(s.ranBy[d])[d]));
    HeldMore(plan, s, s', d, k, done, held, z);
    StillSweeping(plan, s, s', d, k, done, held, {}, {}, held + {z}, {});
  }

  lemma HeldMore(plan: Plan, s: State, s': State, d: Task, k: seq<Task>, done: set<Task>, held: set<Task>, z: Task)
    requires plan.g.WellFormed() && k != [] && Sweeping(plan, s, d, k, done, held, {}, {})
    requires OnlyEdge(s, s', d, z) && s'.Phase(d, z).Held? && plan.g.HasEdge(d, z)
    ensures SweptSoFar(plan.g, s', d, done, held + {z}, {}, {})
  {
    hide Lawful, Camped, Tied, KeptByRunner, Ready;
  }

  lemma {:induction false} HoldAll(plan: Plan, s: State, d: Task, k: seq<Task>, done: set<Task>, held: set<Task>, todo: set<Task>)
    returns (s': State)
    requires plan.g.WellFormed() && k != [] && Sweeping(plan, s, d, k, done, held, {}, {}) && held !! todo && done !! todo
    requires forall z :: z in todo ==> plan.g.HasEdge(d, z) && plan.Holdable(d, z)
    ensures Sweeping(plan, s', d, k, done, held + todo, {}, {})
    decreases |todo|
  {
    hide Sweeping;
    if todo == {} {
      s' := s;
      assert held + todo == held;
    } else {
      var z :| z in todo;
      var s1 := HoldOne(plan, s, d, k, done, held, z);
      s' := HoldAll(plan, s1, d, k, done, held + {z}, todo - {z});
      assert held + {z} + (todo - {z}) == held + todo;
    }
  }

  lemma CountInto(plan: Plan, s: State, d: Task, k: seq<Task>, done: set<Task>, held: set<Task>, counted: set<Task>, z: Task)
    returns (s': State)
    requires plan.g.WellFormed() && k != [] && Sweeping(plan, s, d, k, done, held, counted, {})
    requires plan.g.HasEdge(d, z) && z !in done && z !in counted && z !in held && plan.g.deps[z] - {d} <= done
    ensures Sweeping(plan, s', d, k, done, held, counted + {z}, {})
  {
    IdleSweep(plan, s, d, k, done, held, counted);
    assert forall y :: y in plan.g.deps[z] ==> plan.g.HasEdge(y, z);
    hide Lawful, Camped, Tied, KeptByRunner, Ready;
    s' := CountAll(plan, s, plan.g.deps[z] - {d}, z, d);
    CountedInto(plan, s, s', d, k, done, held, counted, z);
    hide Sweeping;
    StillSweeping(plan, s, s', d, k, done, held, counted, {}, held, counted + {z});
  }

  lemma CountedInto(plan: Plan, s: State, s': State, d: Task, k: seq<Task>, done: set<Task>, held: set<Task>, counted: set<Task>, z: Task)
    requires plan.g.WellFormed() && k != [] && Sweeping(plan, s, d, k, done, held, counted, {})
    requires z in plan.g.tasks && OnlyCounted(s, s', plan.g.deps[z] - {d}, z)
    ensures SweptSoFar(plan.g, s', d, done, held, counted + {z}, {})
  {
    hide Lawful, Camped, Tied, KeptByRunner, Ready;
  }

  lemma {:induction false} CountIntoAll(plan: Plan, s: State, d: Task, k: seq<Task>, done: set<Task>, held: set<Task>, counted: set<Task>, todo: set<Task>)
    returns (s': State)
    requires plan.g.WellFormed() && k != [] && Sweeping(plan, s, d, k, done, held, counted, {})
    requires counted !! todo && done !! todo && held !! todo
    requires forall z :: z in todo ==> plan.g.HasEdge(d, z) && plan.g.deps[z] - {d} <= done
    ensures Sweeping(plan, s', d, k, done, held, counted + todo, {})
    decreases |todo|
  {
    hide Sweeping;
    if todo == {} {
      s' := s;
      assert counted + todo == counted;
    } else {
      var z :| z in todo;
      var s1 := CountInto(plan, s, d, k, done, held, counted, z);
      s' := CountIntoAll(plan, s1, d, k, done, held, counted + {z}, todo - {z});
      assert counted + {z} + (todo - {z}) == counted + todo;
    }
  }

  /** A check takes d -> z, all other edges into z being counted. */
  lemma TakeOne(plan: Plan, s: State, d: Task, k: seq<Task>, done: set<Task>, held: set<Task>, counted: set<Task>, taken: set<Task>, z: Task)
    returns (s': State)
    requires plan.g.WellFormed() && k != [] && Sweeping(plan, s, d, k, done, held, counted, taken) && done !! plan.g.Downstream(d)
    requires plan.g.HasEdge(d, z) && z in counted && z !in held && z !in taken && d in plan.big && !plan.Missed(d, z)
    ensures Sweeping(plan, s', d, k, done, held, counted, taken + {z})
  {
    assert z in plan.g.Downstream(d);
    assert forall y :: y in plan.g.deps[z] ==> plan.g.HasEdge(y, z);
    assert Done(plan.g, s, z) == plan.g.deps[z] - {d};
    NoneRan(plan, s, d);
    assert s.Phase(d, z).Waiting?;
    hide Lawful, Camped, Tied, KeptByRunner, Ready, Plan.Missed, Done, NoDependentRan;
    s' := PeekLast(plan, s, d, z);
    TakenMore(plan, s, s', d, k, done, held, counted, taken, z);
  }

  lemma NoneRan(plan: Plan, s: State, d: Task)
    requires plan.g.WellFormed() && Lawful(plan, s) && s.ranBy.Keys !! plan.g.Downstream(d)
    ensures NoDependentRan(plan.g, s, d)
  {
    forall x | plan.g.HasEdge(d, x) ensures s.Runs(x) == 0 {
      assert x in plan.g.Downstream(d);
      NotRunYet(plan, s, x);
    }
  }

  lemma TakenMore(plan: Plan, s: State, s': State, d: Task, k: seq<Task>, done: set<Task>, held: set<Task>, counted: set<Task>, taken: set<Task>, z: Task)
    requires plan.g.WellFormed() && k != [] && Sweeping(plan, s, d, k, done, held, counted, taken) && z !in held
    requires Lawful(plan, s') && ClaimMade(s, s', Claim(z, s.ranBy[d], false)) && s'.Phase(d, z).Taken?
    requires forall a: Task, b: Task :: a != d || b != z ==> s'.Phase(a, b) == s.Phase(a, b)
    ensures Sweeping(plan, s', d, k, done, held, counted, taken + {z})
  {
    hide Lawful, Tied;
    assert ClaimsAt(s.ranBy[d], taken + {z}) == ClaimsAt(s.ranBy[d], taken) + {Claim(z, s.ranBy[d], false)};
    assert forall e: Exec {:trigger s'.Cached(e)} :: s'.Cached(e) == s.Cached(e);
  }

  lemma {:induction false} TakeAll(plan: Plan, s: State, d: Task, k: seq<Task>, done: set<Task>, held: set<Task>, counted: set<Task>, taken: set<Task>, todo: set<Task>)
    returns (s': State)
    requires plan.g.WellFormed() && k != [] && Sweeping(plan, s, d, k, done, held, counted, taken) && done !! plan.g.Downstream(d)
    requires todo <= counted && taken !! todo && held !! todo && d in plan.big
    requires forall z :: z in todo ==> plan.g.HasEdge(d, z) && !plan.Missed(d, z)
    ensures Sweeping(plan, s', d, k, done, held, counted, taken + todo)
    decreases |todo|
  {
    hide Sweeping, Plan.Missed;
    if todo == {} {
      s' := s;
      assert taken + todo == taken;
    } else {
      var z :| z in todo;
      var s1 := TakeOne(plan, s, d, k, done, held, counted, taken, z);
      s' := TakeAll(plan, s1, d, k, done, held, counted, taken + {z}, todo - {z});
      assert taken + {z} + (todo - {z}) == taken + todo;
    }
  }

  /** A task that a check has taken is run. */
  lemma RunTaken(plan: Plan, s: State, d: Task, k: seq<Task>, done: set<Task>, held: set<Task>, counted: set<Task>, taken: set<Task>, z: Task)
    returns (s': State)
    requires plan.g.WellFormed() && Lineage(plan, k, d) && k != [] && Sweeping(plan, s, d, k, done, held, counted, taken)
    requires plan.g.HasEdge(d, z) && z in taken && z !in done && plan.g.deps[z] - {d} <= done
    ensures Sweeping(plan, s', d, k, done + {z}, held, counted, taken - {z})
  {
    var c := Claim(z, s.ranBy[d], false);
    assert c in s.pending;
    RunnerNotProxy(plan, s);
    assert GotClaim(s, s, c);
    TakenInputs(plan, s, d, k, done, held, counted, taken, z);
    BigRunner(plan, s, d, k, done, z);
    assert d !in s.store by { NotStored(s, plan, d); }
    hide Lawful, Lineage, SweptSoFar, Camped, Tied, KeptByRunner, Ready, GotClaim, RightRunner;
    s' := RunClaimed(plan, s, s, d, z, c);
    RanTaken(plan, s, s', d, k, done, held, counted, taken, z);
  }

  lemma TakenInputs(plan: Plan, s: State, d: Task, k: seq<Task>, done: set<Task>, held: set<Task>, counted: set<Task>, taken: set<Task>, z: Task)
    requires plan.g.WellFormed() && k != [] && Sweeping(plan, s, d, k, done, held, counted, taken)
    requires plan.g.HasEdge(d, z) && z !in done && plan.g.deps[z] - {d} <= done
    ensures plan.g.deps[z] <= s.store.Keys + s.Cached(s.ranBy[d]).Keys
  {
    NotRunYet(plan, s, z);
    RunnerHas(plan, s, d, z);
    hide Lawful, Camped, Tied, KeptByRunner, SweptSoFar;
    forall x | x in plan.g.deps[z] ensures x in s.store.Keys + s.Cached(s.ranBy[d]).Keys {
      assert x != d ==> Ready(plan, s, x);
    }
  }

  lemma RanTaken(plan: Plan, s: State, s': State, d: Task, k: seq<Task>, done: set<Task>, held: set<Task>, counted: set<Task>, taken: set<Task>, z: Task)
    requires plan.g.WellFormed() && k != [] && Sweeping(plan, s, d, k, done, held, counted, taken) && z in plan.g.tasks && z !in done
    requires Advanced(plan, s, s', d, z, s.ranBy[d]) && s'.pending == s.pending - {Claim(z, s.ranBy[d], false)}
    requires RightRunner(plan, s, d, k, z, s.ranBy[d])
    ensures Sweeping(plan, s', d, k, done + {z}, held, counted, taken - {z})
  {
    hide Lawful, Camped, Tied, KeptByRunner, Ready, RightRunner, Untouched, SweptSoFar, Graph.WellFormed, State.Phase, State.Cached;
    AdvancedIsCamped(plan, s, s', d, k, z, s.ranBy[d]);
    AdvancedWithRunner(plan, s, s', d, z, s.ranBy[d]);
    AdvancedReady(plan, s, s', d, z, s.ranBy[d]);
    assert ClaimsAt(s.ranBy[d], taken - {z}) == ClaimsAt(s.ranBy[d], taken) - {Claim(z, s.ranBy[d], false)};
    RanTakenPhases(plan.g, s, s', d, done, held, counted, taken, z);
  }

  lemma RanTakenPhases(g: Graph, s: State, s': State, d: Task, done: set<Task>, held: set<Task>, counted: set<Task>, taken: set<Task>, z: Task)
    requires g.WellFormed() && SweptSoFar(g, s, d, done, held, counted, taken)
    requires forall a: Task, b: Task :: b != z ==> s'.Phase(a, b) == s.Phase(a, b)
    ensures SweptSoFar(g, s', d, done + {z}, held, counted, taken - {z})
  {
  }

  lemma {:induction false} RunAllTaken(plan: Plan, s: State, d: Task, k: seq<Task>, done: set<Task>, held: set<Task>, counted: set<Task>, taken: set<Task>)
    returns (s': State)
    requires plan.g.WellFormed() && Lineage(plan, k, d) && k != [] && Sweeping(plan, s, d, k, done, held, counted, taken) && taken !! done
    requires forall z :: z in taken ==> plan.g.HasEdge(d, z) && plan.g.deps[z] - {d} <= done
    ensures Sweeping(plan, s', d, k, done + taken, held, counted, {})
    decreases |taken|
  {
    hide Sweeping, Lineage;
    if taken == {} {
      s' := s;
      assert done + taken == done;
    } else {
      var z :| z in taken;
      var s1 := RunTaken(plan, s, d, k, done, held, counted, taken, z);
      s' := RunAllTaken(plan, s1, d, k, done + {z}, held, counted, taken - {z});
      assert done + {z} + (taken - {z}) == done + taken;
    }
  }

  /** The first half: what may wait waits in the queue, and all else but d's edges is counted. */
  lemma SweepCounts(plan: Plan, s: State, d: Task, k: seq<Task>, done: set<Task>, later: set<Task>, now: set<Task>) returns (s': State)
    requires plan.g.WellFormed() && k != [] && Sweeping(plan, s, d, k, done, {}, {}, {}) && later !! now && later !! done && now !! done
    requires forall z :: z in later ==> plan.g.HasEdge(d, z) && plan.Holdable(d, z)
    requires forall z :: z in now ==> plan.g.HasEdge(d, z) && plan.g.deps[z] - {d} <= done
    ensures Sweeping(plan, s', d, k, done, later, now, {})
  {
    hide Sweeping, Plan.Holdable;
    s' := HoldAll(plan, s, d, k, done, {}, later);
    assert {} + later == later;
    s' := CountIntoAll(plan, s', d, k, done, later, {}, now);
    assert {} + now == now;
  }

  /** The second half: the others are taken by checks, and their targets run. */
  lemma SweepTakes(plan: Plan, s: State, d: Task, k: seq<Task>, done: set<Task>, later: set<Task>, now: set<Task>) returns (s': State)
    requires plan.g.WellFormed() && Lineage(plan, k, d) && k != [] && Sweeping(plan, s, d, k, done, later, now, {})
    requires later !! now && now !! done && done !! plan.g.Downstream(d) && d in plan.big
    requires forall z :: z in now ==> plan.g.HasEdge(d, z) && !plan.Missed(d, z) && plan.g.deps[z] - {d} <= done
    ensures Sweeping(plan, s', d, k, done + now, later, now, {})
  {
    hide Sweeping, Lineage, Plan.Missed, Graph.Downstream;
    s' := TakeAll(plan, s, d, k, done, later, now, {}, now);
    assert {} + now == now;
    s' := RunAllTaken(plan, s', d, k, done, later, now, now);
  }

  /** d's executor looks at all out-edges: `later` go into the queue, `now` are run. */
  lemma Sweep(plan: Plan, s: State, d: Task, k: seq<Task>, done: set<Task>, later: set<Task>, now: set<Task>) returns (s': State)
    requires plan.g.WellFormed() && Lineage(plan, k, d) && k != [] && Staged(plan, s, d, k, done, false) && d in done && s.pending == {}
    requires d in plan.big && plan.g.Downstream(d) == later + now && later !! now && done !! plan.g.Downstream(d)
    requires forall z :: z in later ==> plan.Holdable(d, z)
    requires forall z :: z in now ==> !plan.Missed(d, z) && plan.g.deps[z] - {d} <= done
    ensures Staged(plan, s', d, k, done + now, true) && s'.pending == {}
  {
    AreDependents(plan.g, d, done, later, now);
    hide Staged, Sweeping, Lineage, Plan.Missed, Plan.Holdable, Graph.Downstream;
    BeginSweep(plan, s, d, k, done);
    s' := SweepCounts(plan, s, d, k, done, later, now);
    s' := SweepTakes(plan, s', d, k, done, later, now);
    EndSweep(plan, s', d, k, done + now, later, now);
  }

  lemma AreDependents(g: Graph, d: Task, done: set<Task>, later: set<Task>, now: set<Task>)
    requires g.WellFormed() && g.Downstream(d) == later + now && done !! g.Downstream(d)
    ensures later !! done && now !! done
    ensures forall z :: g.HasEdge(d, z) <==> z in later || z in now
  {
    assert forall z :: g.HasEdge(d, z) <==> z in later + now;
  }

  lemma EndSweep(plan: Plan, s: State, d: Task, k: seq<Task>, done: set<Task>, held: set<Task>, counted: set<Task>)
    requires plan.g.WellFormed() && k != [] && Sweeping(plan, s, d, k, done, held, counted, {})
    requires counted <= done && forall z :: plan.g.HasEdge(d, z) && z !in done ==> z in held
    ensures Staged(plan, s, d, k, done, true) && s.pending == {}
  {
    hide Lawful, Camped, Tied, KeptByRunner, Ready;
    assert ClaimsAt(s.ranBy[d], {}) == {};
  }
}
