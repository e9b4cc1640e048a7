/** Running the tasks of a graph one after the other, those that are tied to d where d runs and
    the others elsewhere, with d's value staying out of the store. */
module Stages {
  import opened Graphs
  import opened Plans
  import opened FanIn
  import opened FanInSafety
  import opened FanInTheorems
  import opened LocalViews
  import opened Conduct
  import opened GivingUp
  import opened LawfulRuns
  import opened Colocation
  import opened Schedules

  /** The tasks in `done` have run, those and only those tied to d where d runs; all their
      values but d's are stored.  No edge into another task was dealt with, but for d's own,
      which are in the delayed queue once d's executor has looked at them. */
  ghost predicate Staged(plan: Plan, s: State, d: Task, k: seq<Task>, done: set<Task>, swept: bool)
    requires plan.g.WellFormed() && k != []
  {
    && Lawful(plan, s) && s.gone == {} && s.givingUp == {} && s.failed == {} && s.ranBy.Keys == done && done <= plan.g.tasks
    && Untouched(plan, s, d, done, swept) && Leaves(plan, s) && KeptByRunner(plan, s, d)
    && (forall y :: y in done && y != d ==> Ready(plan, s, y))
    && Camped(plan, s, d, k, done)
  }

  ghost predicate Untouched(plan: Plan, s: State, d: Task, done: set<Task>, swept: bool)
    requires plan.g.WellFormed()
  {
    forall y, z :: plan.g.HasEdge(y, z) && z !in done ==> if y == d && swept then s.Phase(y, z).Held? else s.Phase(y, z).Waiting?
  }

  /** Only leaves are claimed, each by an executor that has done nothing yet. */
  ghost predicate Leaves(plan: Plan, s: State)
    requires plan.g.WellFormed()
  {
    && (forall c :: c in s.pending ==> c.task in plan.g.tasks && plan.g.deps[c.task] == {} && c.exec != PROXY)
    && (forall c, z :: c in s.pending && z in s.ranBy ==> s.ranBy[z] != c.exec)
    && (forall c, c' :: c in s.pending && c' in s.pending && c != c' ==> c.exec != c'.exec)
  }

  /** d's value is with whoever ran d, and nowhere else. */
  ghost predicate KeptByRunner(plan: Plan, s: State, d: Task) {
    d !in s.store && forall e: Exec {:trigger s.Cached(e)} :: d in s.Cached(e) ==> s.Owns(e, d)
  }

  /** The executor of k has run the tied tasks, and no others. */
  ghost predicate Camped(plan: Plan, s: State, d: Task, k: seq<Task>, done: set<Task>)
    requires plan.g.WellFormed() && k != [] && s.ranBy.Keys == done
  {
    var r := k[|k| - 1];
    forall z :: z in done ==> (Tied(plan, k, d, z) <==> r in done && s.ranBy[z] == s.ranBy[r])
  }

  lemma StageStart(plan: Plan, d: Task, k: seq<Task>) returns (s: State)
    requires plan.g.WellFormed() && k != []
    ensures Staged(plan, s, d, k, {}, false)
  {
    var lambda := map t | t in plan.g.tasks :: t + 1;
    LawfulStart(plan, lambda);
    s := Init(plan.g, lambda);
    InitLeaves(plan, lambda);
    assert Untouched(plan, s, d, {}, false) && KeptByRunner(plan, s, d);
    hide Lawful, Graph.WellFormed, Leaves, Untouched, KeptByRunner, Ready, Tied;
  }

  lemma InitLeaves(plan: Plan, lambda: map<Task, Exec>)
    requires plan.g.WellFormed() && OwnLambdas(plan, lambda)
    ensures Leaves(plan, Init(plan.g, lambda))
  {
  }

  /** From s to s', e ran z, which had been claimed for it. */
  ghost predicate Went(s: State, s': State, d: Task, z: Task, e: Exec) {
    && s'.gone == {} && s'.givingUp == {} && s'.failed == {} && s'.ranBy == s.ranBy[z := e]
    && (forall a: Task, b: Task :: b != z ==> s'.Phase(a, b) == s.Phase(a, b))
    && s.store.Keys <= s'.store.Keys && s.sent.Keys <= s'.sent.Keys && (d in s'.store ==> d in s.store)
    && (forall e': Exec {:trigger s'.Cached(e')} :: d in s'.Cached(e') ==> d in s.Cached(e') || (e' == e && z == d))
  }

  /** ... and its value is where its edges can be counted, unless it is d. */
  ghost predicate Advanced(plan: Plan, s: State, s': State, d: Task, z: Task, e: Exec)
    requires plan.g.WellFormed()
  {
    Lawful(plan, s') && Went(s, s', d, z, e) && (z != d ==> Ready(plan, s', z))
  }

  /** No claim is left but some that were there, at other executors. */
  ghost predicate OthersLeft(s: State, s': State, e: Exec) {
    s'.pending <= s.pending && forall c :: c in s'.pending ==> c.exec != e
  }

  /** The executor that runs z is the one that it should be. */
  ghost predicate RightRunner(plan: Plan, s: State, d: Task, k: seq<Task>, z: Task, e: Exec)
    requires plan.g.WellFormed() && k != []
  {
    var r := k[|k| - 1];
    if z == r then forall x :: x in s.ranBy ==> s.ranBy[x] != e
    else Tied(plan, k, d, z) <==> r in s.ranBy && e == s.ranBy[r]
  }

  lemma AdvancedIsCamped(plan: Plan, s: State, s': State, d: Task, k: seq<Task>, z: Task, e: Exec)
    requires plan.g.WellFormed() && k != [] && Camped(plan, s, d, k, s.ranBy.Keys) && z in plan.g.tasks && z !in s.ranBy
    requires s'.ranBy == s.ranBy[z := e] && RightRunner(plan, s, d, k, z, e)
    ensures Camped(plan, s', d, k, s.ranBy.Keys + {z})
  {
    TiedLineage(plan, k, d);
    hide Tied, Graph.WellFormed;
  }

  lemma AdvancedLeaves(plan: Plan, s: State, s': State, d: Task, z: Task, e: Exec)
    requires plan.g.WellFormed() && Leaves(plan, s) && Advanced(plan, s, s', d, z, e) && OthersLeft(s, s', e)
    ensures Leaves(plan, s')
  {
    hide Lawful, Graph.WellFormed, Ready;
  }

  lemma AdvancedWithRunner(plan: Plan, s: State, s': State, d: Task, z: Task, e: Exec)
    requires plan.g.WellFormed() && KeptByRunner(plan, s, d) && Advanced(plan, s, s', d, z, e) && z !in s.ranBy
    ensures KeptByRunner(plan, s', d)
  {
    hide Lawful, Graph.WellFormed, Ready;
  }

  lemma AdvancedReady(plan: Plan, s: State, s': State, d: Task, z: Task, e: Exec)
    requires plan.g.WellFormed() && Advanced(plan, s, s', d, z, e)
    requires forall y :: y in s.ranBy && y != d ==> Ready(plan, s, y)
    ensures forall y :: y in s'.ranBy && y != d ==> Ready(plan, s', y)
    ensures forall done, swept :: Untouched(plan, s, d, done, swept) ==> Untouched(plan, s', d, done + {z}, swept)
  {
    hide Lawful, Graph.WellFormed;
  }

  lemma AdvancedIsStaged(plan: Plan, s: State, s': State, d: Task, k: seq<Task>, done: set<Task>, swept: bool, z: Task, e: Exec)
    requires plan.g.WellFormed() && k != [] && Staged(plan, s, d, k, done, swept) && z in plan.g.tasks && z !in done
    requires Advanced(plan, s, s', d, z, e) && OthersLeft(s, s', e) && RightRunner(plan, s, d, k, z, e)
    ensures Staged(plan, s', d, k, done + {z}, swept)
  {
    hide Lawful, Tied, Ready, Camped, RightRunner, Graph.WellFormed, Leaves, KeptByRunner, Untouched, OthersLeft;
    AdvancedIsCamped(plan, s, s', d, k, z, e);
    AdvancedLeaves(plan, s, s', d, z, e);
    AdvancedWithRunner(plan, s, s', d, z, e);
    AdvancedReady(plan, s, s', d, z, e);
  }

  lemma TiedLineage(plan: Plan, k: seq<Task>, d: Task)
    requires plan.g.WellFormed()
    ensures forall x :: x in k && x in plan.g.tasks ==> Tied(plan, k, d, x)
  {
  }

  // ---- Which edge into z to leave for last -----------------------------------

  /** y -> z can be the last, and whoever then runs z is where RightRunner has it. */
  ghost predicate GoodLast(plan: Plan, d: Task, k: seq<Task>, y: Task, z: Task)
    requires plan.g.WellFormed() && k != []
  {
    && plan.g.HasEdge(y, z)
    && if z == k[|k| - 1] then plan.Mobile(y, z)
       else if Tied(plan, k, d, z) then Tied(plan, k, d, y) && !plan.Mobile(y, z)
       else plan.Mobile(y, z) || !Tied(plan, k, d, y)
  }

  lemma {:induction false} LineageAbove(plan: Plan, k: seq<Task>, d: Task, i: nat)
    requires plan.g.WellFormed() && Lineage(plan, k, d) && i < |k|
    ensures k[i] in plan.g.tasks && d in plan.g.tasks && plan.g.level[k[i]] <= plan.g.level[d]
    decreases i
  {
    hide Fresh, Plan.Mobile;
    if i > 0 {
      assert Linked(plan, k, i);
      LineageAbove(plan, k, d, i - 1);
    } else if |k| > 1 {
      assert Linked(plan, k, 1);
    } else {
      FreshInGraph(plan, k[0]);
    }
  }

  lemma FreshInGraph(plan: Plan, z: Task)
    requires plan.g.WellFormed() && Fresh(plan, z)
    ensures z in plan.g.tasks
  {
  }

  lemma NextInLineage(plan: Plan, k: seq<Task>, d: Task, z: Task) returns (y: Task)
    requires plan.g.WellFormed() && Lineage(plan, k, d) && z in k && z != k[|k| - 1]
    ensures plan.g.HasEdge(y, z) && !plan.Mobile(y, z) && Tied(plan, k, d, y)
  {
    hide Fresh, Plan.Mobile;
    var i :| 0 <= i < |k| && k[i] == z;
    y := k[i + 1];
    assert Linked(plan, k, i + 1);
    TiedLineage(plan, k, d);
    hide Tied;
  }

  lemma PickTied(plan: Plan, d: Task, k: seq<Task>, z: Task) returns (y: Task)
    requires plan.g.WellFormed() && Lineage(plan, k, d) && z in plan.g.tasks && plan.g.deps[z] != {} && Tied(plan, k, d, z)
    requires d !in plan.g.deps[z] && z != k[|k| - 1]
    ensures plan.g.HasEdge(y, z) && !plan.Mobile(y, z) && Tied(plan, k, d, y)
  {
    if z in k {
      y := NextInLineage(plan, k, d, z);
    } else {
      hide Plan.Mobile, Lineage;
      y :| y in plan.g.deps[z];
    }
  }

  /** No task of the lineage depends on d, and d is tied to itself. */
  lemma LineageNotBelow(plan: Plan, d: Task, k: seq<Task>, z: Task)
    requires plan.g.WellFormed() && Lineage(plan, k, d)
    ensures plan.g.HasEdge(d, z) ==> z !in k && Tied(plan, k, d, z)
    ensures Tied(plan, k, d, d)
  {
    LineageAbove(plan, k, d, 0);
    if z in k {
      var i :| 0 <= i < |k| && k[i] == z;
      LineageAbove(plan, k, d, i);
    }
    hide Plan.Mobile, Fresh;
  }

  lemma PickLast(plan: Plan, d: Task, k: seq<Task>, z: Task) returns (y: Task)
    requires plan.g.WellFormed() && Lineage(plan, k, d) && z in plan.g.tasks && plan.g.deps[z] != {} && d !in plan.g.deps[z]
    ensures GoodLast(plan, d, k, y, z)
  {
    if z == k[|k| - 1] {
      y :| y in plan.g.deps[z] && plan.Mobile(y, z);
    } else if Tied(plan, k, d, z) {
      y := PickTied(plan, d, k, z);
    } else {
      hide Plan.Mobile, Lineage;
      y :| y in plan.g.deps[z] && (!Tied(plan, k, d, y) || plan.Mobile(y, z));
    }
  }

  // ---- Running one more task -------------------------------------------------

  lemma LeafClaim(plan: Plan, s: State, z: Task) returns (c: Claim)
    requires plan.g.WellFormed() && Lawful(plan, s) && z in plan.g.tasks && plan.g.deps[z] == {} && z !in s.ranBy
    ensures c in s.pending && c.task == z
  {
    hide Lawful, EdgesFollowRuns, TakenIsLast;
    LawfulDiscipline(plan, s);
    assert AllSettled(plan.g, s, z) && s.Runs(z) == 0;
    assert HasPending(s, z);
    c :| c in s.pending && c.task == z;
  }

  /** From s to s', the claim c has been made, and perhaps handed on to a new executor. */
  ghost predicate GotClaim(s: State, s': State, c: Claim) {
    && s' == s.(phase := s'.phase, pending := s'.pending, claimCount := s'.claimCount, cache := s'.cache)
    && (forall a: Task, b: Task :: b != c.task ==> s'.Phase(a, b) == s.Phase(a, b))
    && c in s'.pending && s'.pending - {c} <= s.pending && c.exec != PROXY
    && (forall e: Exec {:trigger s'.Cached(e)} :: s'.Cached(e) == s.Cached(e) || (s'.Cached(e) == map[] && e == c.exec))
  }

  ghost predicate Idle(s: State, e: Exec) {
    (forall x :: x in s.ranBy ==> s.ranBy[x] != e) && (forall c :: c in s.pending ==> c.exec != e)
  }

  /** The claim that the last edge makes goes to a new executor if it can, and else stays. */
  lemma Grant(plan: Plan, s: State, y: Task, z: Task) returns (s': State, c: Claim)
    requires plan.g.WellFormed() && Calm(plan, s) && s.failed == {} && CanBeLast(plan, s, y, z)
    ensures Lawful(plan, s') && GotClaim(s, s', c) && c.task == z
    ensures if plan.Mobile(y, z) then Idle(s, c.exec) else c.exec == s.ranBy[y] && s'.cache == s.cache
  {
    NotProxy(plan, s, y, z);
    hide Lawful, CanBeLast, Plan.Mobile, GotClaim, Idle;
    var s1 := ClaimVia(plan, s, y, z);
    var c1 := ClaimFrom(plan, s, y, z);
    if plan.Mobile(y, z) {
      var e;
      s', e := HandOff(plan, s1, c1);
      c := Claim(z, e, true);
      StillIdle(s, s1, c1, e);
      HandedOffClaim(s, s1, s', c1, e);
    } else {
      s', c := s1, c1;
      MadeClaim(s, s1, c1);
    }
  }

  lemma MadeClaim(s: State, s1: State, c: Claim)
    requires ClaimMade(s, s1, c) && c.exec != PROXY
    ensures GotClaim(s, s1, c) && s1.cache == s.cache && s1.pending == s.pending + {c}
  {
  }

  lemma HandedOffClaim(s: State, s1: State, s': State, c: Claim, e: Exec)
    requires ClaimMade(s, s1, c) && e != PROXY
    requires s' == s1.(pending := s1.pending - {c} + {Claim(c.task, e, true)}, cache := s1.cache[e := map[]])
    ensures GotClaim(s, s', Claim(c.task, e, true))
  {
    assert SameEdges(s1, s');
    assert Claim(c.task, e, true) in s'.pending;
  }

  lemma StillIdle(s: State, s1: State, c: Claim, e: Exec)
    requires ClaimMade(s, s1, c) && !s1.Used(e)
    ensures Idle(s, e) && e != PROXY
  {
  }

  lemma NotProxy(plan: Plan, s: State, y: Task, z: Task)
    requires plan.g.WellFormed() && Lawful(plan, s) && CanBeLast(plan, s, y, z)
    ensures y in s.ranBy && s.ranBy[y] != PROXY && (plan.ToProxy(y, z) ==> plan.Mobile(y, z))
    ensures y in s.Cached(s.ranBy[y]) && z in plan.g.tasks
  {
    OwnerHasValue(plan, s, y, z);
  }

  /** Someone has claimed z, and can run it. */
  ghost predicate Claimable(plan: Plan, s: State, s1: State, d: Task, z: Task, c: Claim)
    requires plan.g.WellFormed()
  {
    && Lawful(plan, s1) && GotClaim(s, s1, c) && c.task == z && z in plan.g.tasks
    && plan.g.deps[z] <= s1.store.Keys + s1.Cached(c.exec).Keys
  }

  lemma RunWent(g: Graph, s: State, s1: State, s': State, d: Task, c: Claim)
    requires g.WellFormed() && s.gone == {} && s.givingUp == {} && s.failed == {} && d !in s.store
    requires GotClaim(s, s1, c) && RanTask(g, s1, s', c)
    ensures Went(s, s', d, c.task, c.exec) && s'.pending == s1.pending - {c}
  {
    RunCaches(g, s, s1, s', d, c);
    RunPhases(g, s, s1, s', c);
    hide Graph.WellFormed, State.Phase, State.Cached;
  }

  lemma RunCaches(g: Graph, s: State, s1: State, s': State, d: Task, c: Claim)
    requires g.WellFormed() && d !in s.store && GotClaim(s, s1, c) && RanTask(g, s1, s', c)
    ensures forall e: Exec {:trigger s'.Cached(e)} :: d in s'.Cached(e) ==> d in s.Cached(e) || (e == c.exec && c.task == d)
  {
    hide Graph.WellFormed, State.Phase;
    assert forall e: Exec {:trigger s'.Cached(e)} :: d in s'.Cached(e) ==> d in s1.Cached(e) || (e == c.exec && c.task == d);
  }

  lemma RunPhases(g: Graph, s: State, s1: State, s': State, c: Claim)
    requires g.WellFormed() && GotClaim(s, s1, c) && RanTask(g, s1, s', c)
    ensures forall a: Task, b: Task :: b != c.task ==> s'.Phase(a, b) == s.Phase(a, b)
  {
    hide Graph.WellFormed, State.Cached;
    assert SameEdges(s1, s');
  }

  lemma RunClaimed(plan: Plan, s: State, s1: State, d: Task, z: Task, c: Claim) returns (s': State)
    requires plan.g.WellFormed() && s.gone == {} && s.givingUp == {} && s.failed == {} && d !in s.store
    requires Claimable(plan, s, s1, d, z, c)
    ensures Advanced(plan, s, s', d, z, c.exec) && s'.pending == s1.pending - {c}
  {
    hide Lawful, Ready;
    s' := RunTask(plan, s1, c);
    RunWent(plan.g, s, s1, s', d, c);
    if z != d {
      var s2 := s';
      s' := Publish(plan, s2, z);
      hide RanTask, GotClaim, Claimable;
      PublishedWent(s, s2, s', d, z, c.exec);
    }
  }

  lemma PublishedWent(s: State, s2: State, s': State, d: Task, z: Task, e: Exec)
    requires Went(s, s2, d, z, e) && z != d && s' == s2.(store := s'.store, sent := s'.sent)
    requires s'.store.Keys == s2.store.Keys + {z} && s2.sent.Keys <= s'.sent.Keys
    ensures Went(s, s', d, z, e) && s'.pending == s2.pending
  {
    assert SameEdges(s2, s');
    assert forall e': Exec {:trigger s'.Cached(e')} :: s'.Cached(e') == s2.Cached(e');
  }

  lemma RunLeaf(plan: Plan, s: State, d: Task, k: seq<Task>, done: set<Task>, swept: bool, z: Task) returns (s': State)
    requires plan.g.WellFormed() && Lineage(plan, k, d) && Staged(plan, s, d, k, done, swept)
    requires z in plan.g.tasks && z !in done && plan.g.deps[z] == {}
    ensures Staged(plan, s', d, k, done + {z}, swept)
  {
    assert k != [];
    hide Lawful, Ready, Camped, Tied, Lineage;
    var c := LeafClaim(plan, s, z);
    LeafRunner(plan, s, d, k, done, z, c);
    hide Untouched, Plan.Mobile;
    assert GotClaim(s, s, c);
    s' := RunClaimed(plan, s, s, d, z, c);
    AdvancedIsStaged(plan, s, s', d, k, done, swept, z, c.exec);
  }

  lemma LeafRunner(plan: Plan, s: State, d: Task, k: seq<Task>, done: set<Task>, z: Task, c: Claim)
    requires plan.g.WellFormed() && Lineage(plan, k, d) && Leaves(plan, s) && s.ranBy.Keys == done
    requires z in plan.g.tasks && z !in done && plan.g.deps[z] == {} && c in s.pending && c.task == z
    ensures RightRunner(plan, s, d, k, z, c.exec)
  {
    hide Fresh, Plan.Mobile;
    if z in k {
      var i :| 0 <= i < |k| && k[i] == z;
      assert Linked(plan, k, i + 1);
    }
  }

  lemma NextRunner(plan: Plan, s: State, d: Task, k: seq<Task>, done: set<Task>, y: Task, z: Task, e: Exec)
    requires plan.g.WellFormed() && k != [] && s.ranBy.Keys == done && Camped(plan, s, d, k, done) && y in done
    requires GoodLast(plan, d, k, y, z) && if plan.Mobile(y, z) then Idle(s, e) else e == s.ranBy[y]
    ensures RightRunner(plan, s, d, k, z, e)
  {
    hide Tied, Plan.Mobile;
  }

  /** One more task, which does not depend on d itself. */
  lemma RunNext(plan: Plan, s: State, d: Task, k: seq<Task>, done: set<Task>, swept: bool, z: Task) returns (s': State)
    requires plan.g.WellFormed() && Lineage(plan, k, d) && Staged(plan, s, d, k, done, swept)
    requires z in plan.g.tasks && z !in done && plan.g.deps[z] != {} && plan.g.deps[z] <= done && d !in plan.g.deps[z]
    ensures Staged(plan, s', d, k, done + {z}, swept)
  {
    assert k != [];
    hide Lawful, Camped, Tied, Lineage, Plan.Mobile, GoodLast;
    var y := PickLast(plan, d, k, z);
    AllCanBeLast(plan, s, d, k, done, swept, y, z) by { GoodLastIsEdge(plan, d, k, y, z); }
    hide Ready;
    var s1, c := Grant(plan, s, y, z);
    NextRunner(plan, s, d, k, done, y, z, c.exec);
    InputsStored(plan, s, s1, d, k, done, swept, z, c);
    OthersElsewhere(plan, s, s1, y, z, c);
    hide Untouched, Leaves, KeptByRunner;
    assert d !in s.store by { NotStored(s, plan, d); }
    s' := RunClaimed(plan, s, s1, d, z, c);
    AdvancedIsStaged(plan, s, s', d, k, done, swept, z, c.exec);
  }

  lemma GoodLastIsEdge(plan: Plan, d: Task, k: seq<Task>, y: Task, z: Task)
    requires plan.g.WellFormed() && k != [] && GoodLast(plan, d, k, y, z)
    ensures plan.g.HasEdge(y, z)
  {
  }

  lemma NotStored(s: State, plan: Plan, d: Task)
    requires KeptByRunner(plan, s, d)
    ensures d !in s.store
  {
  }

  lemma AllCanBeLast(plan: Plan, s: State, d: Task, k: seq<Task>, done: set<Task>, swept: bool, y: Task, z: Task)
    requires plan.g.WellFormed() && k != [] && Staged(plan, s, d, k, done, swept) && plan.g.HasEdge(y, z)
    requires z !in done && plan.g.deps[z] <= done && d !in plan.g.deps[z]
    ensures CanBeLast(plan, s, y, z) && y in done && Calm(plan, s)
  {
    hide Lawful, Ready, Camped, Tied, KeptByRunner;
    forall x | x in plan.g.deps[z] ensures s.Phase(x, z).Waiting? && Ready(plan, s, x) {
      assert plan.g.HasEdge(x, z);
    }
  }

  lemma InputsStored(plan: Plan, s: State, s1: State, d: Task, k: seq<Task>, done: set<Task>, swept: bool, z: Task, c: Claim)
    requires plan.g.WellFormed() && k != [] && Staged(plan, s, d, k, done, swept)
    requires z in plan.g.tasks && plan.g.deps[z] <= done && d !in plan.g.deps[z]
    requires Lawful(plan, s1) && GotClaim(s, s1, c) && c.task == z
    ensures Claimable(plan, s, s1, d, z, c)
  {
    hide Lawful, Camped, Tied, KeptByRunner, Untouched, Leaves;
    forall x | x in plan.g.deps[z] ensures x in s1.store.Keys {
      assert Ready(plan, s, x);
    }
  }

  lemma OthersElsewhere(plan: Plan, s: State, s1: State, y: Task, z: Task, c: Claim)
    requires plan.g.WellFormed() && Leaves(plan, s) && GotClaim(s, s1, c) && y in s.ranBy
    requires if plan.Mobile(y, z) then Idle(s, c.exec) else c.exec == s.ranBy[y]
    ensures forall c' :: c' in s1.pending - {c} ==> c'.exec != c.exec && c' in s.pending
  {
    hide Plan.Mobile;
  }

  lemma RunnerNotProxy(plan: Plan, s: State)
    requires plan.g.WellFormed() && Lawful(plan, s)
    ensures forall x :: x in s.ranBy ==> s.ranBy[x] != PROXY
  {
    hide Lawful, EdgesInPlace, EndedInOrder;
    LawfulLawInv(plan, s);
  }

  lemma OthersReady(plan: Plan, s: State, d: Task, k: seq<Task>, done: set<Task>, swept: bool, z: Task)
    requires plan.g.WellFormed() && k != [] && Staged(plan, s, d, k, done, swept) && plan.g.HasEdge(d, z)
    requires z !in done && plan.g.deps[z] <= done
    ensures forall y :: y in plan.g.deps[z] - {d} ==> Ready(plan, s, y) && s.Phase(y, z).Waiting?
    ensures if swept then s.Phase(d, z).Held? else s.Phase(d, z).Waiting?
    ensures Calm(plan, s)
  {
    hide Lawful, Ready, Camped, Tied, KeptByRunner;
    forall y | y in plan.g.deps[z] - {d} ensures Ready(plan, s, y) && s.Phase(y, z).Waiting? {
      assert plan.g.HasEdge(y, z);
    }
  }

  /** d's executor has all that a dependent of d needs. */
  lemma BigInputsThere(plan: Plan, s: State, s1: State, d: Task, k: seq<Task>, done: set<Task>, swept: bool, z: Task, c: Claim)
    requires plan.g.WellFormed() && k != [] && Staged(plan, s, d, k, done, swept)
    requires z !in done && plan.g.HasEdge(d, z) && plan.g.deps[z] <= done
    requires Lawful(plan, s1) && GotClaim(s, s1, c) && c.task == z && c.exec == s.ranBy[d] && s1.cache == s.cache
    ensures Claimable(plan, s, s1, d, z, c)
  {
    NotRunYet(plan, s, z);
    RunnerHas(plan, s, d, z);
    hide Lawful, Camped, Tied, KeptByRunner, Untouched, Leaves;
    forall x | x in plan.g.deps[z] ensures x in s1.store.Keys + s1.Cached(c.exec).Keys {
      assert x != d ==> Ready(plan, s, x);
    }
  }

  lemma NotRunYet(plan: Plan, s: State, z: Task)
    requires plan.g.WellFormed() && Lawful(plan, s) && z in plan.g.tasks && z !in s.ranBy
    ensures s.Runs(z) == 0
  {
    hide Lawful;
    LawfulDiscipline(plan, s);
  }

  lemma RunnerHas(plan: Plan, s: State, d: Task, z: Task)
    requires plan.g.WellFormed() && Lawful(plan, s) && plan.g.HasEdge(d, z) && d in s.ranBy && s.Runs(z) == 0
    ensures d in s.Cached(s.ranBy[d])
  {
    hide Lawful;
    LawfulInv(plan, s);
    RunnerKeeps(plan.g, s, d, z);
  }

  lemma BigRunner(plan: Plan, s: State, d: Task, k: seq<Task>, done: set<Task>, z: Task)
    requires plan.g.WellFormed() && Lineage(plan, k, d) && s.ranBy.Keys == done && Camped(plan, s, d, k, done) && d in done
    requires plan.g.HasEdge(d, z)
    ensures RightRunner(plan, s, d, k, z, s.ranBy[d])
  {
    LineageNotBelow(plan, d, k, z);
    hide Tied, Lineage;
  }

  /** All other edges into z are counted, and d's, from the queue, is taken by a check. */
  lemma TakeHeld(plan: Plan, s: State, d: Task, k: seq<Task>, done: set<Task>, z: Task) returns (s': State)
    requires plan.g.WellFormed() && k != [] && Staged(plan, s, d, k, done, true)
    requires z !in done && plan.g.HasEdge(d, z) && plan.g.deps[z] <= done && d in plan.big && !plan.Missed(d, z)
    ensures Lawful(plan, s') && GotClaim(s, s', Claim(z, s.ranBy[d], false)) && s'.cache == s.cache
    ensures s'.pending == s.pending + {Claim(z, s.ranBy[d], false)}
  {
    OthersReady(plan, s, d, k, done, true, z);
    RunnerNotProxy(plan, s);
    assert d in s.ranBy;
    hide Lawful, Staged, Plan.Missed, Ready, GotClaim, ClaimMade;
    var s1 := CountAll(plan, s, plan.g.deps[z] - {d}, z, d);
    assert Done(plan.g, s1, z) == plan.g.deps[z] - {d};
    s' := PeekLast(plan, s1, d, z);
    hide Calm, Graph.WellFormed, Done;
    CountedThenMade(s, s1, s', plan.g.deps[z] - {d}, Claim(z, s.ranBy[d], false));
    MadeClaim(s, s', Claim(z, s.ranBy[d], false));
  }

  lemma CountedThenMade(s: State, s1: State, s': State, ys: set<Task>, c: Claim)
    requires OnlyCounted(s, s1, ys, c.task) && ClaimMade(s1, s', c)
    ensures ClaimMade(s, s', c)
  {
  }

  /** One more task that only waits for an edge of d in the queue. */
  lemma RunHeld(plan: Plan, s: State, d: Task, k: seq<Task>, done: set<Task>, z: Task) returns (s': State)
    requires plan.g.WellFormed() && Lineage(plan, k, d) && Staged(plan, s, d, k, done, true)
    requires z !in done && plan.g.HasEdge(d, z) && plan.g.deps[z] <= done && d in plan.big && !plan.Missed(d, z)
    ensures Staged(plan, s', d, k, done + {z}, true)
  {
    assert k != [];
    hide Lawful, Camped, Tied, Lineage, Plan.Missed, Ready, GotClaim;
    var c := Claim(z, s.ranBy[d], false);
    var s2 := TakeHeld(plan, s, d, k, done, z);
    BigInputsThere(plan, s, s2, d, k, done, true, z, c);
    BigRunner(plan, s, d, k, done, z);
    hide Untouched;
    assert d !in s.store by { NotStored(s, plan, d); }
    s' := RunClaimed(plan, s, s2, d, z, c);
    assert OthersLeft(s, s', c.exec);
    hide Leaves, KeptByRunner;
    AdvancedIsStaged(plan, s, s', d, k, done, true, z, c.exec);
  }

  // ---- Running a whole set of tasks ------------------------------------------

  /** z does not depend on d itself, or waits in the queue of d's executor for a check. */
  ghost predicate Runnable(plan: Plan, d: Task, z: Task, swept: bool)
    requires plan.g.WellFormed()
  {
    plan.g.HasEdge(d, z) ==> swept && d in plan.big && !plan.Missed(d, z)
  }

  lemma RunOneMore(plan: Plan, s: State, d: Task, k: seq<Task>, done: set<Task>, swept: bool, z: Task) returns (s': State)
    requires plan.g.WellFormed() && Lineage(plan, k, d) && Staged(plan, s, d, k, done, swept)
    requires z in plan.g.tasks && z !in done && plan.g.deps[z] <= done && Runnable(plan, d, z, swept)
    ensures Staged(plan, s', d, k, done + {z}, swept)
  {
    hide Staged, Lineage, Plan.Missed;
    if plan.g.deps[z] == {} {
      s' := RunLeaf(plan, s, d, k, done, swept, z);
    } else if d in plan.g.deps[z] {
      s' := RunHeld(plan, s, d, k, done, z);
    } else {
      s' := RunNext(plan, s, d, k, done, swept, z);
    }
  }

  lemma {:induction false} RunSet(plan: Plan, s: State, d: Task, k: seq<Task>, done: set<Task>, swept: bool, goal: set<Task>)
    returns (s': State)
    requires plan.g.WellFormed() && Lineage(plan, k, d) && k != [] && Staged(plan, s, d, k, done, swept)
    requires done <= goal <= plan.g.tasks
    requires forall z :: z in goal ==> plan.g.deps[z] <= goal && (z !in done ==> Runnable(plan, d, z, swept))
    ensures Staged(plan, s', d, k, goal, swept)
    decreases goal - done
  {
    hide Lineage, Staged, Runnable;
    if forall x :: x in goal ==> x in done {
      assert goal == done;
      s' := s;
    } else {
      var left := goal - done;
      var x :| x in goal && x !in done;
      assert x in left;
      var z := MinLevel(plan.g, left);
      forall y | y in plan.g.deps[z] ensures y in done {
        assert y in goal && plan.g.level[y] < plan.g.level[z];
      }
      var s1 := RunOneMore(plan, s, d, k, done, swept, z);
      s' := RunSet(plan, s1, d, k, done + {z}, swept, goal);
    }
  }

  /** Once all leaves have run, nobody has a claim. */
  lemma NoClaimLeft(plan: Plan, s: State, d: Task, k: seq<Task>, done: set<Task>, swept: bool)
    requires plan.g.WellFormed() && k != [] && Staged(plan, s, d, k, done, swept)
    requires forall z :: z in plan.g.tasks && plan.g.deps[z] == {} ==> z in done
    ensures s.pending == {}
  {
    hide Lawful, Camped, Tied, KeptByRunner, Untouched, Ready;
    if c :| c in s.pending { ClaimedNotRun(plan, s, c); }
  }

  lemma ClaimedNotRun(plan: Plan, s: State, c: Claim)
    requires plan.g.WellFormed() && Lawful(plan, s) && c in s.pending
    ensures c.task !in s.ranBy
  {
    hide Lawful;
    LawfulDiscipline(plan, s);
    ClaimedIsFresh(plan.g, s, c);
  }
}
