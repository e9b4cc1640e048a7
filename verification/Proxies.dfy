/** The proxy's half of a large fan-out: it stores the value that an executor published,
    counts the invoke edges, and invokes what has become ready.  Its INCR and GET are taken
    as one command here; module SplitCounters says what is left when they are not. */
module Proxies {
  import opened Graphs
  import opened FanIn
  import opened FanInSafety
  import opened LocalViews
  import opened Plans
  import opened Conduct
  import opened Clusters
  import opened Lists

  /** What was delegated to the proxy is still with it, and what was counted stays counted. */
  ghost predicate Kept(g: Graph, s: State, s': State)
    requires g.WellFormed()
  {
    forall d, t :: g.HasEdge(d, t) ==>
      && (s.Phase(d, t).Proxied? ==> s'.Phase(d, t) == s.Phase(d, t))
      && (s.Phase(d, t).Settled? ==> s'.Phase(d, t).Settled?)
  }

  lemma KeptTwice(g: Graph, s: State, s': State, s'': State)
    requires g.WellFormed() && Kept(g, s, s') && Kept(g, s', s'')
    ensures Kept(g, s, s'')
  {
    hide Graph.WellFormed;
  }

  lemma MovedNotKept(g: Graph, s: State, step: Step)
    requires g.WellFormed() && Enabled(g, s, step) && MovesEdge(step) && !step.ProxyCount?
    ensures !s.Phase(step.d, step.t).Proxied? && !s.Phase(step.d, step.t).Settled?
  {
    hide Done;
  }

  lemma OthersStepKeeps(g: Graph, s: State, step: Step)
    requires g.WellFormed() && Enabled(g, s, step) && step.Actor() != PROXY
    ensures Kept(g, s, Apply(g, s, step))
  {
    if MovesEdge(step) {
      hide Apply, Done, CountEdge, Completes;
      MovedNotKept(g, s, step);
      EdgeStepMovesOne(g, s, step);
      hide Enabled, Graph.WellFormed;
    } else {
      SamePhaseOtherwise(g, s, step);
      assert SameEdges(s, Apply(g, s, step));
    }
  }

  lemma {:induction false} OthersRunKeeps(g: Graph, s: State, steps: seq<Step>)
    requires g.WellFormed() && CanRun(g, s, steps)
    requires forall i :: 0 <= i < |steps| ==> steps[i].Actor() != PROXY
    ensures Kept(g, s, RunFrom(g, s, steps))
    decreases |steps|
  {
    if steps != [] {
      hide Apply, Enabled, Kept;
      OthersStepKeeps(g, s, steps[0]);
      OthersRunKeeps(g, Apply(g, s, steps[0]), steps[1..]);
      KeptTwice(g, s, Apply(g, s, steps[0]), RunFrom(g, s, steps));
    }
  }

  /** Counting a delegated edge, as the proxy sees it. */
  lemma OwnProxyCount(g: Graph, s: State, d: Task, t: Task)
    requires g.WellFormed() && Discipline(g, s) && g.HasEdge(d, t) && Enabled(g, s, ProxyCount(PROXY, d, t))
    ensures var s', v := Apply(g, s, ProxyCount(PROXY, d, t)), View(g, s, PROXY);
            && View(g, s', PROXY) == v.(claims := v.claims + Granted(Completes(g, s, d, t), t, true))
            && (Completes(g, s, d, t) ==> t !in v.claims)
            && OnlyEdge(s, s', d, t) && s'.Phase(d, t).Settled? && !s.Phase(d, t).Settled? && s'.store == s.store
  {
    hide Discipline, Completes, Done, CountEdge, ClaimsOf, Granted, View;
    var step := ProxyCount(PROXY, d, t);
    var s', c := Apply(g, s, step), Claim(t, PROXY, true);
    CountApplied(g, s, step);
    hide Apply, Enabled;
    CountEdgeMovesOne(g, s, d, c);
    CountEdgeSettles(g, s, d, c);
    NoClaimYet(g, s, PROXY, d, t);
    ClaimGranted(g, s, s', PROXY, d, t, Completes(g, s, d, t), true);
    ProxyViewAfter(g, s, s', d, t, Granted(Completes(g, s, d, t), t, true));
  }

  lemma ProxyViewAfter(g: Graph, s: State, s': State, d: Task, t: Task, claimed: map<Task, bool>)
    requires g.WellFormed() && OnlyEdge(s, s', d, t) && s.Phase(d, t).Proxied? && s'.Phase(d, t).Settled?
    requires s'.cache == s.cache && s'.ranBy == s.ranBy && s'.owed == s.owed && s'.givingUp == s.givingUp
    requires ClaimsOf(s', PROXY) == ClaimsOf(s, PROXY) + claimed
    ensures var v := View(g, s, PROXY); View(g, s', PROXY) == v.(claims := v.claims + claimed)
    ensures View(g, s, PROXY).claims == ClaimsOf(s, PROXY)
  {
    assert OwnEdgesSame(g, s, s', PROXY);
    hide OwnEdgesSame, ClaimsOf;
    SameWaiting(g, s, s', PROXY);
    SameHeld(g, s, s', PROXY);
    assert RanOf(s', PROXY) == RanOf(s, PROXY) && OwingOf(s', PROXY) == OwingOf(s, PROXY);
    hide WaitingOf, HeldOf, TakenOf, RanOf, OwingOf;
  }

  lemma ProxyCountStep(plan: Plan, before: State, s: State, d: Task, t: Task)
    requires plan.WellFormed() && Lawful(plan, s) && Undisturbed(plan.g, PROXY, before, s) && Kept(plan.g, before, s)
    requires plan.g.HasEdge(d, t) && Enabled(plan.g, s, ProxyCount(PROXY, d, t))
    ensures var s', v := Apply(plan.g, s, ProxyCount(PROXY, d, t)), View(plan.g, before, PROXY);
            && Commits(plan, before, s', PROXY, v.(claims := v.claims + Granted(Completes(plan.g, s, d, t), t, true)))
            && (Completes(plan.g, s, d, t) ==> t !in v.claims)
            && OnlyEdge(s, s', d, t) && s'.Phase(d, t).Settled? && !s.Phase(d, t).Settled? && s'.store == s.store
            && KeptBut(plan.g, before, s', d, t)
  {
    hide Lawful, Done, View, Completes, Onward, Discipline, Granted, Apply, Enabled, Kept, KeptBut, Plan.ListsOutEdges,
      Plan.AssignsBits;
    LawfulDiscipline(plan, s);
    OwnProxyCount(plan.g, s, d, t);
    ProxyUsed(Apply(plan.g, s, ProxyCount(PROXY, d, t)));
    OwnStepTaken(plan, s, PROXY, ProxyCount(PROXY, d, t));
    OnwardCompose(plan.g, PROXY, before, s, Apply(plan.g, s, ProxyCount(PROXY, d, t)));
    StillKeptBut(plan.g, before, s, Apply(plan.g, s, ProxyCount(PROXY, d, t)), d, t);
  }

  /** Kept, except that d -> t has been counted. */
  ghost predicate KeptBut(g: Graph, s: State, s': State, d: Task, t: Task)
    requires g.WellFormed()
  {
    && s'.Phase(d, t).Settled?
    && forall d', t' :: g.HasEdge(d', t') && (d' != d || t' != t) ==>
         && (s.Phase(d', t').Proxied? ==> s'.Phase(d', t') == s.Phase(d', t'))
         && (s.Phase(d', t').Settled? ==> s'.Phase(d', t').Settled?)
  }

  lemma StillKeptBut(g: Graph, before: State, s: State, s': State, d: Task, t: Task)
    requires g.WellFormed() && Kept(g, before, s) && OnlyEdge(s, s', d, t) && s'.Phase(d, t).Settled?
    ensures KeptBut(g, before, s', d, t)
  {
    hide Graph.WellFormed;
  }

  lemma ProxyUsed(s: State)
    ensures s.Used(PROXY)
  {
  }

  lemma SentIsRight(plan: Plan, s: State, d: Task)
    requires plan.WellFormed() && Lawful(plan, s) && d in s.sent
    ensures d in plan.g.tasks && s.sent[d] == plan.g.Eval(d)
  {
    hide Lawful, Discipline, WithinReach, Plan.ListsOutEdges, Plan.AssignsBits;
    LawfulInv(plan, s);
    assert SentRight(plan.g, s, d);
  }

  /** Storing moves no edge. */
  lemma ProxyPutQuiet(g: Graph, s: State, d: Task)
    requires g.WellFormed() && Enabled(g, s, ProxyPut(PROXY, d))
    ensures var s' := Apply(g, s, ProxyPut(PROXY, d));
            SameCounted(g, s, s') && s'.phase == s.phase && s'.store == s.store[d := s.sent[d]]
  {
    hide Done;
    var s' := Apply(g, s, ProxyPut(PROXY, d));
    assert SameEdges(s, s');
    SameEdgesSameCounted(g, s, s');
  }

  lemma ProxyPutSameView(g: Graph, s: State, d: Task)
    requires g.WellFormed() && Enabled(g, s, ProxyPut(PROXY, d))
    ensures View(g, Apply(g, s, ProxyPut(PROXY, d)), PROXY) == View(g, s, PROXY)
  {
    hide View;
    SameView(g, s, Apply(g, s, ProxyPut(PROXY, d)), PROXY);
  }

  lemma ProxyPutStep(plan: Plan, before: State, s: State, d: Task)
    requires plan.WellFormed() && Lawful(plan, s) && Undisturbed(plan.g, PROXY, before, s)
    requires Enabled(plan.g, s, ProxyPut(PROXY, d))
    ensures var s' := Apply(plan.g, s, ProxyPut(PROXY, d));
            && Commits(plan, before, s', PROXY, View(plan.g, before, PROXY))
            && SameCounted(plan.g, s, s') && s'.phase == s.phase && s'.store == s.store[d := s.sent[d]]
  {
    hide Lawful, Done, Onward, View, SameCounted, Apply, Enabled, Plan.ListsOutEdges, Plan.AssignsBits;
    var s' := Apply(plan.g, s, ProxyPut(PROXY, d));
    ProxyPutQuiet(plan.g, s, d);
    ProxyPutSameView(plan.g, s, d);
    ProxyUsed(s');
    OwnStepTaken(plan, s, PROXY, ProxyPut(PROXY, d));
    OnwardCompose(plan.g, PROXY, before, s, s');
  }

  lemma SentStays(g: Graph, s: State, s': State, d: Task)
    requires g.WellFormed() && Undisturbed(g, PROXY, s, s') && d in s.sent
    ensures d in s'.sent
  {
    hide View, Reaches;
  }

  lemma ProxyPutKeeps(g: Graph, s: State, d: Task)
    requires g.WellFormed() && Enabled(g, s, ProxyPut(PROXY, d))
    ensures Kept(g, s, Apply(g, s, ProxyPut(PROXY, d)))
  {
    assert SameEdges(s, Apply(g, s, ProxyPut(PROXY, d)));
  }

  lemma ProxyActive(plan: Plan, s: State)
    requires plan.WellFormed() && Lawful(plan, s)
    ensures s.Active(PROXY)
  {
    hide Lawful, EdgesInPlace, EndedInOrder, Plan.ListsOutEdges, Plan.AssignsBits, Graph.WellFormed;
    LawfulLawInv(plan, s);
    ProxyUsed(s);
  }

  class RedisProxy {
    const cluster: Cluster
    var completedTasks: set<Task>

    constructor (cluster: Cluster)
      requires cluster.Valid() && !cluster.plan.useBits
      ensures this.cluster == cluster && Valid() && completedTasks == {}
    {
      this.cluster := cluster;
      completedTasks := {};
    }

    /** The proxy counts with INCR, whatever the executors use. */
    ghost predicate Valid()
      reads this, cluster
    {
      cluster.plan.WellFormed() && cluster.Valid() && !cluster.plan.useBits
    }

    ghost function Mine(): Local
      requires cluster.plan.WellFormed()
      reads this, cluster
    {
      cluster.Me(PROXY)
    }

    method Await()
      requires Valid()
      modifies cluster
      ensures Valid() && Undisturbed(cluster.plan.g, PROXY, old(cluster.st), cluster.st) && cluster.st.Active(PROXY)
      ensures Kept(cluster.plan.g, old(cluster.st), cluster.st) && old(cluster.st.store).Keys <= cluster.st.store.Keys
    {
      hide Inv, Lawful, View, RedisAgrees, Kept, Plan.ListsOutEdges, Plan.AssignsBits, Graph.WellFormed;
      ghost var g, before := cluster.plan.g, cluster.st;
      LawfulInv(cluster.plan, before);
      ProxyActive(cluster.plan, before);
      cluster.Interfere(PROXY);
      ProxyActive(cluster.plan, cluster.st);
      ghost var steps: seq<Step> :| CanRun(g, before, steps) && RunFrom(g, before, steps) == cluster.st
        && forall i :: 0 <= i < |steps| ==> steps[i].Actor() != PROXY;
      OthersRunUndisturbed(g, before, steps, PROXY);
      OthersRunKeeps(g, before, steps);
    }

    /** SET of the value that came with the message. */
    method StoreValue(d: Task, v: Value)
      requires Valid() && d in cluster.plan.g.tasks && d in cluster.st.sent && v == cluster.plan.g.Eval(d)
      modifies cluster
      ensures Valid() && Onward(cluster.plan.g, PROXY, old(cluster.st), cluster.st) && d in cluster.st.store
      ensures Kept(cluster.plan.g, old(cluster.st), cluster.st) && Mine() == old(Mine())
    {
      hide Lawful, BitsAgree, CountersAgree, View, Onward, Plan.ListsOutEdges, Plan.AssignsBits, Graph.Eval, SameCounted;
      Await();
      ghost var mid := cluster.st;
      SentStays(cluster.plan.g, old(cluster.st), mid, d);
      SentIsRight(cluster.plan, mid, d);
      ProxyPutStep(cluster.plan, old(cluster.st), mid, d);
      ProxyPutKeeps(cluster.plan.g, mid, d);
      KeptTwice(cluster.plan.g, old(cluster.st), mid, Apply(cluster.plan.g, mid, ProxyPut(PROXY, d)));
      cluster.st := Apply(cluster.plan.g, mid, ProxyPut(PROXY, d));
      cluster.store := cluster.store[d := v];
      SameCountedStillAgrees(cluster.plan, cluster.counters, cluster.bits, mid.store, mid, cluster.st);
    }

    /** INCR and GET of the counter of t. */
    method CountDelegated(d: Task, t: Task) returns (ready: bool)
      requires Valid() && cluster.plan.g.HasEdge(d, t) && cluster.st.Phase(d, t).Proxied? && d in cluster.st.store
      modifies cluster
      ensures Valid() && Onward(cluster.plan.g, PROXY, old(cluster.st), cluster.st)
      ensures KeptBut(cluster.plan.g, old(cluster.st), cluster.st, d, t) && d in cluster.st.store
      ensures Mine() == old(Mine()).(claims := old(Mine()).claims + Granted(ready, t, true))
      ensures ready ==> t !in old(Mine()).claims
    {
      hide Lawful, RedisAgrees, Done, Completes, View, Onward, Apply, Plan.ListsOutEdges, Plan.AssignsBits, OnlyEdge, Granted, KeptBut;
      Await();
      ghost var mid, counters0, bits0 := cluster.st, cluster.counters, cluster.bits;
      ProxyCountStep(cluster.plan, old(cluster.st), mid, d, t);
      ready := cluster.CountUp(d, t);
      cluster.st := Apply(cluster.plan.g, mid, ProxyCount(PROXY, d, t));
      CountStillAgrees(cluster.plan, counters0, bits0, cluster.store, mid, cluster.st, d, t, cluster.counters, cluster.bits);
    }

    /** One new Lambda for t, with d's value if it fits into the payload. */
    method InvokeReady(d: Task, v: Value, t: Task, fits: bool)
      requires Valid() && t in Mine().claims && Mine().claims[t]
      requires d in cluster.st.store && d in cluster.plan.g.tasks && v == cluster.plan.g.Eval(d) && cluster.plan.g.HasEdge(d, t)
      modifies cluster
      ensures Valid() && Onward(cluster.plan.g, PROXY, old(cluster.st), cluster.st) && d in cluster.st.store
      ensures Kept(cluster.plan.g, old(cluster.st), cluster.st)
      ensures Mine() == old(Mine()).(claims := old(Mine()).claims - {t})
      ensures exists e: Exec :: e != PROXY && Claim(t, e, true) in cluster.st.pending
                                && cluster.st.Cached(e) == if fits then map[d := v] else map[]
    {
      hide Lawful, RedisAgrees, View, Onward, Plan.ListsOutEdges, Plan.AssignsBits, Graph.WellFormed,
        Graph.Eval, SameCounted, Discipline, Kept, Apply, Enabled, State.Used;
      Await();
      ghost var g, mid := cluster.plan.g, cluster.st;
      var payload := if fits then map[d := v] else map[];
      ghost var lambda := FreshExec(mid);
      ghost var step := FanIn.Invoke(PROXY, lambda, Claim(t, PROXY, true), payload);
      StoreIsRight(cluster.plan, mid, d);
      LawfulDiscipline(cluster.plan, mid);
      ClaimInView(g, mid, PROXY, t);
      CanInvoke(g, mid, step);
      ProxyInvokeStep(cluster.plan, old(cluster.st), mid, step);
      cluster.st := Apply(g, mid, step);
      InvokedStarts(g, mid, step);
      SameCountedStillAgrees(cluster.plan, cluster.counters, cluster.bits, cluster.store, mid, cluster.st);
    }

    /** process_task: store, count every invoke edge, invoke what is ready.  Each edge that was
        delegated with the message is counted once, and each claim made by that is handed to
        one new Lambda. */
    method ProcessTask(d: Task, v: Value, fits: set<Task>)
      requires Valid() && d in cluster.plan.g.tasks && v == cluster.plan.g.Eval(d)
      requires d in cluster.st.sent && Distinct(cluster.plan.InvokeOf(d))
      requires Delegated(cluster.plan.g, cluster.st, d, cluster.plan.InvokeOf(d), 0)
      modifies this, cluster
      ensures Valid() && Onward(cluster.plan.g, PROXY, old(cluster.st), cluster.st)
      ensures d in cluster.st.store && completedTasks == old(completedTasks) + {d}
      ensures Delegated(cluster.plan.g, cluster.st, d, cluster.plan.InvokeOf(d), |cluster.plan.InvokeOf(d)|)
      ensures Mine() == old(Mine())
    {
      hide Lawful, RedisAgrees, View, Onward, Plan.WellFormed, Graph.WellFormed, Graph.Eval, Kept, KeptBut, Cluster.Valid,
        Gathered, Delegated, Plan.InvokeOf, Granted;
      ghost var g, before, v0 := cluster.plan.g, cluster.st, Mine();
      var invoke := cluster.plan.InvokeOf(d);
      GraphOf(cluster.plan);
      StoreValue(d, v);
      DelegatedKept(g, before, cluster.st, d, invoke, 0);
      completedTasks := completedTasks + {d};
      var canNowExecute: seq<Task> := [];
      GatheredNothing(v0);
      for i := 0 to |invoke|
        invariant Valid() && Onward(g, PROXY, before, cluster.st) && d in cluster.st.store
        invariant Delegated(g, cluster.st, d, invoke, i) && Gathered(v0, Mine(), canNowExecute)
        invariant completedTasks == old(completedTasks) + {d} && forall t :: t in canNowExecute ==> g.HasEdge(d, t)
      {
        ghost var mid, v' := cluster.st, Mine();
        StillDelegated(g, mid, d, invoke, i);
        var ready := CountDelegated(d, invoke[i]);
        OnwardCompose(g, PROXY, before, mid, cluster.st);
        DelegatedCounted(g, mid, cluster.st, d, invoke, i);
        GatheredMore(v0, v', canNowExecute, invoke[i], ready);
        if ready { canNowExecute := canNowExecute + [invoke[i]]; }
      }
      ghost var v1 := Mine();
      for i := 0 to |canNowExecute|
        invariant Valid() && Onward(g, PROXY, before, cluster.st) && d in cluster.st.store
        invariant Delegated(g, cluster.st, d, invoke, |invoke|)
        invariant Mine() == v1.(claims := v1.claims - Elems(canNowExecute[..i]))
        invariant completedTasks == old(completedTasks) + {d}
      {
        ghost var mid := cluster.st;
        GatheredClaim(v0, v1, canNowExecute, i);
        InvokeReady(d, v, canNowExecute[i], canNowExecute[i] in fits);
        OnwardCompose(g, PROXY, before, mid, cluster.st);
        DelegatedKept(g, mid, cluster.st, d, invoke, |invoke|);
      }
      GatheredHandedOut(v0, v1, canNowExecute);
    }
  }

  lemma GraphOf(plan: Plan)
    requires plan.WellFormed()
    ensures plan.g.WellFormed()
  {
  }

  lemma CanInvoke(g: Graph, s: State, step: Step)
    requires g.WellFormed() && step.Invoke? && step.c in s.pending - s.failed && step.c.exec == step.e && step.c.mobile
    requires !s.Used(step.e') && s.Active(step.e)
    requires forall k :: k in step.data ==> k in s.store && step.data[k] == s.store[k]
    ensures Enabled(g, s, step)
  {
  }

  lemma ProxyInvokeStep(plan: Plan, before: State, s: State, step: Step)
    requires plan.WellFormed() && Lawful(plan, s) && Undisturbed(plan.g, PROXY, before, s) && Kept(plan.g, before, s)
    requires step.Invoke? && step.e == PROXY && Enabled(plan.g, s, step) && Follows(plan, s, step)
    ensures var s', v := Apply(plan.g, s, step), View(plan.g, before, PROXY);
            && Commits(plan, before, s', PROXY, v.(claims := v.claims - {step.c.task}))
            && SameCounted(plan.g, s, s') && s'.store == s.store && Kept(plan.g, before, s')
  {
    hide Lawful, View, Onward, Apply, Enabled, Kept, Discipline, SameCounted, State.Used, Graph.WellFormed, Plan.ListsOutEdges,
      Plan.AssignsBits;
    var s' := Apply(plan.g, s, step);
    LawfulDiscipline(plan, s);
    ProxyUsed(s);
    ProxyUsed(s');
    UncountedStep(plan, before, s, PROXY, step);
    OwnInvoke(plan.g, s, step);
    InvokeMovesNoEdge(plan.g, s, step);
    KeptTwice(plan.g, before, s, s');
  }

  /** The new Lambda has the claim and what was sent along. */
  lemma InvokedStarts(g: Graph, s: State, step: Step)
    requires g.WellFormed() && step.Invoke? && Enabled(g, s, step)
    ensures step.e' != PROXY && Claim(step.c.task, step.e', true) in Apply(g, s, step).pending
    ensures Apply(g, s, step).Cached(step.e') == step.data
  {
  }

  lemma InvokeMovesNoEdge(g: Graph, s: State, step: Step)
    requires g.WellFormed() && step.Invoke? && Enabled(g, s, step)
    ensures Kept(g, s, Apply(g, s, step)) && Apply(g, s, step).store == s.store
  {
    assert SameEdges(s, Apply(g, s, step));
  }

  /** Of the invoke edges of d, the first n have been counted, the others are with the proxy. */
  ghost predicate Delegated(g: Graph, s: State, d: Task, invoke: seq<Task>, n: nat)
    requires g.WellFormed()
  {
    forall i :: 0 <= i < |invoke| ==>
      g.HasEdge(d, invoke[i]) && if i < n then s.Phase(d, invoke[i]).Settled? else s.Phase(d, invoke[i]).Proxied?
  }

  lemma StillDelegated(g: Graph, s: State, d: Task, invoke: seq<Task>, i: nat)
    requires g.WellFormed() && Delegated(g, s, d, invoke, i) && i < |invoke|
    ensures g.HasEdge(d, invoke[i]) && s.Phase(d, invoke[i]).Proxied?
  {
  }

  lemma DelegatedKept(g: Graph, s: State, s': State, d: Task, invoke: seq<Task>, n: nat)
    requires g.WellFormed() && Delegated(g, s, d, invoke, n) && Kept(g, s, s')
    ensures Delegated(g, s', d, invoke, n)
  {
    hide Graph.WellFormed, State.Phase;
  }

  lemma DelegatedCounted(g: Graph, s: State, s': State, d: Task, invoke: seq<Task>, n: nat)
    requires g.WellFormed() && n < |invoke| && Distinct(invoke)
    requires Delegated(g, s, d, invoke, n) && KeptBut(g, s, s', d, invoke[n])
    ensures Delegated(g, s', d, invoke, n + 1)
  {
    hide Graph.WellFormed, State.Phase;
  }

  /** The claims gathered so far are those of the tasks in `ready`. */
  ghost predicate Gathered(v: Local, v': Local, ready: seq<Task>) {
    && v' == v.(claims := v'.claims) && v'.claims - Elems(ready) == v.claims && Elems(ready) !! v.claims.Keys
    && Distinct(ready) && forall t :: t in ready ==> t in v'.claims && v'.claims[t]
  }

  lemma GatheredNothing(v: Local)
    ensures Gathered(v, v, [])
  {
    assert v.claims - Elems([]) == v.claims;
  }

  lemma GatheredMore(v: Local, v': Local, ready: seq<Task>, t: Task, won: bool)
    requires Gathered(v, v', ready) && (won ==> t !in v'.claims)
    ensures Gathered(v, v'.(claims := v'.claims + Granted(won, t, true)), if won then ready + [t] else ready)
  {
    ElemsMore(ready, t);
    InElems(ready);
    hide Elems, Distinct;
    var claims := v'.claims + Granted(won, t, true);
    if won {
      assert claims - (Elems(ready) + {t}) == v.claims;
    } else {
      assert claims == v'.claims;
    }
  }

  lemma GatheredClaim(v: Local, v': Local, ready: seq<Task>, i: nat)
    requires Gathered(v, v', ready) && i < |ready|
    ensures ready[i] in v'.claims - Elems(ready[..i]) && v'.claims[ready[i]]
    ensures v'.claims - Elems(ready[..i]) - {ready[i]} == v'.claims - Elems(ready[..i + 1])
  {
    assert ready[..i + 1] == ready[..i] + [ready[i]];
    ElemsMore(ready[..i], ready[i]);
  }

  lemma GatheredHandedOut(v: Local, v': Local, ready: seq<Task>)
    requires Gathered(v, v', ready)
    ensures v'.(claims := v'.claims - Elems(ready[..|ready|])) == v
  {
    assert ready[..|ready|] == ready;
  }
}
