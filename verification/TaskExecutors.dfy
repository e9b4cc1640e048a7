/** One Lambda executor: process_path and what it calls.  Every Redis command goes through
    a Cluster, so each contract holds whatever other executors and the proxy do meanwhile. */
module TaskExecutors {
  import opened Graphs
  import opened FanIn
  import opened FanInSafety
  import opened LocalViews
  import opened Plans
  import opened Conduct
  import opened Clusters
  import opened Lists
  import opened ExecutorSteps

  /** Passes over the delayed queue before an executor gives up on it. */
  const MAX_TRIES := 20

  class TaskExecutor {
    const cluster: Cluster
    ghost const id: Exec
    const leafKey: Option<Task>                // kept in previousResults for the next path
    const nodesMap: set<Task>                  // tasks whose path nodes this executor knows
    const encodedSize: Value -> nat
    var previousResults: map<Task, Value>
    var executedTasks: set<Task>
    var taskQueue: seq<Delayed>
    var nodesToProcess: seq<Unprocessed>

    /** A Lambda starts with one claimed task and the values sent along with it. */
    constructor (cluster: Cluster, ghost id: Exec, previousResults: map<Task, Value>, leafKey: Option<Task>,
                 nodesMap: set<Task>, encodedSize: Value -> nat)
      requires cluster.Valid() && cluster.st.Active(id) && id != PROXY && cluster.Me(id).cache == previousResults
      requires cluster.Me(id).ran == {} && cluster.Me(id).held == map[] && !cluster.Me(id).givingUp
      ensures this.cluster == cluster && this.id == id && Valid() && taskQueue == [] && nodesToProcess == []
      ensures executedTasks == {}
    {
      this.cluster := cluster;
      this.id := id;
      this.previousResults := previousResults;
      this.leafKey := leafKey;
      this.nodesMap := nodesMap;
      this.encodedSize := encodedSize;
      executedTasks := {};
      taskQueue := [];
      nodesToProcess := [];
    }

    ghost function Mine(): Local
      requires cluster.plan.WellFormed()
      reads this, cluster
    {
      cluster.Me(id)
    }

    ghost predicate ValidWith(queue: seq<Delayed>)
      reads this, cluster
    {
      && cluster.plan.WellFormed() && cluster.Valid() && cluster.st.Active(id) && id != PROXY
      && previousResults == Mine().cache && executedTasks == Mine().ran
      && QueueIs(cluster.plan.g, queue, Mine().held.Keys)
    }

    /** Between two calls an executor is not in the middle of giving up. */
    ghost predicate Valid()
      reads this, cluster
    {
      ValidWith(taskQueue) && !Mine().givingUp
    }

    // ---- process_task --------------------------------------------------------

    /** Reads the inputs that are not cached, then runs t.  It fails if one of them is not in the
        store: its edge was counted and its value was not written, or left to the proxy, which
        has not stored it yet.  The claim is lost then. */
    method ProcessTask(t: Task, ghost queue: seq<Delayed>) returns (r: Option<Value>)
      requires ValidWith(queue) && t in Mine().claims && (Mine().givingUp ==> queue == [])
      modifies this`previousResults, this`executedTasks, cluster
      ensures ValidWith(queue) && Onward(cluster.plan.g, id, old(cluster.st), cluster.st)
      ensures t in cluster.plan.g.tasks && t !in old(previousResults)
      ensures r.Some? ==> r.value == cluster.plan.g.Eval(t) && RanOne(cluster.plan.g, old(Mine()), Mine(), t)
      ensures r.Some? ==> Unrun(cluster.plan.g, cluster.st) < Unrun(cluster.plan.g, old(cluster.st))
      ensures r.None? ==> HasFailed(cluster.st, id) && InputMissing(cluster.plan.g, cluster.st, Mine(), t)
                          && Mine() == old(Mine()).(claims := old(Mine()).claims - {t}, cache := previousResults)
    {
      hide Cluster.Valid, Lawful, View, Onward, QueueIs, Graph.OutEdges, Unrun, Plan.WellFormed, Graph.WellFormed, HasFailed,
        InputMissing, RanOne, Graph.Eval;
      ghost var g, before, v := cluster.plan.g, cluster.st, Mine();
      WellFormedPlan(cluster.plan);
      ClaimedUncached(t);
      if v.givingUp { NothingHeld(g, v.held); }
      StandingStill(g, id, before);
      Continue(g, id, before, before, before);
      var deps := cluster.plan.g.deps[t];
      var todo := deps;
      while todo != {}
        invariant todo <= deps && forall d :: d in deps - todo ==> d in previousResults
        invariant ValidWith(queue) && Onward(g, id, before, cluster.st)
        invariant v.cache.Keys <= previousResults.Keys && Mine() == v.(cache := previousResults)
      {
        var dep :| dep in todo;
        todo := todo - {dep};
        if dep !in previousResults {
          ghost var mid := cluster.st;
          var val := cluster.Get(id, dep);
          Continue(g, id, before, mid, cluster.st);
          if val.None? {
            mid := cluster.st;
            LoseClaim(t, dep, queue);
            Continue(g, id, before, mid, cluster.st);
            return None;
          }
          previousResults := previousResults[dep := val.value];
        }
      }
      ghost var mid, v' := cluster.st, Mine();
      var result := RunCached(t, queue);
      Continue(g, id, before, mid, cluster.st);
      RanAfterReading(g, v, v', Mine(), t);
      r := Some(result);
    }

    /** Runs t on its inputs, which are cached. */
    method RunCached(t: Task, ghost queue: seq<Delayed>) returns (result: Value)
      requires ValidWith(queue) && t in Mine().claims && (Mine().givingUp ==> Mine().held == map[])
      requires t in cluster.plan.g.tasks && cluster.plan.g.deps[t] <= previousResults.Keys
      modifies this`previousResults, this`executedTasks, cluster
      ensures ValidWith(queue) && Onward(cluster.plan.g, id, old(cluster.st), cluster.st)
      ensures result == cluster.plan.g.Eval(t) && RanOne(cluster.plan.g, old(Mine()), Mine(), t)
      ensures Unrun(cluster.plan.g, cluster.st) < Unrun(cluster.plan.g, old(cluster.st))
    {
      hide Cluster.Valid, Lawful, View, Onward, QueueIs, Graph.OutEdges, Unrun, Plan.WellFormed, Graph.WellFormed, Graph.Eval;
      ghost var g, before := cluster.plan.g, cluster.st;
      WellFormedPlan(cluster.plan);
      StandingStill(g, id, before);
      var inputs := map d | d in cluster.plan.g.deps[t] :: previousResults[d];
      result := cluster.Run(id, t, inputs);
      Continue(g, id, before, before, cluster.st);
      RanShrinks(g, id, before, before, cluster.st, t);
      previousResults := previousResults[t := result];
      executedTasks := executedTasks + {t};
    }

    /** The claim of a task that misses an input is lost. */
    ghost method LoseClaim(t: Task, dep: Task, queue: seq<Delayed>)
      requires ValidWith(queue) && t in Mine().claims && t in cluster.plan.g.tasks && dep in cluster.plan.g.deps[t]
      requires dep !in cluster.st.store && dep !in previousResults
      modifies cluster`st
      ensures ValidWith(queue) && Onward(cluster.plan.g, id, old(cluster.st), cluster.st)
      ensures Mine() == old(Mine()).(claims := old(Mine()).claims - {t})
      ensures HasFailed(cluster.st, id) && InputMissing(cluster.plan.g, cluster.st, Mine(), t)
    {
      hide Cluster.Valid, Lawful, View, Onward, QueueIs, Plan.WellFormed, Graph.WellFormed, Unrun, HasFailed, InputMissing;
      var g, before := cluster.plan.g, cluster.st;
      WellFormedPlan(cluster.plan);
      StandingStill(g, id, before);
      assert g.HasEdge(dep, t);
      cluster.Drop(id, t, dep);
      Continue(g, id, before, before, cluster.st);
      MissesInput(g, cluster.st, Mine(), dep, t);
    }

    /** Runs claimed tasks one after the other.  Tasks that were pulled down and have no
        dependents are final results: they are written, and need no further processing.  After
        a failure the other tasks are run all the same if goOn says so, unless it was a final
        one that failed. */
    method RunAll(ts: seq<Task>, pulledDown: bool, goOn: bool, ghost queue: seq<Delayed>) returns (r: Option<seq<Unprocessed>>)
      requires ValidWith(queue) && Distinct(ts) && Elems(ts) <= Mine().claims.Keys && (Mine().givingUp ==> queue == [])
      modifies this`previousResults, this`executedTasks, cluster
      ensures ValidWith(queue) && Onward(cluster.plan.g, id, old(cluster.st), cluster.st)
      ensures Mine().owing == old(Mine()).owing && old(Mine()).ran <= Mine().ran && Mine().givingUp == old(Mine()).givingUp
      ensures r.Some? ==>
                && RanAll(cluster.plan.g, old(Mine()), Mine(), Elems(ts)) && NodesRight(cluster.plan.g, r.value)
                && (ts != [] ==> Unrun(cluster.plan.g, cluster.st) < Unrun(cluster.plan.g, old(cluster.st)))
                && (forall t :: t in NodesOf(r.value) <==> t in ts && (pulledDown ==> cluster.plan.Downstream(t) != []))
                && (forall t :: t in ts && t !in NodesOf(r.value) ==> t in cluster.st.store)
      ensures r.None? ==> HasFailed(cluster.st, id)
      ensures r.None? && goOn && !pulledDown ==> Elems(ts) !! Mine().claims.Keys
      ensures Mine().claims.Keys <= old(Mine()).claims.Keys
    {
      hide Cluster.Valid, Lawful, View, Onward, QueueIs, Plan.WellFormed, Graph.WellFormed, Unrun, RanAll, RanOne,
        NodesRight, NodesOf, Graph.Eval, HasFailed, InputMissing;
      ghost var g, before, v0 := cluster.plan.g, cluster.st, Mine();
      WellFormedPlan(cluster.plan);
      StandingStill(g, id, before);
      Continue(g, id, before, before, before);
      var nodes: seq<Unprocessed> := [];
      var ok := true;
      RanNone(g, v0);
      NoNodes(g);
      assert Elems(ts[..0]) == {} && ts[0..] == ts;
      for i := 0 to |ts|
        invariant ValidWith(queue) && Onward(g, id, before, cluster.st)
        invariant Elems(ts[i..]) <= Mine().claims.Keys && Elems(ts[..i]) !! Mine().claims.Keys
        invariant Mine().owing == v0.owing && v0.ran <= Mine().ran && Mine().givingUp == v0.givingUp
        invariant Mine().claims.Keys <= v0.claims.Keys
        invariant ok ==> RanAll(g, v0, Mine(), Elems(ts[..i])) && NodesRight(g, nodes)
        invariant Unrun(g, cluster.st) <= Unrun(g, before)
        invariant ok && i > 0 ==> Unrun(g, cluster.st) < Unrun(g, before)
        invariant ok ==> forall t :: t in NodesOf(nodes) <==> t in ts[..i] && (pulledDown ==> cluster.plan.Downstream(t) != [])
        invariant ok ==> forall t :: t in ts[..i] && t !in NodesOf(nodes) ==> t in cluster.st.store
        invariant !ok ==> HasFailed(cluster.st, id) && goOn
      {
        var t := ts[i];
        ghost var mid, v' := cluster.st, Mine();
        NextOf(ts, i);
        var result := ProcessTask(t, queue);
        Continue(g, id, before, mid, cluster.st);
        ClaimsAfter(g, v', Mine(), t, result.Some?, previousResults);
        if result.None? {
          ok := false;
          if !goOn || (pulledDown && cluster.plan.Downstream(t) == []) {
            return None;
          }
        } else {
          if !ok { FailureStays(id, mid, cluster.st); }
          if ok { RanOneMore(g, v0, v', Mine(), Elems(ts[..i]), t); }
          if pulledDown && cluster.plan.Downstream(t) == [] {
            ghost var mid' := cluster.st;
            RanContains(g, v', Mine(), t);
            cluster.Set(id, t, result.value);
            Continue(g, id, before, mid', cluster.st);
            if !ok { FailureStays(id, mid', cluster.st); }
          } else {
            if ok { NodeAdded(g, nodes, Unprocessed(t, result.value, false)); }
            nodes := nodes + [Unprocessed(t, result.value, false)];
          }
        }
      }
      assert ts[..|ts|] == ts;
      r := if ok then Some(nodes) else None;
    }

    // ---- process_small -------------------------------------------------------

    /** The out-edges of a task with a small result, executor's side only: write, then count
        every edge; the first task that becomes ready is the one to become if there is none
        yet, the others are to be invoked. */
    method CountSmall(d: Task, v: Value, becomeIsReady: bool, candidate: Option<Task>, outEdges: seq<Task>,
                      needsBecome: bool, dataWritten: bool)
      returns (toInvoke: seq<Task>, become: Option<Task>)
      requires Valid() && d in executedTasks && d in cluster.plan.g.tasks && v == cluster.plan.g.Eval(d)
      requires (dataWritten ==> d in cluster.st.store) && (!needsBecome ==> becomeIsReady)
      requires EdgesTo(d, Elems(outEdges)) <= Mine().waiting && Distinct(outEdges)
      requires d !in cluster.plan.big && d !in cluster.plan.proxied
      modifies cluster
      ensures Valid() && Onward(cluster.plan.g, id, old(cluster.st), cluster.st) && d in cluster.st.store
      ensures Counting(old(Mine()), Mine(), d, outEdges, toInvoke, if becomeIsReady then None else become)
      ensures if becomeIsReady then become == candidate else FirstBecomes(outEdges, toInvoke, become)
    {
      hide Cluster.Valid, Lawful, View, Onward, QueueIs, Plan.WellFormed, Graph.WellFormed, Counting, Counted, Granted, Unrun,
        FirstBecomes;
      ghost var g, before, v0 := cluster.plan.g, cluster.st, Mine();
      WellFormedPlan(cluster.plan);
      PhasesApart(g, before, id);
      StandingStill(g, id, before);
      Continue(g, id, before, before, before);
      if !dataWritten {
        cluster.Set(id, d, v);
        Continue(g, id, before, before, cluster.st);
      }
      var ready, current := becomeIsReady, candidate;
      ghost var found: Option<Task> := None;
      toInvoke := [];
      CountingNothing(v0, d, outEdges);
      NoneBecomes(outEdges);
      for i := 0 to |outEdges|
        invariant Valid() && Onward(g, id, before, cluster.st) && d in cluster.st.store
        invariant Counting(v0, Mine(), d, outEdges[..i], toInvoke, found)
        invariant if becomeIsReady then ready && current == candidate && found == None
                  else && needsBecome && found == (if ready then current else None) && (found.Some? <==> ready)
                       && FirstBecomes(outEdges[..i], toInvoke, found)
      {
        var t := outEdges[i];
        ghost var mid, v' := cluster.st, Mine();
        CountingWaits(v0, v', d, outEdges, i, toInvoke, found);
        PhasesApart(g, mid, id);
        var claimed, mobile := cluster.CheckAndCount(id, d, t);
        Continue(g, id, before, mid, cluster.st);
        CountingStep(v0, v', d, outEdges, i, toInvoke, found, claimed, mobile, needsBecome && !ready);
        if !becomeIsReady { OneMoreBecomes(outEdges, i, toInvoke, found); }
        if claimed {
          if needsBecome && !ready {
            current := Some(t);
            ready := true;
            found := Some(t);
          } else {
            toInvoke := toInvoke + [t];
          }
        }
      }
      CountingDone(v0, Mine(), d, outEdges, toInvoke, found);
      assert outEdges[..|outEdges|] == outEdges;
      become := if ready then current else None;
    }

    /** With a proxy: publish the value and the invoke edges to it, and count only the edge
        to the task to become, if one is needed.  Without that need nobody counts it. */
    method LeaveToProxy(d: Task, becomeIsReady: bool, needsBecome: bool) returns (become: Option<Task>)
      requires Valid() && d in cluster.plan.become && d in cluster.plan.g.tasks && d in executedTasks && cluster.plan.FansOut(d)
      requires EdgesTo(d, Elems(cluster.plan.InvokeOf(d))) <= Mine().waiting && Distinct(cluster.plan.Downstream(d))
      requires var b := cluster.plan.become[d];
               if needsBecome && becomeIsReady then Edge(d, b) in Mine().taken else Edge(d, b) in Mine().waiting
      requires if needsBecome then becomeIsReady || Mine().claims == map[] else Mine().claims != map[]
      modifies cluster
      ensures Valid() && Onward(cluster.plan.g, id, old(cluster.st), cluster.st)
      ensures var v, b, rest := old(Mine()), cluster.plan.become[d], Elems(cluster.plan.InvokeOf(d));
              if !needsBecome then
                become == None && Swept(v, Mine(), d, rest + {b}, {})
              else if becomeIsReady then
                become == Some(b) && Swept(v.(taken := v.taken - {Edge(d, b)}), Mine(), d, rest, {})
              else
                OptSet(become) <= {b} && Swept(v, Mine(), d, rest + {b}, OptSet(become))
    {
      hide Cluster.Valid, Lawful, View, Onward, QueueIs, Plan.WellFormed, Graph.WellFormed, Counted, Granted, Unrun, Swept;
      ghost var g, before, v0 := cluster.plan.g, cluster.st, Mine();
      WellFormedPlan(cluster.plan);
      PhasesApart(g, before, id);
      StandingStill(g, id, before);
      var b := cluster.plan.become[d];
      BecomeIsNoInvoke(cluster.plan, d);
      Publish(d);
      ghost var mid, v', rest := cluster.st, Mine(), Elems(cluster.plan.InvokeOf(d));
      SweptSpares(v0, v', d, rest, b);
      become := None;
      if !needsBecome {
        cluster.LetGo(id, d, b, false);
        Continue(g, id, before, mid, cluster.st);
        SweptDelegated(v0, v', d, rest, b);
      } else if becomeIsReady {
        var ready := cluster.CountTaken(id, d, b);
        Continue(g, id, before, mid, cluster.st);
        SweptBooked(v0, v', d, rest, b);
        if ready { become := Some(b); }
      } else {
        var ready, mobile := cluster.CheckAndCount(id, d, b);
        Continue(g, id, before, mid, cluster.st);
        SweptCounted(v0, v', d, rest, {}, b, ready, mobile);
        if ready { become := Some(b); }
        assert {} + (if ready then {b} else {}) == OptSet(become);
      }
    }

    /** The message to the proxy: from now on the invoke edges are the proxy's to count. */
    ghost method Publish(d: Task)
      requires Valid() && d in executedTasks && cluster.plan.FansOut(d) && d in cluster.plan.become
      requires EdgesTo(d, Elems(cluster.plan.InvokeOf(d))) <= Mine().waiting && Distinct(cluster.plan.InvokeOf(d))
      requires cluster.plan.become[d] !in Elems(cluster.plan.InvokeOf(d))
      modifies cluster`st
      ensures Valid() && Onward(cluster.plan.g, id, old(cluster.st), cluster.st) && d in cluster.st.sent
      ensures Swept(old(Mine()), Mine(), d, Elems(cluster.plan.InvokeOf(d)), {})
    {
      hide Cluster.Valid, Lawful, View, Onward, QueueIs, Plan.WellFormed, Graph.WellFormed, Unrun, Swept;
      var g, before, v0, ts := cluster.plan.g, cluster.st, Mine(), cluster.plan.InvokeOf(d);
      WellFormedPlan(cluster.plan);
      PhasesApart(g, before, id);
      StandingStill(g, id, before);
      Continue(g, id, before, before, before);
      cluster.Send(id, d);
      Continue(g, id, before, before, cluster.st);
      SweptNothing(v0, d);
      assert Elems(ts[..0]) == {};
      for i := 0 to |ts|
        invariant Valid() && Onward(g, id, before, cluster.st) && d in cluster.st.sent
        invariant Swept(v0, Mine(), d, Elems(ts[..i]), {})
      {
        var mid, v' := cluster.st, Mine();
        StillThere(v0, v', d, ts, i, {});
        assert ts[i] in Elems(ts);
        cluster.LetGo(id, d, ts[i], true);
        Continue(g, id, before, mid, cluster.st);
        SweptDelegated(v0, v', d, Elems(ts[..i]), ts[i]);
      }
      assert ts[..|ts|] == ts;
    }

    /** process_small: without a proxy write and count every edge, with one leave the
        invoke edges to it. */
    method ProcessSmall(d: Task, v: Value, becomeIsReady: bool, candidate: Option<Task>, outEdges: seq<Task>,
                        needsBecome: bool, dataWritten: bool)
      returns (toInvoke: seq<Task>, become: Option<Task>)
      requires Valid() && d in executedTasks && d in cluster.plan.g.tasks && v == cluster.plan.g.Eval(d)
      requires !dataWritten && d in cluster.plan.become && Distinct(cluster.plan.Downstream(d))
      requires outEdges == if needsBecome && becomeIsReady then cluster.plan.InvokeOf(d) else cluster.plan.Downstream(d)
      requires EdgesTo(d, Elems(outEdges)) <= Mine().waiting && (!needsBecome ==> becomeIsReady && candidate == None)
      requires needsBecome && becomeIsReady ==>
                 candidate == Some(cluster.plan.become[d]) && Edge(d, cluster.plan.become[d]) in Mine().taken
      requires d !in cluster.plan.big
      requires if needsBecome then becomeIsReady || Mine().claims == map[] else Mine().claims != map[]
      modifies cluster
      ensures Valid() && Onward(cluster.plan.g, id, old(cluster.st), cluster.st)
      ensures SmallDone(cluster.plan, old(Mine()), Mine(), d, becomeIsReady, needsBecome, outEdges, toInvoke, become)
      ensures d !in cluster.plan.proxied ==> d in cluster.st.store
      ensures if d in cluster.plan.proxied then toInvoke == [] else !becomeIsReady ==> FirstBecomes(outEdges, toInvoke, become)
    {
      hide Cluster.Valid, Lawful, View, Onward, QueueIs, Plan.WellFormed, Graph.WellFormed, Graph.Eval, Swept, Counting, FirstBecomes;
      BecomeIsNoInvoke(cluster.plan, d);
      DownstreamElems(cluster.plan, d);
      if d in cluster.plan.proxied {
        become := LeaveToProxy(d, becomeIsReady, needsBecome);
        toInvoke := [];
      } else {
        toInvoke, become := CountSmall(d, v, becomeIsReady, candidate, outEdges, needsBecome, dataWritten);
      }
    }

    // ---- process_big ---------------------------------------------------------

    /** Takes t if d is its only missing dependency, and then counts the edge for the books. */
    method TakeIfLast(d: Task, t: Task, ghost queue: seq<Delayed>) returns (ready: bool)
      requires ValidWith(queue) && (Edge(d, t) in Mine().waiting || Edge(d, t) in Mine().held) && d in cluster.plan.big
      requires !Mine().givingUp && (Edge(d, t) in Mine().waiting ==> d in cluster.st.store || Untried(cluster.plan.g, Mine(), d))
      modifies cluster
      ensures cluster.plan.WellFormed() && cluster.Valid() && Onward(cluster.plan.g, id, old(cluster.st), cluster.st)
      ensures cluster.st.Active(id)
      ensures Mine() == if ready then TakenFor(old(Mine()), Edge(d, t)) else old(Mine())
      ensures !ready ==> SaidNo(cluster.plan, id, old(cluster.st), cluster.st, Edge(d, t))
      ensures ready ==> t !in old(Mine()).claims
    {
      hide Cluster.Valid, Lawful, View, Onward, QueueIs, Plan.WellFormed, Graph.WellFormed, Unrun, LooksReady, SaidNo;
      ghost var g, before, v0 := cluster.plan.g, cluster.st, Mine();
      WellFormedPlan(cluster.plan);
      PhasesApart(g, before, id);
      StandingStill(g, id, before);
      ready := cluster.CheckWithoutCounting(id, d, t);
      Continue(g, id, before, before, cluster.st);
      if !ready {
        SaidNoNow(cluster.plan, id, before, cluster.st, Edge(d, t));
      }
      if ready {
        ghost var mid := cluster.st;
        var _ := cluster.CountTaken(id, d, t);
        Continue(g, id, before, mid, cluster.st);
        assert v0.taken + {Edge(d, t)} - {Edge(d, t)} == v0.taken;
      }
    }

    /** Puts the edge into the delayed queue. */
    method Enqueue(d: Task, v: Value, t: Task)
      requires Valid() && d in cluster.plan.g.tasks && v == cluster.plan.g.Eval(d) && Edge(d, t) in Mine().waiting
      requires cluster.plan.Holdable(d, t)
      modifies this`taskQueue, cluster
      ensures Valid() && Onward(cluster.plan.g, id, old(cluster.st), cluster.st)
      ensures taskQueue == old(taskQueue) + [Delayed(Edge(d, t), v)]
      ensures Dealt(old(Mine()), Mine(), Edge(d, t), false, true)
    {
      hide Cluster.Valid, Lawful, View, Onward, QueueIs, Plan.WellFormed, Graph.WellFormed, Unrun, Gained, Counted, Granted, Took,
        Graph.Eval, Dealt;
      ghost var g, before, v0, edge := cluster.plan.g, cluster.st, Mine(), Edge(d, t);
      WellFormedPlan(cluster.plan);
      PhasesApart(g, before, id);
      StandingStill(g, id, before);
      cluster.Hold(id, d, t);
      Continue(g, id, before, before, cluster.st);
      QueueAppend(g, taskQueue, v0.held.Keys, Delayed(edge, v));
      taskQueue := taskQueue + [Delayed(Edge(d, t), v)];
      DealtByHold(v0, edge, v0.cache[d]);
    }

    /** Writes the big value, unless it has been written, and counts the edge. */
    method WriteAndCount(d: Task, v: Value, t: Task, dataWritten: bool) returns (ready: bool)
      requires Valid() && d in executedTasks && d in cluster.plan.g.tasks && v == cluster.plan.g.Eval(d)
      requires Edge(d, t) in Mine().waiting && (dataWritten ==> d in cluster.st.store)
      requires d in cluster.plan.big && !cluster.plan.Holdable(d, t)
      modifies cluster
      ensures Valid() && Onward(cluster.plan.g, id, old(cluster.st), cluster.st)
      ensures Dealt(old(Mine()), Mine(), Edge(d, t), ready, false) && d in cluster.st.store
    {
      hide Cluster.Valid, Lawful, View, Onward, QueueIs, Plan.WellFormed, Graph.WellFormed, Unrun, Gained, Counted, Granted, Took,
        Graph.Eval, Dealt;
      ghost var g, before, v0 := cluster.plan.g, cluster.st, Mine();
      WellFormedPlan(cluster.plan);
      PhasesApart(g, before, id);
      StandingStill(g, id, before);
      Continue(g, id, before, before, before);
      if !dataWritten {
        cluster.Set(id, d, v);
        Continue(g, id, before, before, cluster.st);
      }
      ghost var mid, mobile := cluster.st, false;
      ready, mobile := cluster.CheckAndCount(id, d, t);
      Continue(g, id, before, mid, cluster.st);
      DealtByCount(v0, Edge(d, t), ready, mobile);
    }

    /** One out-edge of a big task: take its target by a peek; otherwise queue the edge, or
        write the value (once) and count. */
    method OfferBig(d: Task, v: Value, t: Task, dataWritten: bool)
      returns (ready: bool, ghost parked: bool, written: bool)
      requires Valid() && d in executedTasks && d in cluster.plan.g.tasks && v == cluster.plan.g.Eval(d)
      requires Edge(d, t) in Mine().waiting && (dataWritten ==> d in cluster.st.store) && d in cluster.plan.big
      requires dataWritten || Untried(cluster.plan.g, Mine(), d)
      modifies this`taskQueue, cluster
      ensures Valid() && Onward(cluster.plan.g, id, old(cluster.st), cluster.st)
      ensures Dealt(old(Mine()), Mine(), Edge(d, t), ready, parked)
      ensures written ==> d in cluster.st.store
      ensures dataWritten ==> written
      ensures !ready && !parked ==> written
      ensures written || Untried(cluster.plan.g, Mine(), d)
      ensures !ready ==> SaidNo(cluster.plan, id, old(cluster.st), cluster.st, Edge(d, t))
      ensures parked ==> !ready && cluster.plan.Holdable(d, t)
      ensures cluster.plan.Holdable(d, t) ==> ready || parked
      ensures old(taskQueue) <= taskQueue && (!cluster.plan.useTaskQueue ==> taskQueue == old(taskQueue))
    {
      hide Cluster.Valid, Lawful, View, Onward, QueueIs, Plan.WellFormed, Graph.WellFormed, Unrun, Gained, Counted, Granted, Took,
        Graph.Eval, Dealt, SaidNo, Untried;
      ghost var g, before, v0, edge := cluster.plan.g, cluster.st, Mine(), Edge(d, t);
      WellFormedPlan(cluster.plan);
      PhasesApart(g, before, id);
      StandingStill(g, id, before);
      Continue(g, id, before, before, before);
      written := dataWritten;
      parked := false;
      ready := TakeIfLast(d, t, taskQueue);
      Continue(g, id, before, before, cluster.st);
      ghost var mid := cluster.st;
      if ready {
        DealtByPeek(v0, edge);
      } else if cluster.plan.useTaskQueue && Edge(d, t) !in cluster.plan.mayMeetBig {
        Enqueue(d, v, t);
        Continue(g, id, before, mid, cluster.st);
        SaidNoBefore(cluster.plan, id, before, mid, cluster.st, edge);
        parked := true;
      } else {
        ready := WriteAndCount(d, v, t, written);
        Continue(g, id, before, mid, cluster.st);
        SaidNoBefore(cluster.plan, id, before, mid, cluster.st, edge);
        written := true;
      }
      if !written { UntriedDealt(g, v0, Mine(), d, t, ready, parked); }
    }

    /** First every out-edge is dealt with ... */
    method SweepBig(d: Task, v: Value, outEdges: seq<Task>, dataWritten: bool)
      returns (pulledDown: seq<Task>, ghost parked: set<Task>)
      requires Valid() && d in executedTasks && d in cluster.plan.g.tasks && v == cluster.plan.g.Eval(d)
      requires EdgesTo(d, Elems(outEdges)) <= Mine().waiting && Distinct(outEdges) && (dataWritten ==> d in cluster.st.store)
      requires d in cluster.plan.big && (dataWritten || Untried(cluster.plan.g, Mine(), d))
      modifies this`taskQueue, cluster
      ensures Valid() && Onward(cluster.plan.g, id, old(cluster.st), cluster.st)
      ensures SweptBig(old(Mine()), Mine(), d, Elems(outEdges), Elems(pulledDown), parked) && Distinct(pulledDown)
      ensures Placed(cluster.plan, d, Elems(outEdges), Elems(pulledDown), parked, d in cluster.st.store)
      ensures SaidNoToAll(cluster.plan, id, old(cluster.st), cluster.st, EdgesTo(d, parked))
      ensures old(taskQueue) <= taskQueue && (!cluster.plan.useTaskQueue ==> taskQueue == old(taskQueue))
    {
      hide Cluster.Valid, Lawful, View, Onward, QueueIs, Plan.WellFormed, Graph.WellFormed, Unrun, Graph.Eval, Dealt, SweptBig,
        Placed, SaidNo, SaidNoToAll, SweptSoFar, Untried;
      ghost var g, before, v0 := cluster.plan.g, cluster.st, Mine();
      WellFormedPlan(cluster.plan);
      StandingStill(g, id, before);
      var written := dataWritten;
      pulledDown, parked := [], {};
      SweptNothingSoFar(cluster.plan, id, before, d);
      assert Elems(outEdges[..0]) == {} && Elems<Task>([]) == {};
      for i := 0 to |outEdges|
        invariant Valid() && Onward(g, id, before, cluster.st) && (written ==> d in cluster.st.store)
        invariant old(taskQueue) <= taskQueue && (!cluster.plan.useTaskQueue ==> taskQueue == old(taskQueue))
        invariant Distinct(pulledDown) && (written || Untried(g, Mine(), d))
        invariant SweptSoFar(cluster.plan, id, before, cluster.st, d,
                             Elems(outEdges[..i]), Elems(pulledDown), parked)
      {
        var t := outEdges[i];
        ghost var mid := cluster.st;
        SoFarWaits(cluster.plan, id, before, mid, d, outEdges, i, Elems(pulledDown), parked);
        var ready;
        ghost var held;
        ready, held, written := OfferBig(d, v, t, written);
        Continue(g, id, before, mid, cluster.st);
        SweptMoreSoFar(cluster.plan, id, before, mid, cluster.st, d,
                       Elems(outEdges[..i]), Elems(pulledDown), parked, t, ready, held);
        assert Elems(pulledDown) + {} == Elems(pulledDown) && Elems(pulledDown + [t]) == Elems(pulledDown) + {t};
        if ready { pulledDown := pulledDown + [t]; }
        if held { parked := parked + {t}; }
        assert parked == parked + {};
      }
      assert outEdges[..|outEdges|] == outEdges;
      AllSwept(cluster.plan, id, before, cluster.st, d, Elems(outEdges), Elems(pulledDown), parked);
    }

    /** process_big: ... then the tasks that were claimed run here. */
    method ProcessBig(d: Task, v: Value, outEdges: seq<Task>, dataWritten: bool)
      returns (r: Option<seq<Unprocessed>>, ghost pulled: set<Task>, ghost parked: set<Task>)
      requires Valid() && d in executedTasks && d in cluster.plan.g.tasks && v == cluster.plan.g.Eval(d)
      requires EdgesTo(d, Elems(outEdges)) <= Mine().waiting && Distinct(outEdges) && (dataWritten ==> d in cluster.st.store)
      requires d in cluster.plan.big && (dataWritten || Untried(cluster.plan.g, Mine(), d))
      modifies this`taskQueue, this`previousResults, this`executedTasks, cluster
      ensures Valid() && Onward(cluster.plan.g, id, old(cluster.st), cluster.st)
      ensures r.Some? ==>
                && BigDone(cluster.plan.g, old(Mine()), Mine(), d, Elems(outEdges), pulled, parked)
                && NodesRight(cluster.plan.g, r.value)
                && (pulled != {} ==> Unrun(cluster.plan.g, cluster.st) < Unrun(cluster.plan.g, old(cluster.st)))
                && (forall t :: t in NodesOf(r.value) <==> t in pulled && cluster.plan.Downstream(t) != [])
                && (forall t :: t in pulled && t !in NodesOf(r.value) ==> t in cluster.st.store)
      ensures Placed(cluster.plan, d, Elems(outEdges), pulled, parked, d in cluster.st.store)
      ensures SaidNoToAll(cluster.plan, id, old(cluster.st), cluster.st, EdgesTo(d, parked))
      ensures r.None? ==> HasFailed(cluster.st, id)
      ensures old(taskQueue) <= taskQueue && (!cluster.plan.useTaskQueue ==> taskQueue == old(taskQueue))
    {
      hide Cluster.Valid, Lawful, View, Onward, QueueIs, Plan.WellFormed, Graph.WellFormed, Unrun, Graph.Eval, SweptBig,
        RanAll, NodesRight, NodesOf, BigDone, Placed, SaidNo, SaidNoToAll, Untried;
      ghost var g, before, v0 := cluster.plan.g, cluster.st, Mine();
      WellFormedPlan(cluster.plan);
      var pulledDown;
      pulledDown, parked := SweepBig(d, v, outEdges, dataWritten);
      pulled := Elems(pulledDown);
      ghost var mid, v' := cluster.st, Mine();
      SweptBigWins(v0, v', d, Elems(outEdges), pulled, parked);
      r := RunAll(pulledDown, true, true, taskQueue);
      Continue(g, id, before, mid, cluster.st);
      SaidNoLater(cluster.plan, id, before, mid, cluster.st, EdgesTo(d, parked));
      PlacedMoreStored(cluster.plan, d, Elems(outEdges), pulled, parked, d in mid.store, d in cluster.st.store);
      if r.Some? {
        SweptThenRan(g, v0, v', Mine(), d, Elems(outEdges), pulled, parked);
      }
    }

    // ---- process_enqueued_tasks ----------------------------------------------

    /** One pass over the queue: every edge in it is either taken, and then counted, or kept. */
    method SplitQueue() returns (ready: seq<Delayed>, notReady: seq<Delayed>)
      requires Valid()
      modifies this`taskQueue, cluster
      ensures ValidWith(notReady) && Onward(cluster.plan.g, id, old(cluster.st), cluster.st) && taskQueue == []
      ensures !Mine().givingUp
      ensures Split(old(Mine()), Mine(), ready)
      ensures multiset(ready) + multiset(notReady) == multiset(old(taskQueue))
      ensures SaidNoToAll(cluster.plan, id, old(cluster.st), cluster.st, EdgesIn(notReady))
    {
      hide Cluster.Valid, Lawful, View, Onward, QueueIs, Plan.WellFormed, Graph.WellFormed, Unrun, Graph.Eval, Split, SaidNo,
        SaidNoToAll, EdgesIn;
      ghost var g, before, v0 := cluster.plan.g, cluster.st, Mine();
      WellFormedPlan(cluster.plan);
      StandingStill(g, id, before);
      ready, notReady := [], [];
      SplitNothing(v0);
      NothingSaid(cluster.plan, id, before, before);
      assert taskQueue + notReady == taskQueue;
      while taskQueue != []
        invariant ValidWith(taskQueue + notReady) && Onward(g, id, before, cluster.st) && !Mine().givingUp
        invariant Split(v0, Mine(), ready)
        invariant SaidNoToAll(cluster.plan, id, before, cluster.st, EdgesIn(notReady))
        invariant multiset(ready) + multiset(notReady) + multiset(taskQueue) == multiset(old(taskQueue))
        decreases |taskQueue|
      {
        ghost var mid, v', queue := cluster.st, Mine(), taskQueue + notReady;
        var x, rest := taskQueue[0], taskQueue[1..];
        assert taskQueue == [x] + rest;
        assert queue == [x] + rest + notReady;
        QueueHead(g, x, rest, notReady, v'.held.Keys);
        PhasesApart(g, mid, id);
        QueueFromBig();
        assert x.edge == Edge(x.edge.src, x.edge.dst);
        var isReady := TakeIfLast(x.edge.src, x.edge.dst, queue);
        Continue(g, id, before, mid, cluster.st);
        SaidToNext(cluster.plan, id, before, mid, cluster.st, notReady, x, isReady);
        if isReady {
          SplitMore(v0, v', ready, x);
          ready := ready + [x];
          assert Mine().held.Keys == v'.held.Keys - {x.edge};
        } else {
          notReady := notReady + [x];
        }
        taskQueue := rest;
      }
      assert taskQueue + notReady == notReady;
    }

    lemma QueueFromBig()
      requires cluster.plan.WellFormed() && cluster.Valid()
      ensures forall edge :: edge in Mine().held ==>
                && edge.src in cluster.plan.big && edge.src in Mine().ran
                && cluster.plan.g.HasEdge(edge.src, edge.dst) && cluster.plan.Holdable(edge.src, edge.dst)
    {
      hide Lawful, View;
      HeldFromBig(cluster.plan, cluster.st, id);
    }

    /** One pass over the queue; the tasks taken are run and become nodes to process. */
    method ProcessEnqueuedTasks() returns (ok: bool, executed: seq<Delayed>, stillNotReady: seq<Delayed>)
      requires Valid()
      modifies this`taskQueue, this`previousResults, this`executedTasks, this`nodesToProcess, cluster
      ensures Valid() && Onward(cluster.plan.g, id, old(cluster.st), cluster.st) && taskQueue == stillNotReady
      ensures multiset(executed) + multiset(stillNotReady) == multiset(old(taskQueue))
      ensures SaidNoToAll(cluster.plan, id, old(cluster.st), cluster.st, EdgesIn(stillNotReady))
      ensures ok ==> QueuePassed(cluster.plan.g, old(Mine()), Mine(), executed)
      ensures ok ==> CameFromQueue(cluster.plan, executedTasks, Elems(Targets(executed)))
      ensures ok ==> NodesJoined(cluster.plan.g, old(nodesToProcess), nodesToProcess, Elems(Targets(executed)))
      ensures ok && executed != [] ==> Unrun(cluster.plan.g, cluster.st) < Unrun(cluster.plan.g, old(cluster.st))
      ensures !ok ==> HasFailed(cluster.st, id)
    {
      hide Cluster.Valid, Lawful, View, Onward, QueueIs, Plan.WellFormed, Graph.WellFormed, Unrun, Graph.Eval, Split,
        QueuePassed, RanAll, NodesRight, NodesOf, Elems, Distinct, EdgesIn, NodesJoined, SaidNo, SaidNoToAll, CameFromQueue;
      ghost var g, before, v0, queue := cluster.plan.g, cluster.st, Mine(), taskQueue;
      WellFormedPlan(cluster.plan);
      QueueFromBig();
      executed, stillNotReady := SplitQueue();
      taskQueue := stillNotReady;
      ghost var mid, v1 := cluster.st, Mine();
      SplitClaims(v0, v1, executed);
      var nodes := RunAll(Targets(executed), false, false, taskQueue);
      Continue(g, id, before, mid, cluster.st);
      SaidNoLater(cluster.plan, id, before, mid, cluster.st, EdgesIn(stillNotReady));
      ok := nodes.Some?;
      if ok {
        SplitThenRan(g, v0, v1, Mine(), executed);
        PassedRan(g, v0, Mine(), executed);
        ExecutedCame(cluster.plan, v0, queue, executed, stillNotReady, executedTasks);
        InElems(Targets(executed));
        Joined(g, nodesToProcess, nodes.value, Elems(Targets(executed)));
        nodesToProcess := nodesToProcess + nodes.value;
      }
    }

    // ---- process_enqueued_tasks_looped ---------------------------------------

    /** Counts one edge out of the queue. */
    method CountHeld(edge: Edge, ghost rest: seq<Delayed>) returns (claimed: bool, ghost mobile: bool)
      requires ValidWith(taskQueue) && Mine().givingUp && edge in Mine().held
      requires QueueIs(cluster.plan.g, rest, Mine().held.Keys - {edge})
      modifies cluster
      ensures ValidWith(rest) && Onward(cluster.plan.g, id, old(cluster.st), cluster.st)
      ensures Mine() == Counted(old(Mine()), edge, Granted(claimed, edge.dst, mobile)).(owing := Mine().owing)
      ensures Mine().owing <= old(Mine()).owing + (if claimed then {} else {edge})
      ensures edge !in old(Mine()).waiting && edge.dst !in old(Mine()).claims && edge.src in old(Mine()).ran
      ensures Mine().ran == old(Mine()).ran && (!claimed ==> StoredOrOwed(cluster.st, edge.src, edge.dst)) && Mine().givingUp
    {
      hide Cluster.Valid, Lawful, View, Onward, QueueIs, Plan.WellFormed, Graph.WellFormed, Unrun, Graph.Eval, Granted, NothingLost;
      ghost var g, before, v0 := cluster.plan.g, cluster.st, Mine();
      WellFormedPlan(cluster.plan);
      StandingStill(g, id, before);
      PhasesApart(g, before, id);
      QueueFromBig();
      assert edge == Edge(edge.src, edge.dst);
      claimed, mobile := cluster.CheckAndCount(id, edge.src, edge.dst);
      Continue(g, id, before, before, cluster.st);
      assert Mine().held.Keys == v0.held.Keys - {edge};
    }

    /** Counts every edge in the queue, whether its big value is stored or not. */
    method CountQueue() returns (ready: seq<Delayed>, notReady: seq<Delayed>, ghost counted: seq<Delayed>)
      requires ValidWith(taskQueue) && Mine().givingUp
      modifies this`taskQueue, cluster
      ensures ValidWith([]) && Onward(cluster.plan.g, id, old(cluster.st), cluster.st) && taskQueue == [] && Mine().givingUp
      ensures CountedOut(old(Mine()), Mine(), counted, ready) && AllStoredOrOwed(cluster.plan.g, cluster.st, notReady)
      ensures multiset(ready) + multiset(notReady) == multiset(old(taskQueue))
      ensures OwedOnly(old(Mine()).owing, Mine().owing, notReady) && forall x :: x in notReady ==> x.edge.src in executedTasks
    {
      hide Cluster.Valid, Lawful, View, Onward, QueueIs, Plan.WellFormed, Graph.WellFormed, Unrun, Graph.Eval, CountedOut,
        Counted, Granted, NothingLost, OwedOnly, AllStoredOrOwed, Plan.Holdable, Sorted, SourcesRan;
      ghost var g, before, v0 := cluster.plan.g, cluster.st, Mine();
      WellFormedPlan(cluster.plan);
      StandingStill(g, id, before);
      ready, notReady, counted := [], [], [];
      CountedNothing(v0);
      OwedNothing(g, before, v0.owing);
      assert Sorted(old(taskQueue), ready, notReady, taskQueue) && SourcesRan(v0.ran, notReady) by { SortedNothing(v0.ran, old(taskQueue)); }
      while taskQueue != []
        invariant ValidWith(taskQueue) && Onward(g, id, before, cluster.st) && Mine().givingUp
        invariant CountedOut(v0, Mine(), counted, ready) && AllStoredOrOwed(g, cluster.st, notReady)
        invariant OwedOnly(v0.owing, Mine().owing, notReady) && Mine().ran == v0.ran
        invariant SourcesRan(v0.ran, notReady) && Sorted(old(taskQueue), ready, notReady, taskQueue)
        decreases |taskQueue|
      {
        ghost var mid, v' := cluster.st, Mine();
        var x, rest := taskQueue[0], taskQueue[1..];
        assert taskQueue == [x] + rest && [x] + rest + [] == taskQueue && rest + [] == rest;
        QueueHead(g, x, rest, [], v'.held.Keys);
        var claimed;
        ghost var mobile;
        claimed, mobile := CountHeld(x.edge, rest);
        Continue(g, id, before, mid, cluster.st);
        CountedMore(v0, v', counted, ready, x, claimed, mobile, Mine().owing);
        OwedMore(v0.owing, v'.owing, Mine().owing, notReady, x, !claimed);
        counted := counted + [x];
        AllStayStoredOrOwed(g, mid, cluster.st, notReady);
        SortedMore(old(taskQueue), ready, notReady, x, rest);
        SourcesMore(v0.ran, notReady, x);
        if claimed {
          ready := ready + [x];
        } else {
          OneMoreStoredOrOwed(g, cluster.st, notReady, x);
          notReady := notReady + [x];
        }
        taskQueue := rest;
      }
      SortedAll(v0.ran, old(taskQueue), ready, notReady);
    }

    /** Writes the big values of edges that were counted without completing their targets. */
    method WriteOwed(notReady: seq<Delayed>)
      requires ValidWith(taskQueue) && AllStoredOrOwed(cluster.plan.g, cluster.st, notReady)
      requires forall x :: x in notReady ==> x.edge.src in executedTasks
      modifies cluster
      ensures ValidWith(taskQueue) && Onward(cluster.plan.g, id, old(cluster.st), cluster.st)
      ensures Mine() == old(Mine()).(owing := Mine().owing) && Mine().owing <= old(Mine()).owing
      ensures forall x :: x in notReady ==> x.edge.src in cluster.st.store
    {
      hide Cluster.Valid, Lawful, View, Onward, QueueIs, Plan.WellFormed, Graph.WellFormed, Unrun, Graph.Eval, StoredOrOwed;
      ghost var g, before, v0 := cluster.plan.g, cluster.st, Mine();
      WellFormedPlan(cluster.plan);
      StandingStill(g, id, before);
      for i := 0 to |notReady|
        invariant ValidWith(taskQueue) && Onward(g, id, before, cluster.st)
        invariant Mine() == v0.(owing := Mine().owing) && Mine().owing <= v0.owing
        invariant AllStoredOrOwed(g, cluster.st, notReady)
        invariant forall x :: x in notReady[..i] ==> x.edge.src in cluster.st.store
      {
        ghost var mid := cluster.st;
        var x := notReady[i];
        assert x in notReady;
        cluster.SetIfMissing(id, x.edge, x.value);
        Continue(g, id, before, mid, cluster.st);
        AllStayStoredOrOwed(g, mid, cluster.st, notReady);
      }
      assert notReady[..|notReady|] == notReady;
    }

    /** Giving up: each held edge is counted once; then its target runs here, if that made
        the claim, or else its big value is in the store. */
    method GiveUp() returns (ok: bool, executed: seq<Delayed>, stillNotReady: seq<Delayed>)
      requires Valid() && Mine().claims == map[] && Mine().waiting == {} && PaidSince({}, Mine().owing, cluster.st.store.Keys)
      modifies this`taskQueue, this`previousResults, this`executedTasks, this`nodesToProcess, cluster
      ensures Valid() && Onward(cluster.plan.g, id, old(cluster.st), cluster.st) && taskQueue == []
      ensures multiset(executed) + multiset(stillNotReady) == multiset(old(taskQueue))
      ensures ok ==> GivenUp(cluster.plan.g, old(Mine()), Mine(), executed)
      ensures ok ==> CameFromQueue(cluster.plan, executedTasks, Elems(Targets(executed)))
      ensures ok ==> NodesJoined(cluster.plan.g, old(nodesToProcess), nodesToProcess, Elems(Targets(executed)))
      ensures ok && executed != [] ==> Unrun(cluster.plan.g, cluster.st) < Unrun(cluster.plan.g, old(cluster.st))
      ensures forall x :: x in stillNotReady ==> x.edge.src in cluster.st.store
      ensures PaidSince(old(Mine()).owing, Mine().owing, cluster.st.store.Keys)
      ensures !ok ==> HasFailed(cluster.st, id)
    {
      hide Cluster.Valid, Lawful, View, Onward, QueueIs, Plan.WellFormed, Graph.WellFormed, Unrun, Graph.Eval, CountedOut,
        OwedOnly, PaidSince, HasFailed,
        GivenUp, RanAll, NodesRight, NodesOf, Elems, Distinct, EdgesIn, NodesJoined, AllStoredOrOwed, CameFromQueue;
      ghost var g, before, v0, queue := cluster.plan.g, cluster.st, Mine(), taskQueue;
      WellFormedPlan(cluster.plan);
      QueueFromBig();
      StandingStill(g, id, before);
      cluster.BeginGiveUp(id);
      Continue(g, id, before, before, cluster.st);
      ghost var start, v00 := cluster.st, Mine();
      ghost var counted;
      executed, stillNotReady, counted := CountQueue();
      ghost var mid, v1 := cluster.st, Mine();
      Continue(g, id, before, start, cluster.st);
      CountedClaims(v00, v1, counted, executed);
      var nodes := RunAll(Targets(executed), false, true, taskQueue);
      Continue(g, id, before, mid, cluster.st);
      ok := nodes.Some?;
      if ok {
        CountedThenRan(g, v00, v1, Mine(), counted, executed);
        InElems(Targets(executed));
        Joined(g, nodesToProcess, nodes.value, Elems(Targets(executed)));
        nodesToProcess := nodesToProcess + nodes.value;
      }
      AllStayStoredOrOwed(g, mid, cluster.st, stillNotReady);
      mid := cluster.st;
      ghost var v2 := Mine();
      WriteOwed(stillNotReady);
      Continue(g, id, before, mid, cluster.st);
      AllPaid(v0.owing, v1.owing, Mine().owing, stillNotReady, cluster.st.store.Keys);
      PaidOn(v0.owing, Mine().owing, before.store.Keys, cluster.st.store.Keys);
      NothingHeld(g, Mine().held);
      if !ok { FailureStays(id, mid, cluster.st); }
      mid := cluster.st;
      if ok { GivenUpClaims(g, v00, v2, executed); }
      assert Mine().claims.Keys == {} && Mine().claims == map[];
      PaidMeansWritten(Mine().owing, cluster.st.store.Keys);
      cluster.EndGiveUp(id);
      Continue(g, id, before, mid, cluster.st);
      if ok { 
        GivenUpStill(g, v0, v00, v2, Mine(), executed);
        GivenUpRan(g, v0, Mine(), executed);
        ExecutedCame(cluster.plan, v0, queue, executed, stillNotReady, executedTasks);
      } else { FailureStays(id, mid, cluster.st); }
    }

    /** Passes over the queue until something runs or the queue is empty; after MAX_TRIES
        passes without effect it gives up. */
    method ProcessEnqueuedTasksLooped()
      returns (ok: bool, executed: seq<Delayed>, stillNotReady: seq<Delayed>, ghost gaveUp: bool, ghost passes: nat)
      requires Valid() && Mine().claims == map[] && Mine().waiting == {} && PaidSince({}, Mine().owing, cluster.st.store.Keys)
      modifies this`taskQueue, this`previousResults, this`executedTasks, this`nodesToProcess, cluster
      ensures Valid() && Onward(cluster.plan.g, id, old(cluster.st), cluster.st)
      ensures multiset(executed) + multiset(stillNotReady) == multiset(old(taskQueue))
      ensures ok ==> QueueWorked(cluster.plan.g, old(Mine()), Mine(), executed)
      ensures ok ==> CameFromQueue(cluster.plan, executedTasks, Elems(Targets(executed)))
      ensures ok ==> NodesJoined(cluster.plan.g, old(nodesToProcess), nodesToProcess, Elems(Targets(executed)))
      ensures ok && !gaveUp ==> taskQueue == stillNotReady && (taskQueue == [] || executed != [])
      ensures ok ==> PaidSince(old(Mine()).owing, Mine().owing, cluster.st.store.Keys)
      ensures ok && gaveUp ==> taskQueue == [] && forall x :: x in stillNotReady ==> x.edge.src in cluster.st.store
      ensures gaveUp ==> SaidNoToAll(cluster.plan, id, old(cluster.st), cluster.st, EdgesIn(old(taskQueue)))
      ensures passes <= MAX_TRIES && (gaveUp ==> passes == MAX_TRIES)
      ensures ok && executed != [] ==> Unrun(cluster.plan.g, cluster.st) < Unrun(cluster.plan.g, old(cluster.st))
      ensures !ok ==> HasFailed(cluster.st, id)
    {
      hide Cluster.Valid, Lawful, View, Onward, QueueIs, Plan.WellFormed, Graph.WellFormed, Unrun, Graph.Eval,
        GivenUp, QueuePassed, QueueWorked, Elems, Targets, NodesJoined,
        SaidNo, SaidNoToAll, EdgesIn, PaidSince, HasFailed, CameFromQueue;
      ghost var g, before, v0 := cluster.plan.g, cluster.st, Mine();
      WellFormedPlan(cluster.plan);
      StandingStill(g, id, before);
      Continue(g, id, before, before, before);
      var numTries := 1;
      passes := 0;
      ok, executed, stillNotReady, gaveUp := true, [], [], false;
      NoneCame(cluster.plan, executedTasks);
      WorkedNothing(g, v0, nodesToProcess);
      IdleNow(v0);
      PaidAlready(v0.owing, before.store.Keys);
      while taskQueue != [] && numTries <= MAX_TRIES
        invariant Valid() && Onward(g, id, before, cluster.st) && Idle(v0, Mine())
        invariant multiset(taskQueue) == multiset(old(taskQueue)) && nodesToProcess == old(nodesToProcess)
        invariant Unrun(g, cluster.st) <= Unrun(g, before) && PaidSince({}, Mine().owing, cluster.st.store.Keys)
        invariant numTries > 1 ==> SaidNoToAll(cluster.plan, id, before, cluster.st, EdgesIn(old(taskQueue)))
        invariant numTries == passes + 1 <= MAX_TRIES + 1
        decreases MAX_TRIES - numTries
      {
        ghost var mid, v' := cluster.st, Mine();
        ok, executed, stillNotReady := ProcessEnqueuedTasks();
        passes := passes + 1;
        Continue(g, id, before, mid, cluster.st);
        if !ok {
          return;
        }
        PassedIsWorked(g, v0, v', Mine(), executed);
        PaidAlready(v0.owing, cluster.st.store.Keys);
        if taskQueue == [] {
          return;
        }
        if executed != [] {
          return;
        }
        PassedNothing(g, v0, v', Mine());
        PaidAlready(v0.owing, cluster.st.store.Keys);
        PaidOn(v0.owing, v0.owing, mid.store.Keys, cluster.st.store.Keys);
        JoinedNothing(g, old(nodesToProcess), nodesToProcess);
        SaidNoToSame(cluster.plan, id, before, mid, cluster.st, stillNotReady, old(taskQueue));
        numTries := numTries + 1;
      }
      if taskQueue != [] {
        ghost var mid, v' := cluster.st, Mine();
        ok, executed, stillNotReady := GiveUp();
        Continue(g, id, before, mid, cluster.st);
        PassedIsWorked(g, v0, v', Mine(), executed);
        assert v'.owing == v0.owing;
        SaidNoLater(cluster.plan, id, before, mid, cluster.st, EdgesIn(old(taskQueue)));
        gaveUp := true;
      } else {
        SameEmptyQueue(old(taskQueue));
        executed, stillNotReady := [], [];
        NoneCame(cluster.plan, executedTasks);
        IdleIsWorked(g, v0, Mine());
        PaidAlready(v0.owing, cluster.st.store.Keys);
        WorkedNothing(g, v0, nodesToProcess);
      }
    }

    // ---- process_out_edges ---------------------------------------------------

    /** Small results: peek at the task to become if one is needed, process_small, evict,
        invoke. */
    method OutEdgesOfSmall(node: Unprocessed, needsBecome: bool, headerSize: nat) returns (become: Option<Task>)
      requires Valid() && NodeToProcess(node) && node.task !in cluster.plan.big && (needsBecome <==> Mine().claims == map[])
      modifies this`previousResults, cluster
      ensures Valid() && Onward(cluster.plan.g, id, old(cluster.st), cluster.st)
      ensures OutEdgesDone(cluster.plan, old(Mine()), Mine(), node.task, needsBecome, become, {})
      ensures forall d :: d in previousResults ==> !DoneHere(d)
      ensures node.task !in cluster.plan.proxied ==> node.task in cluster.st.store
    {
      hide Cluster.Valid, Lawful, View, Onward, QueueIs, Plan.WellFormed, Graph.WellFormed, Unrun, Graph.Eval, OutEdgesDone,
        SmallDone, Took, Distinct, Elems;
      var d, plan := node.task, cluster.plan;
      ghost var g, before, v0 := plan.g, cluster.st, Mine();
      WellFormedPlan(plan);
      PhasesApart(g, before, id);
      StandingStill(g, id, before);
      BecomeIsNoInvoke(plan, d);
      DownstreamElems(plan, d);
      var outEdges, ready, candidate := plan.Downstream(d), !needsBecome, None;
      if needsBecome {
        candidate := Some(plan.become[d]);
        ready := cluster.CheckWithoutCounting(id, d, plan.become[d]);
        Continue(g, id, before, before, cluster.st);
        if ready {
          TookFrame(v0, Edge(d, plan.become[d]));
          outEdges := outEdges[1..];      // the task to become heads the list
        }
      }
      ghost var mid, v1 := cluster.st, Mine();
      EdgesToOne(d, Elems(plan.InvokeOf(d)), plan.become[d]);
      assert outEdges == if needsBecome && ready then plan.InvokeOf(d) else plan.Downstream(d);
      var toInvoke;
      toInvoke, become := ProcessSmall(d, node.value, ready, candidate, outEdges, needsBecome, node.dataWritten);
      Continue(g, id, before, mid, cluster.st);
      ghost var v2, mid' := Mine(), cluster.st;
      EvictUnneeded();
      Continue(g, id, before, mid', cluster.st);
      mid := cluster.st;
      InvokableAfter(plan, v1, v2, d, ready, needsBecome, outEdges, toInvoke, become);
      InvokeAll(toInvoke, headerSize);
      Continue(g, id, before, mid, cluster.st);
      assert Mine() == Dispatched(v2, toInvoke, previousResults);
      if d in plan.proxied {
        assert toInvoke == [];
        ProxiedDone(plan, v0, v1, v2, d, needsBecome, ready, outEdges, become, previousResults);
      } else {
        DirectDone(plan, v0, v1, v2, d, needsBecome, ready, outEdges, toInvoke, become, previousResults);
      }
    }

    /** process_out_edges: the nodes to process next, and the task to become if one is needed
        and was found. */
    method ProcessOutEdges(node: Unprocessed, needsBecome: bool, headerSize: nat)
      returns (next: Option<seq<Unprocessed>>, become: Option<Task>, ghost pulled: set<Task>)
      requires Valid() && NodeToProcess(node) && (needsBecome <==> Mine().claims == map[])
      modifies this`taskQueue, this`previousResults, this`executedTasks, cluster
      ensures Valid() && Onward(cluster.plan.g, id, old(cluster.st), cluster.st)
      ensures next.Some? ==>
                && OutEdgesDone(cluster.plan, old(Mine()), Mine(), node.task, needsBecome, become, pulled)
                && NodesRight(cluster.plan.g, next.value)
                && (pulled != {} ==> Unrun(cluster.plan.g, cluster.st) < Unrun(cluster.plan.g, old(cluster.st)))
                && (forall t :: t in NodesOf(next.value) <==> t in pulled && cluster.plan.Downstream(t) != [])
                && (forall t :: t in pulled && t !in NodesOf(next.value) ==> t in cluster.st.store)
      ensures next.None? ==> HasFailed(cluster.st, id)
      ensures next.Some? && become.Some? ==> cluster.plan.NotOnlyPulledDown(become.value)
      ensures next.Some? ==> forall d :: d in previousResults ==> !DoneHere(d)
      ensures old(taskQueue) <= taskQueue && (!cluster.plan.useTaskQueue ==> taskQueue == old(taskQueue))
    {
      hide Cluster.Valid, Lawful, View, Onward, QueueIs, Plan.WellFormed, Graph.WellFormed, Unrun, Graph.Eval, OutEdgesDone,
        BigDone, Placed, NodesRight, NodesOf, Distinct, Elems, Plan.Downstream;
      var d, plan := node.task, cluster.plan;
      ghost var g, before, v0 := plan.g, cluster.st, Mine();
      WellFormedPlan(plan);
      StandingStill(g, id, before);
      if d in plan.big {
        become := None;
        UntriedNode(plan, v0, d);
        ghost var parked;
        next, pulled, parked := ProcessBig(d, node.value, plan.Downstream(d), node.dataWritten);
        if next.Some? {
          ghost var mid, v1 := cluster.st, Mine();
          EvictUnneeded();
          Continue(g, id, before, mid, cluster.st);
          BigThenDone(plan, v0, v1, d, needsBecome, pulled, parked, previousResults);
          assert Mine() == Dispatched(v1, [], previousResults) by {
            NoNodes(g);
            assert v1.claims - {} == v1.claims;
          }
        }
      } else {
        become := OutEdgesOfSmall(node, needsBecome, headerSize);
        BecomesAfterSmall(plan, v0, Mine(), d, needsBecome, become, {});
        NoNodes(g);
        pulled := {};
        next := Some([]);
      }
    }

    /** The node has run and none of its out-edges has been dealt with. */
    ghost predicate NodeToProcess(node: Unprocessed)
      requires cluster.plan.WellFormed()
      reads this, cluster
    {
      var d := node.task;
      && d in executedTasks && d in cluster.plan.g.tasks && node.value == cluster.plan.g.Eval(d) && !node.dataWritten
      && d in cluster.plan.become && Distinct(cluster.plan.Downstream(d))
      && EdgesTo(d, Elems(cluster.plan.Downstream(d))) <= Mine().waiting
    }

    /** data are inputs of t that are cached here; together with the header they stay below the
        limit, and none of the others would fit as well. */
    ghost predicate Fits(t: Task, headerSize: nat, data: map<Task, Value>)
      requires t in cluster.plan.g.deps
      reads this
    {
      && data.Keys <= cluster.plan.g.deps[t]
      && (forall k :: k in data ==> k in previousResults && data[k] == previousResults[k])
      && (data == map[] || headerSize + TotalSize(encodedSize, data, data.Keys) < MAX_INVOCATION)
      && forall k :: k in cluster.plan.g.deps[t] && k in previousResults && k !in data ==>
           headerSize + TotalSize(encodedSize, data, data.Keys) + encodedSize(previousResults[k]) >= MAX_INVOCATION
    }

    /** Some of t's inputs that are cached here, as many as fit into the invocation. */
    method DataFor(t: Task, headerSize: nat) returns (data: map<Task, Value>)
      requires ValidWith(taskQueue) && t in cluster.plan.g.tasks && t in cluster.plan.g.deps
      ensures Fits(t, headerSize, data)
    {
      hide *;
      data := map[];
      var totalSize: int := headerSize;
      var todo := cluster.plan.g.deps[t];
      NoData(encodedSize);
      assert data.Keys == {};
      while todo != {}
        invariant todo <= cluster.plan.g.deps[t] && data.Keys <= cluster.plan.g.deps[t] - todo
        invariant forall k :: k in data ==> k in previousResults && data[k] == previousResults[k]
        invariant data == map[] || totalSize < MAX_INVOCATION
        invariant totalSize == headerSize + TotalSize(encodedSize, data, data.Keys)
        invariant forall k :: k in cluster.plan.g.deps[t] - todo && k in previousResults && k !in data ==>
                    totalSize + encodedSize(previousResults[k]) >= MAX_INVOCATION
      {
        var dep :| dep in todo;
        todo := todo - {dep};
        if dep in previousResults {
          var size := encodedSize(previousResults[dep]);
          var remaining: int := MAX_INVOCATION - totalSize;
          if size <= MAX_INVOCATION && size < remaining {
            totalSize := totalSize + size;
            MoreData(encodedSize, data, dep, previousResults[dep]);
            data := data[dep := previousResults[dep]];
          }
        }
      }
      FitsIs(t, headerSize, data);
    }

    /** Nobody here or elsewhere needs the value of d any more, as far as this executor can tell. */
    ghost predicate Unneeded(d: Task)
      reads this, cluster
    {
      leafKey != Some(d) && d in nodesMap
      && forall t :: t in cluster.plan.Downstream(d) ==> t in executedTasks || t in cluster.st.store
    }

    ghost predicate DoneHere(d: Task)
      reads this
    {
      leafKey != Some(d) && d in nodesMap && forall t :: t in cluster.plan.Downstream(d) ==> t in executedTasks
    }

    /** Drops the cached values whose dependents have all run here or have a value in Redis. */
    method EvictUnneeded()
      requires Valid()
      modifies this`previousResults, cluster
      ensures Valid() && Onward(cluster.plan.g, id, old(cluster.st), cluster.st)
      ensures Mine() == old(Mine()).(cache := previousResults) && previousResults.Keys <= old(previousResults.Keys)
      ensures forall d :: d in old(previousResults) && d !in previousResults ==> Unneeded(d)
      ensures forall d :: d in old(previousResults) && DoneHere(d) ==> d !in previousResults
    {
      hide Cluster.Valid, Lawful, View, Onward, QueueIs, Plan.WellFormed, Graph.WellFormed, Unrun, Plan.Downstream;
      ghost var g, before, v0 := cluster.plan.g, cluster.st, Mine();
      WellFormedPlan(cluster.plan);
      StandingStill(g, id, before);
      var keysToRemove, keys := {}, previousResults.Keys;
      while keys != {}
        invariant keys <= previousResults.Keys && keysToRemove <= previousResults.Keys - keys
        invariant Valid() && Onward(g, id, before, cluster.st) && Mine() == v0
        invariant forall d :: d in keysToRemove ==> Unneeded(d)
        invariant forall d :: d in previousResults.Keys - keys && DoneHere(d) ==> d in keysToRemove
      {
        var key :| key in keys;
        keys := keys - {key};
        if leafKey != Some(key) && key in nodesMap {
          ghost var mid := cluster.st;
          var canRemove := NoDependentWaits(key);
          Continue(g, id, before, mid, cluster.st);
          if canRemove { keysToRemove := keysToRemove + {key}; }
        }
      }
      ghost var all := previousResults.Keys;
      while keysToRemove != {}
        invariant Valid() && Onward(g, id, before, cluster.st) && Mine() == v0.(cache := previousResults)
        invariant keysToRemove <= previousResults.Keys <= all
        invariant forall d :: d in all && (d !in previousResults || d in keysToRemove) ==> Unneeded(d)
        invariant forall d :: d in all && DoneHere(d) ==> d in keysToRemove || d !in previousResults
      {
        var key :| key in keysToRemove;
        keysToRemove := keysToRemove - {key};
        ghost var mid := cluster.st;
        UnneededEvictable(key);
        cluster.Evict(id, key);
        Continue(g, id, before, mid, cluster.st);
        previousResults := previousResults - {key};
      }
    }

    /** Asks, dependent by dependent, whether it ran here or has a value in Redis. */
    method NoDependentWaits(d: Task) returns (canRemove: bool)
      requires Valid() && leafKey != Some(d) && d in nodesMap
      modifies cluster
      ensures Valid() && Onward(cluster.plan.g, id, old(cluster.st), cluster.st) && Mine() == old(Mine())
      ensures canRemove <==> Unneeded(d)
    {
      hide Cluster.Valid, Lawful, View, Onward, QueueIs, Plan.WellFormed, Graph.WellFormed, Unrun, Plan.Downstream;
      ghost var g, before, v0 := cluster.plan.g, cluster.st, Mine();
      WellFormedPlan(cluster.plan);
      StandingStill(g, id, before);
      var dependents := cluster.plan.Downstream(d);
      canRemove := true;
      for i := 0 to |dependents|
        invariant Valid() && Onward(g, id, before, cluster.st) && Mine() == v0 && canRemove
        invariant forall t :: t in dependents[..i] ==> t in executedTasks || t in cluster.st.store
      {
        if dependents[i] !in executedTasks {
          ghost var mid := cluster.st;
          var found := cluster.Exists(id, dependents[i]);
          Continue(g, id, before, mid, cluster.st);
          if !found {
            return false;
          }
        }
      }
      assert dependents[..|dependents|] == dependents;
    }

    lemma UnneededEvictable(d: Task)
      requires Valid() && d in previousResults && Unneeded(d)
      ensures cluster.plan.g.WellFormed() && d in cluster.plan.g.tasks
      ensures forall t :: t in cluster.plan.g.Downstream(d) ==> t in Mine().ran || t in cluster.st.store
    {
      hide Lawful, View, QueueIs, Plan.Downstream, Plan.AssignsBits;
      CachedInGraph(cluster.plan, cluster.st, id, d);
    }

    /** A new Lambda for t, which starts with the data that fit. */
    method InvokeOne(t: Task, headerSize: nat) returns (ghost sent: map<Task, Value>)
      requires Valid() && executedTasks != {} && t in Mine().claims && Mine().claims[t]
      modifies cluster
      ensures Valid() && Onward(cluster.plan.g, id, old(cluster.st), cluster.st)
      ensures Mine() == old(Mine()).(claims := old(Mine()).claims - {t}) && t in cluster.plan.g.deps
      ensures Fits(t, headerSize, sent)
      ensures exists e: Exec :: e != id && Claim(t, e, true) in cluster.st.pending && cluster.st.Cached(e) == sent
    {
      hide Cluster.Valid, Lawful, View, Onward, QueueIs, Plan.WellFormed, Graph.WellFormed, Unrun, Fits, TotalSize;
      ClaimedUncached(t);
      var data := DataFor(t, headerSize);
      FitsIs(t, headerSize, data);
      sent := data;
      ghost var g, before := cluster.plan.g, cluster.st;
      WellFormedPlan(cluster.plan);
      StandingStill(g, id, before);
      cluster.Invoke(id, t, data);
      Continue(g, id, before, before, cluster.st);
    }

    lemma FitsIs(t: Task, headerSize: nat, data: map<Task, Value>)
      requires t in cluster.plan.g.deps
      ensures Fits(t, headerSize, data) <==>
                && data.Keys <= cluster.plan.g.deps[t]
                && (forall k :: k in data ==> k in previousResults && data[k] == previousResults[k])
                && (data == map[] || headerSize + TotalSize(encodedSize, data, data.Keys) < MAX_INVOCATION)
                && forall k :: k in cluster.plan.g.deps[t] && k in previousResults && k !in data ==>
                     headerSize + TotalSize(encodedSize, data, data.Keys) + encodedSize(previousResults[k]) >= MAX_INVOCATION
    {
    }

    /** One new Lambda for each task on the list: each claim is handed over once. */
    method InvokeAll(toInvoke: seq<Task>, headerSize: nat)
      requires Valid() && executedTasks != {} && Distinct(toInvoke)
      requires forall t :: t in toInvoke ==> t in Mine().claims && Mine().claims[t]
      modifies cluster
      ensures Valid() && Onward(cluster.plan.g, id, old(cluster.st), cluster.st)
      ensures Mine() == old(Mine()).(claims := old(Mine()).claims - Elems(toInvoke))
    {
      hide Cluster.Valid, Lawful, View, Onward, QueueIs, Plan.WellFormed, Graph.WellFormed, Unrun;
      ghost var g, before, v0 := cluster.plan.g, cluster.st, Mine();
      WellFormedPlan(cluster.plan);
      StandingStill(g, id, before);
      for i := 0 to |toInvoke|
        invariant Valid() && Onward(g, id, before, cluster.st)
        invariant Mine() == v0.(claims := v0.claims - Elems(toInvoke[..i]))
      {
        var t := toInvoke[i];
        ghost var mid := cluster.st;
        assert t !in toInvoke[..i];
        ghost var _ := InvokeOne(t, headerSize);
        Continue(g, id, before, mid, cluster.st);
        assert v0.claims - Elems(toInvoke[..i]) - {t} == v0.claims - Elems(toInvoke[..i + 1]);
      }
      assert toInvoke[..|toInvoke|] == toInvoke;
    }

    // ---- process_path --------------------------------------------------------

    /** The executor's own obligations, with one task claimed or none. */
    ghost predicate Owes(current: Option<Task>)
      requires cluster.plan.WellFormed()
      reads this, cluster
    {
      && Obliged(cluster.plan, Mine(), nodesToProcess, current)
      && PaidSince({}, Mine().owing, cluster.st.store.Keys)
      && (!cluster.plan.useTaskQueue ==> taskQueue == [])
    }

    /** An executor may come to t as to its current task, and not only by pulling it down. */
    ghost predicate ComeTo(t: Option<Task>)
      requires cluster.plan.WellFormed()
      reads this, cluster
    {
      t.Some? ==> cluster.plan.NotOnlyPulledDown(t.value)
    }

    /** The results of all final tasks run here are stored, but for those in lacking. */
    ghost predicate FinalsStoredBut(lacking: set<Task>)
      reads this, cluster
    {
      FinalsStored(cluster.plan, executedTasks, cluster.st.store.Keys, lacking)
    }

    /** The next node's out-edges, and then one pass over the delayed queue.  A task to become
        that was chosen before stays chosen. */
    method ProcessNode(become0: Option<Task>, headerSize: nat, ghost lacking: set<Task>)
      returns (ok: bool, become: Option<Task>, ghost queued: set<Task>)
      requires Valid() && Owes(become0) && nodesToProcess != [] && ComeTo(become0) && FinalsStoredBut(lacking)
      modifies this, cluster
      ensures Valid() && Onward(cluster.plan.g, id, old(cluster.st), cluster.st)
      ensures ok ==> Owes(become) && old(Mine()).ran <= Mine().ran && (become0.Some? ==> become == become0) && ComeTo(become)
      ensures ok ==> Unrun(cluster.plan.g, cluster.st) < Unrun(cluster.plan.g, old(cluster.st))
                     || (Unrun(cluster.plan.g, cluster.st) == Unrun(cluster.plan.g, old(cluster.st))
                         && |nodesToProcess| < |old(nodesToProcess)|)
      ensures ok ==> FinalsStoredBut(lacking + queued) && CameFromQueue(cluster.plan, executedTasks, queued)
      ensures ok && queued == {} && cluster.plan.Downstream(old(nodesToProcess)[0].task) == [] ==>
                become == become0 && nodesToProcess == old(nodesToProcess)[1..]
      ensures ok && cluster.plan.useTaskQueue ==>
                SaidNoToAll(cluster.plan, id, old(cluster.st), cluster.st, EdgesIn(taskQueue))
      ensures !ok ==> HasFailed(cluster.st, id)
    {
      hide Cluster.Valid, Lawful, View, Onward, QueueIs, Plan.WellFormed, Graph.WellFormed, Unrun, Graph.Eval, OutEdgesDone,
        NodesRight, NodesOf, Distinct, Elems, EdgesTo, Plan.Downstream, Obliged, PaidSince, HasFailed, Plan.NotOnlyPulledDown,
        CameFromQueue, FinalsStored, NodesJoined, QueuePassed, Plan.Holdable, SaidNoToAll, EdgesIn;
      ghost var g, before, v0, nodes := cluster.plan.g, cluster.st, Mine(), nodesToProcess;
      WellFormedPlan(cluster.plan);
      StandingStill(g, id, before);
      Continue(g, id, before, before, before);
      HeadNode(cluster.plan, v0, nodesToProcess, become0);
      if become0.Some? {
        ClaimsCurrent(cluster.plan, v0, nodesToProcess, become0.value);
      } else {
        NoClaimsNow(cluster.plan, v0, nodesToProcess);
      }
      PaidAlready(v0.owing, before.store.Keys);
      var node := nodesToProcess[0];
      nodesToProcess := nodesToProcess[1..];
      ok, become, queued := true, become0, {};
      NoneCame(cluster.plan, executedTasks);
      if cluster.plan.Downstream(node.task) != [] {
        var next, candidate;
        ghost var pulled;
        next, candidate, pulled := ProcessOutEdges(node, become == None, headerSize);
        if next.None? {
          return false, become, {};
        }
        Continue(g, id, before, before, cluster.st);
        OutEdgesRan(cluster.plan, v0, Mine(), node.task, become == None, candidate, pulled);
        FinalsMore(cluster.plan, v0.ran, before.store.Keys, lacking, pulled, executedTasks, cluster.st.store.Keys, lacking);
        NoneCame(cluster.plan, executedTasks);
        ObligedAfterOutEdges(cluster.plan, v0, Mine(), nodes, next.value, become, candidate, pulled);
        PaidAlready(v0.owing, cluster.st.store.Keys);
        PaidOn(v0.owing, v0.owing, before.store.Keys, cluster.st.store.Keys);
        NodesListed(next.value);
        nodesToProcess := nodesToProcess + next.value;
        if become == None { become := candidate; }
      } else {
        ObligedAfterRoot(cluster.plan, v0, nodes, become);
      }
      if cluster.plan.useTaskQueue {
        ghost var mid, v1, nodes1 := cluster.st, Mine(), nodesToProcess;
        var executed, stillNotReady;
        ok, executed, stillNotReady := ProcessEnqueuedTasks();
        Continue(g, id, before, mid, cluster.st);
        if ok {
          queued := Elems(Targets(executed));
          PassedRan(g, v1, Mine(), executed);
          FinalsMore(cluster.plan, v1.ran, mid.store.Keys, lacking, queued, executedTasks, cluster.st.store.Keys,
                     lacking + queued);
          SaidNoToSame(cluster.plan, id, before, mid, cluster.st, stillNotReady, taskQueue);
          if queued == {} { JoinedNothing(g, nodes1, nodesToProcess); }
          ObligedAfterQueue(cluster.plan, v1, Mine(), nodes1, nodesToProcess, become, executed);
          PaidAlready(v1.owing, cluster.st.store.Keys);
          PaidOn(v1.owing, v1.owing, mid.store.Keys, cluster.st.store.Keys);
        }
      }
      assert lacking + {} == lacking;
    }

    /** Processes nodes until none is left.  If these were final tasks only, a task to become can
        only come from the queue. */
    method ProcessNodes(headerSize: nat, ghost lacking: set<Task>)
      returns (ok: bool, become: Option<Task>, ghost queued: set<Task>)
      requires Valid() && Owes(None) && FinalsStoredBut(lacking)
      modifies this, cluster
      ensures Valid() && Onward(cluster.plan.g, id, old(cluster.st), cluster.st)
      ensures ok ==> Owes(become) && nodesToProcess == [] && old(Mine()).ran <= Mine().ran && ComeTo(become)
      ensures ok ==> Unrun(cluster.plan.g, cluster.st) <= Unrun(cluster.plan.g, old(cluster.st))
      ensures ok ==> FinalsStoredBut(lacking + queued) && CameFromQueue(cluster.plan, executedTasks, queued)
      ensures ok && become.Some? && AllFinal(cluster.plan, old(nodesToProcess)) ==> queued != {}
      ensures !ok ==> HasFailed(cluster.st, id)
    {
      hide Cluster.Valid, Lawful, View, Onward, QueueIs, Plan.WellFormed, Graph.WellFormed, Unrun, Owes, Obliged,
        CameFromQueue, FinalsStored, Plan.Downstream, HasFailed;
      ghost var g, before, v0 := cluster.plan.g, cluster.st, Mine();
      WellFormedPlan(cluster.plan);
      StandingStill(g, id, before);
      ok, become, queued := true, None, {};
      NoneCame(cluster.plan, executedTasks);
      assert lacking + {} == lacking;
      while nodesToProcess != []
        invariant Valid() && Onward(g, id, before, cluster.st) && Owes(become) && v0.ran <= Mine().ran && ComeTo(become)
        invariant Unrun(g, cluster.st) <= Unrun(g, before)
        invariant FinalsStoredBut(lacking + queued) && CameFromQueue(cluster.plan, executedTasks, queued)
        invariant AllFinal(cluster.plan, old(nodesToProcess)) && queued == {} ==>
                    become == None && AllFinal(cluster.plan, nodesToProcess)
        decreases Unrun(g, cluster.st), |nodesToProcess|
      {
        ghost var mid, ran, more := cluster.st, executedTasks, {};
        ok, become, more := ProcessNode(become, headerSize, lacking + queued);
        Continue(g, id, before, mid, cluster.st);
        if !ok {
          return;
        }
        CameFromQueueMore(cluster.plan, ran, queued, executedTasks, more);
        assert lacking + queued + more == lacking + (queued + more);
        queued := queued + more;
      }
    }

    /** Runs the current task and lists it as a node to process. */
    method RunCurrent(t: Task) returns (value: Option<Value>)
      requires Valid() && Owes(Some(t))
      modifies this`previousResults, this`executedTasks, this`nodesToProcess, cluster
      ensures Valid() && Onward(cluster.plan.g, id, old(cluster.st), cluster.st)
      ensures value.Some? ==> Owes(None) && Mine().ran == old(Mine()).ran + {t} && t in cluster.plan.g.tasks && value.value == cluster.plan.g.Eval(t)
      ensures value.Some? ==> nodesToProcess == old(nodesToProcess) + [Unprocessed(t, value.value, false)]
      ensures value.Some? ==> Unrun(cluster.plan.g, cluster.st) < Unrun(cluster.plan.g, old(cluster.st))
      ensures value.None? ==> HasFailed(cluster.st, id)
    {
      hide Cluster.Valid, Lawful, View, Onward, QueueIs, Plan.WellFormed, Graph.WellFormed, Unrun, Graph.Eval, Obliged, PaidSince, HasFailed;
      WellFormedPlan(cluster.plan);
      ghost var v0, before := Mine(), cluster.st;
      ClaimsCurrent(cluster.plan, v0, nodesToProcess, t);
      value := ProcessTask(t, taskQueue);
      if value.Some? {
        var node := Unprocessed(t, value.value, false);
        ObligedAfterRun(cluster.plan, v0, Mine(), nodesToProcess, node);
        StandingStill(cluster.plan.g, id, before);
        Continue(cluster.plan.g, id, before, before, cluster.st);
        PaidAlready(v0.owing, cluster.st.store.Keys);
        PaidOn(v0.owing, v0.owing, before.store.Keys, cluster.st.store.Keys);
        nodesToProcess := nodesToProcess + [node];
      }
    }

    /** store_value_in_redis with check_first, for a result of this executor. */
    method StoreIfMissing(d: Task, v: Value)
      requires Valid() && d in executedTasks && d in cluster.plan.g.tasks && v == cluster.plan.g.Eval(d)
      modifies cluster
      ensures Valid() && Onward(cluster.plan.g, id, old(cluster.st), cluster.st)
      ensures Mine() == old(Mine()) && d in cluster.st.store
    {
      hide Cluster.Valid, Lawful, View, Onward, QueueIs, Plan.WellFormed, Graph.WellFormed, Unrun, Graph.Eval;
      WellFormedPlan(cluster.plan);
      ghost var g, before := cluster.plan.g, cluster.st;
      var found := cluster.Exists(id, d);
      ghost var mid := cluster.st;
      StandingStill(g, id, before);
      Continue(g, id, before, before, mid);
      if !found {
        cluster.Set(id, d, v);
        Continue(g, id, before, mid, cluster.st);
      }
    }

    /** Works on the delayed queue while there is nothing else to do. */
    method DrainQueue() returns (ok: bool, ghost queued: set<Task>)
      requires Valid() && Owes(None) && nodesToProcess == []
      modifies this`taskQueue, this`previousResults, this`executedTasks, this`nodesToProcess, cluster
      ensures Valid() && Onward(cluster.plan.g, id, old(cluster.st), cluster.st)
      ensures ok ==> Owes(None) && old(Mine()).ran <= Mine().ran
      ensures ok ==> Unrun(cluster.plan.g, cluster.st) <= Unrun(cluster.plan.g, old(cluster.st))
      ensures ok ==> (nodesToProcess == [] && taskQueue == [])
                     || Unrun(cluster.plan.g, cluster.st) < Unrun(cluster.plan.g, old(cluster.st))
      ensures ok && nodesToProcess == [] ==> taskQueue == []
      ensures ok ==> executedTasks == old(executedTasks) + queued && CameFromQueue(cluster.plan, executedTasks, queued)
      ensures !ok ==> HasFailed(cluster.st, id)
    {
      hide Cluster.Valid, Lawful, View, Onward, QueueIs, Plan.WellFormed, Graph.WellFormed, Unrun, Obliged, NodesJoined,
        QueueWorked, Targets, Elems, PaidSince, HasFailed, CameFromQueue;
      WellFormedPlan(cluster.plan);
      ghost var g, before, v0, nodes := cluster.plan.g, cluster.st, Mine(), nodesToProcess;
      StandingStill(g, id, before);
      Continue(g, id, before, before, before);
      ok, queued := true, {};
      NoneCame(cluster.plan, executedTasks);
      if cluster.plan.useTaskQueue {
        var executed, stillNotReady;
        ghost var gaveUp, passes;
        ObligedAtEnd(cluster.plan, v0, nodesToProcess);
        ok, executed, stillNotReady, gaveUp, passes := ProcessEnqueuedTasksLooped();
        Continue(g, id, before, before, cluster.st);
        if ok {
          queued := Elems(Targets(executed));
          WorkedRan(g, v0, Mine(), executed);
          ObligedAfterQueue(cluster.plan, v0, Mine(), nodes, nodesToProcess, None, executed);
          PaidOn(v0.owing, Mine().owing, before.store.Keys, cluster.st.store.Keys);
        }
      }
    }

    /** The beginning of a round of the loop over the path: the current task, if there is one, is
        run, and is the node to process then. */
    method BeginRound(current: Option<Task>, ghost lacking: set<Task>) returns (ok: bool, value: Option<Value>)
      requires Valid() && Owes(current) && FinalsStoredBut(lacking) && (current.Some? ==> nodesToProcess == [])
      modifies this`previousResults, this`executedTasks, this`nodesToProcess, cluster
      ensures Valid() && Onward(cluster.plan.g, id, old(cluster.st), cluster.st)
      ensures ok ==> Owes(None) && executedTasks == old(executedTasks) + OptSet(current)
      ensures ok ==> FinalsStoredBut(lacking + OptSet(current))
      ensures ok && current.None? ==> nodesToProcess == old(nodesToProcess)
      ensures ok && current.Some? ==>
                && current.value in cluster.plan.g.tasks && value == Some(cluster.plan.g.Eval(current.value))
                && (AllFinal(cluster.plan, nodesToProcess) <==> cluster.plan.Downstream(current.value) == [])
                && Unrun(cluster.plan.g, cluster.st) < Unrun(cluster.plan.g, old(cluster.st))
      ensures !ok ==> HasFailed(cluster.st, id)
    {
      hide Cluster.Valid, Lawful, View, Onward, QueueIs, Plan.WellFormed, Graph.WellFormed, Unrun, Graph.Eval, Obliged,
        Plan.Downstream, FinalsStored, HasFailed, AllFinal, PaidSince;
      WellFormedPlan(cluster.plan);
      ghost var g, before, ran := cluster.plan.g, cluster.st, executedTasks;
      StandingStill(g, id, before);
      Continue(g, id, before, before, before);
      ok, value := true, None;
      if current.Some? {
        value := RunCurrent(current.value);
        Continue(g, id, before, before, cluster.st);
        if value.None? {
          return false, value;
        }
        ghost var node := Unprocessed(current.value, value.value, false);
        OneFinal(cluster.plan, node);
        assert nodesToProcess == [node];
      }
      FinalsMore(cluster.plan, ran, before.store.Keys, lacking, OptSet(current), executedTasks, cluster.st.store.Keys,
                 lacking + OptSet(current));
    }

    /** The rest of a round without a task to become: the result of the current task, if there
        is one, is written unless it is big and has dependents, and then the delayed queue is
        worked on, unless the current task was a final one. */
    method FinishRound(current: Option<Task>, value: Option<Value>) returns (ok: bool, final: bool, ghost more: set<Task>)
      requires Valid() && Owes(None) && nodesToProcess == []
      requires current.Some? ==> current.value in executedTasks && current.value in cluster.plan.g.tasks
                                 && value == Some(cluster.plan.g.Eval(current.value))
      modifies this`taskQueue, this`previousResults, this`executedTasks, this`nodesToProcess, cluster
      ensures Valid() && Onward(cluster.plan.g, id, old(cluster.st), cluster.st)
      ensures ok ==> Owes(None) && executedTasks == old(executedTasks) + more && CameFromQueue(cluster.plan, executedTasks, more)
      ensures final <==> current.Some? && cluster.plan.Downstream(current.value) == []
      ensures final ==> ok && current.value in cluster.st.store && nodesToProcess == []
      ensures ok && current.Some? && current.value !in cluster.plan.big ==> current.value in cluster.st.store
      ensures ok && nodesToProcess == [] ==> taskQueue == [] || final
      ensures ok && nodesToProcess != [] ==> Unrun(cluster.plan.g, cluster.st) < Unrun(cluster.plan.g, old(cluster.st))
      ensures !ok ==> HasFailed(cluster.st, id)
    {
      hide Cluster.Valid, Lawful, View, Onward, QueueIs, Plan.WellFormed, Graph.WellFormed, Unrun, Graph.Eval, Obliged,
        Plan.Downstream, CameFromQueue, HasFailed;
      WellFormedPlan(cluster.plan);
      ghost var g, before := cluster.plan.g, cluster.st;
      StandingStill(g, id, before);
      final := false;
      if current.None? {
        ok, more := DrainQueue();
      } else if cluster.plan.Downstream(current.value) == [] {
        cluster.Set(id, current.value, value.value);
        Continue(g, id, before, before, cluster.st);
        NoneCame(cluster.plan, executedTasks);
        ok, final, more := true, true, {};
      } else {
        if current.value !in cluster.plan.big {
          StoreIfMissing(current.value, value.value);
          Continue(g, id, before, before, cluster.st);
        }
        ghost var mid := cluster.st;
        ok, more := DrainQueue();
        Continue(g, id, before, mid, cluster.st);
      }
    }

    /** process_path.  On a normal return no claim and no edge is left with this executor,
        except edges left out with a proxy, and edges still in the delayed queue when the
        last task run on the path was a final one.  The results of the final tasks it ran are
        in the store.  Exempt are tasks run from the delayed queue and, if there are such, the
        tasks that were the current one before the last. */
    method ProcessPath(start: Task, headerSize: nat)
      returns (ok: bool, lastRoot: Option<Task>, ghost path: seq<Task>, ghost queued: set<Task>)
      requires Valid() && Owes(Some(start)) && ComeTo(Some(start)) && nodesToProcess == []
      modifies this, cluster
      ensures Valid() && Onward(cluster.plan.g, id, old(cluster.st), cluster.st)
      ensures ok ==> Mine().claims == map[] && Mine().waiting == {}
      ensures ok ==> PaidSince({}, Mine().owing, cluster.st.store.Keys)
      ensures lastRoot.Some? ==> lastRoot.value in cluster.st.store && cluster.plan.Downstream(lastRoot.value) == [] && ComeTo(lastRoot)
      ensures ok && taskQueue != [] ==> path != [] && lastRoot == Some(path[|path| - 1])
      ensures ok ==> path != [] && path[0] == start && CameAlong(cluster.plan, executedTasks, path)
      ensures ok ==> CameFromQueue(cluster.plan, executedTasks, queued)
      ensures ok ==> FinalsStoredBut(old(executedTasks) + queued + Overtaken(path, queued))
      ensures !ok ==> HasFailed(cluster.st, id)
    {
      hide Cluster.Valid, Lawful, View, Onward, QueueIs, Plan.WellFormed, Graph.WellFormed, Unrun, Graph.Eval, Obliged,
        Plan.Downstream, CameFromQueue, FinalsStored, HasFailed, Lacking, Overtaken, Elems, CameAlong, AllFinal,
        Along, PaidSince, Plan.NotOnlyPulledDown;
      WellFormedPlan(cluster.plan);
      ghost var g, before, base := cluster.plan.g, cluster.st, executedTasks;
      StandingStill(g, id, before);
      var current := Some(start);
      lastRoot, path, queued := None, [], {};
      StartsOut(cluster.plan, base);
      while current.Some? || nodesToProcess != []
        invariant Valid() && Onward(g, id, before, cluster.st) && Owes(current) && ComeTo(current) && ComeTo(lastRoot)
        invariant if path == [] then current == Some(start) else path[0] == start
        invariant CameAlong(cluster.plan, executedTasks, path) && CameFromQueue(cluster.plan, executedTasks, queued)
        invariant FinalsStoredBut(base + Lacking(path, queued, current)) && (current.Some? ==> nodesToProcess == [])
        invariant lastRoot.Some? ==> lastRoot.value in cluster.st.store && cluster.plan.Downstream(lastRoot.value) == []
        invariant current.None? && nodesToProcess == [] && taskQueue != [] ==> path != [] && lastRoot == Some(path[|path| - 1])
        decreases Unrun(g, cluster.st), if current.Some? then 1 else if nodesToProcess != [] then 2 else 0
      {
        ghost var mid, ran, lacking := cluster.st, executedTasks, base + Lacking(path, queued, current);
        var value;
        ok, value := BeginRound(current, lacking);
        Continue(g, id, before, mid, cluster.st);
        if !ok {
          return;
        }
        ghost var mid' := cluster.st;
        var become;
        ghost var more;
        ok, become, more := ProcessNodes(headerSize, lacking + OptSet(current));
        Continue(g, id, before, mid', cluster.st);
        if !ok {
          return;
        }
        CameFromQueueMore(cluster.plan, ran, queued, executedTasks, more);
        CameFurther(cluster.plan, ran, path, current, executedTasks);
        AlongEnds(path, current);
        mid' := cluster.st;
        if become.Some? {
          FinalsBecoming(cluster.plan, executedTasks, mid'.store.Keys, base, path, queued, current, more, become);
          path, queued := Along(path, current), queued + more;
          current := become;
        } else {
          ghost var ran', more' := executedTasks, {};
          var final;
          ok, final, more' := FinishRound(current, value);
          Continue(g, id, before, mid', cluster.st);
          if final { lastRoot := current; }
          if !ok {
            return;
          }
          FinalsAtRest(cluster.plan, ran', mid'.store.Keys, base, path, queued, current, more,
                       executedTasks, cluster.st.store.Keys, more');
          CameFromQueueMore(cluster.plan, ran', queued + more, executedTasks, more');
          CameFurther(cluster.plan, ran', Along(path, current), None, executedTasks);
          AlongEnds(Along(path, current), None);
          path, queued := Along(path, current), queued + more + more';
          current := None;
        }
      }
      ok := true;
      LackingAtEnd(path, queued);
      assert base + Lacking(path, queued, None) == base + queued + Overtaken(path, queued);
      ObligedAtEnd(cluster.plan, Mine(), nodesToProcess);
    }

    /** A Lambda from its start to its end.  What it leaves behind for good are edges in its
        delayed queue, if the path ended with a final task; after a failure, whatever it had. */
    method Handle(start: Task, headerSize: nat) returns (ok: bool, ghost path: seq<Task>, ghost queued: set<Task>)
      requires Valid() && Owes(Some(start)) && Mine().claims == map[start := true] && executedTasks == {} && nodesToProcess == []
      modifies this, cluster
      ensures cluster.plan.WellFormed() && cluster.Valid() && id in cluster.st.gone
      ensures ok ==> Mine().claims == map[] && Mine().waiting == {}
      ensures ok && Mine().held != map[] ==> path != [] && cluster.EndOfPath(id, path[|path| - 1])
      ensures ok ==> path != [] && path[0] == start && CameAlong(cluster.plan, executedTasks, path)
      ensures ok ==> CameFromQueue(cluster.plan, executedTasks, queued)
      ensures ok ==> FinalsStoredBut(queued + Overtaken(path, queued))
      ensures ok && !cluster.plan.useTaskQueue ==>
                forall t :: t in executedTasks && cluster.plan.Downstream(t) == [] ==> HasResult(t)
      ensures !ok ==> HasFailed(cluster.st, id)
    {
      hide Cluster.Valid, Lawful, View, Onward, Plan.WellFormed, Graph.WellFormed, Unrun, Graph.Eval, Obliged,
        Plan.Downstream, HasFailed, Plan.NotOnlyPulledDown, FinalsStored, CameFromQueue, CameAlong, Overtaken, Cluster.FinalsKept;
      WellFormedPlan(cluster.plan);
      ComesToStart(start);
      var lastRoot;
      ok, lastRoot, path, queued := ProcessPath(start, headerSize);
      LastInGraph(lastRoot, path, ok);
      assert ok && Mine().held != map[] ==> cluster.EndOfPath(id, lastRoot.value) by {
        if taskQueue == [] { NothingHeld(cluster.plan.g, Mine().held); }
      }
      ghost var mid := cluster.st;
      assert {} + queued + Overtaken(path, queued) == queued + Overtaken(path, queued);
      if ok { KeptAtEnd(path, queued); }
      cluster.Quit(id);
      EndedView(cluster.plan.g, mid, cluster.st, id);
      assert ok && Mine().held != map[] ==> cluster.EndOfPath(id, lastRoot.value);
      if ok && !cluster.plan.useTaskQueue { NoneFromQueue(cluster.plan, executedTasks, path, queued); }
      ResultsIn();
    }

    /** The result of t is in the store. */
    ghost predicate HasResult(t: Task)
      requires cluster.plan.WellFormed()
      reads cluster
    {
      t in cluster.plan.g.tasks && t in cluster.st.store && cluster.st.store[t] == cluster.plan.g.Eval(t)
    }

    lemma ResultsIn()
      requires cluster.plan.WellFormed() && cluster.Valid()
      ensures FinalsStoredBut({}) ==> forall t :: t in executedTasks && cluster.plan.Downstream(t) == [] ==> HasResult(t)
    {
      hide Lawful, View, RedisAgrees, Plan.Downstream, Graph.Eval;
      StoredIsRight(cluster.plan, cluster.st);
    }

    lemma KeptAtEnd(path: seq<Task>, queued: set<Task>)
      requires cluster.plan.WellFormed() && cluster.Valid() && executedTasks == Mine().ran
      requires FinalsStoredBut(queued + Overtaken(path, queued))
      requires CameFromQueue(cluster.plan, executedTasks, queued) && CameAlong(cluster.plan, executedTasks, path)
      ensures cluster.FinalsKept(id)
    {
      hide Lawful, View, Plan.Holdable, Plan.NotOnlyPulledDown, Inv, CameFromQueue, CameAlong;
      LawfulInv(cluster.plan, cluster.st);
      cluster.RanInGraph(id);
      hide Plan.AssignsBits;
      forall t | t in Mine().ran && cluster.plan.g.Downstream(t) == {}
        ensures t in cluster.st.store || t in queued || (queued != {} && t in path)
      {
        assert cluster.plan.Downstream(t) == [] by { FinalIsListedSo(cluster.plan, t); }
      }
      hide FinalsStored;
      ExemptKept(path, queued);
    }

    lemma ExemptKept(path: seq<Task>, queued: set<Task>)
      requires cluster.plan.WellFormed() && executedTasks == Mine().ran
      requires CameFromQueue(cluster.plan, executedTasks, queued) && CameAlong(cluster.plan, executedTasks, path)
      ensures forall q :: q in queued ==> cluster.Queueable(id, q)
      ensures queued != {} ==> exists q :: cluster.Queueable(id, q)
      ensures forall t :: t in path ==> cluster.plan.NotOnlyPulledDown(t)
    {
      hide View, Plan.Holdable, Plan.NotOnlyPulledDown, Plan.WellFormed, Graph.WellFormed;
    }

    lemma ComesToStart(start: Task)
      requires cluster.plan.WellFormed() && cluster.Valid() && Mine().claims == map[start := true]
      ensures ComeTo(Some(start))
    {
      hide Lawful, View, RedisAgrees, Plan.NotOnlyPulledDown;
      StartsFreely(cluster.plan, cluster.st, id, start);
    }

    lemma LastInGraph(lastRoot: Option<Task>, path: seq<Task>, ok: bool)
      requires cluster.plan.WellFormed() && cluster.Valid() && executedTasks == Mine().ran
      requires ok ==> CameAlong(cluster.plan, executedTasks, path)
      requires lastRoot.Some? ==> cluster.plan.Downstream(lastRoot.value) == []
      ensures ok && path != [] && lastRoot == Some(path[|path| - 1]) ==>
                lastRoot.value in Mine().ran && cluster.plan.g.Downstream(lastRoot.value) == {}
    {
      hide Lawful, View, Plan.Downstream, RedisAgrees;
      if ok && path != [] && lastRoot == Some(path[|path| - 1]) {
        assert path[|path| - 1] in path;
        FinalInGraph(lastRoot.value);
      }
    }

    lemma FinalInGraph(t: Task)
      requires cluster.plan.WellFormed() && cluster.Valid() && t in Mine().ran && cluster.plan.Downstream(t) == []
      ensures cluster.plan.g.Downstream(t) == {}
    {
      hide Lawful, View, Plan.Downstream;
      FinalHasNoDependents(cluster.plan, cluster.st, id, t);
    }

    lemma ClaimedUncached(t: Task)
      requires cluster.plan.WellFormed() && cluster.Valid() && t in Mine().claims
      ensures t in cluster.plan.g.tasks && t in cluster.plan.g.deps && t !in Mine().cache
    {
      hide Lawful, View, RedisAgrees;
      ClaimedIsUncached(cluster.plan, cluster.st, id, t);
    }
  }
}
