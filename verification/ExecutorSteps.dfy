/** What the parts of an executor do to its own affairs, and how these effects add up.  The
    executor itself is in module TaskExecutors. */
module ExecutorSteps {
  import opened Graphs
  import opened FanIn
  import opened FanInSafety
  import opened LocalViews
  import opened Plans
  import opened Conduct
  import opened Clusters
  import opened Colocation
  import opened Lists

  /** A task that ran and whose out-edges have still to be processed. */
  datatype Unprocessed = Unprocessed(task: Task, value: Value, dataWritten: bool)

  /** An out-edge of a big task, waiting in the delayed queue with the big value. */
  datatype Delayed = Delayed(edge: Edge, value: Value)

  ghost predicate QueueIs(g: Graph, queue: seq<Delayed>, edges: set<Edge>)
    requires g.WellFormed()
  {
    && (forall edge :: edge in edges <==> exists i :: 0 <= i < |queue| && queue[i].edge == edge)
    && (forall i, j :: 0 <= i < j < |queue| ==> queue[i].edge != queue[j].edge)
    && (forall i :: 0 <= i < |queue| ==>
          queue[i].edge.src in g.tasks && queue[i].value == g.Eval(queue[i].edge.src))
  }

  /** t has run: its claim is gone and its out-edges wait. */
  ghost predicate RanOne(g: Graph, v: Local, v': Local, t: Task)
    requires g.WellFormed()
  {
    && t in v.claims && v'.claims == v.claims - {t}
    && v'.waiting == v.waiting + g.OutEdges(t) && g.OutEdges(t) !! v.waiting
    && v'.held == v.held && v'.taken == v.taken
    && t !in v.ran && v'.ran == v.ran + {t} && v'.owing == v.owing && v'.givingUp == v.givingUp
    && v.cache.Keys + {t} <= v'.cache.Keys
  }

  lemma RanAfterReading(g: Graph, v: Local, v': Local, v'': Local, t: Task)
    requires g.WellFormed() && v' == v.(cache := v'.cache) && v.cache.Keys <= v'.cache.Keys && RanOne(g, v', v'', t)
    ensures RanOne(g, v, v'', t)
  {
  }

  /** An input of t is neither stored nor cached. */
  ghost predicate InputMissing(g: Graph, s: State, v: Local, t: Task)
    requires g.WellFormed()
  {
    exists d :: g.HasEdge(d, t) && d !in s.store && d !in v.cache
  }

  lemma MissesInput(g: Graph, s: State, v: Local, d: Task, t: Task)
    requires g.WellFormed() && t in g.tasks && d in g.deps[t] && d !in s.store && d !in v.cache
    ensures InputMissing(g, s, v, t)
  {
    assert g.HasEdge(d, t);
  }

  ghost function EdgesTo(d: Task, ts: set<Task>): set<Edge> { set t | t in ts :: Edge(d, t) }

  ghost function OptSet(t: Option<Task>): set<Task> { if t.Some? then {t.value} else {} }

  /** The tasks `won` have been claimed, and no claim was lost or changed. */
  ghost predicate Gained(v: Local, v': Local, won: set<Task>) {
    && v'.claims.Keys == v.claims.Keys + won && won !! v.claims.Keys
    && (forall t :: t in v.claims ==> v'.claims[t] == v.claims[t])
  }

  /** Only claims and waiting edges differ. */
  ghost predicate SameBut(v: Local, v': Local) {
    v'.held == v.held && v'.taken == v.taken && v'.ran == v.ran && v'.cache == v.cache && v'.owing == v.owing && v'.givingUp == v.givingUp
  }

  /** The edges from d to `dealt` no longer wait, and the tasks `won` among these have been
      claimed; nothing else happened. */
  ghost predicate Swept(v: Local, v': Local, d: Task, dealt: set<Task>, won: set<Task>) {
    && Gained(v, v', won) && won <= dealt
    && v'.waiting == v.waiting - EdgesTo(d, dealt) && SameBut(v, v')
  }

  lemma SweptNothing(v: Local, d: Task)
    ensures Swept(v, v, d, {}, {})
  {
  }

  lemma SweptCounted(v: Local, v': Local, d: Task, dealt: set<Task>, won: set<Task>, t: Task, ready: bool, mobile: bool)
    requires Swept(v, v', d, dealt, won) && t !in v'.claims && Edge(d, t) !in v'.held
    ensures var v'' := Counted(v', Edge(d, t), Granted(ready, t, mobile));
            && Swept(v, v'', d, dealt + {t}, won + if ready then {t} else {})
            && Gained(v', v'', if ready then {t} else {}) && (ready ==> v''.claims[t] == mobile)
            && SameBut(v', v'') && t !in won
  {
    assert EdgesTo(d, dealt + {t}) == EdgesTo(d, dealt) + {Edge(d, t)};
    assert v'.held - {Edge(d, t)} == v'.held;
  }

  /** The i-th of the listed edges still waits when only those before it were dealt with. */
  lemma StillThere(v: Local, v': Local, d: Task, ts: seq<Task>, i: nat, won: set<Task>)
    requires i < |ts| && Distinct(ts) && EdgesTo(d, Elems(ts)) <= v.waiting && v.waiting !! v.held.Keys
    requires Swept(v, v', d, Elems(ts[..i]), won)
    ensures Edge(d, ts[i]) in v'.waiting && Edge(d, ts[i]) !in v'.held
    ensures Elems(ts[..i + 1]) == Elems(ts[..i]) + {ts[i]}
  {
    assert Edge(d, ts[i]) in EdgesTo(d, Elems(ts));
  }

  /** The edges from d to `dealt` have been counted; of the tasks claimed by that, those in
      `toInvoke` are to be invoked and `found` is the one to become. */
  ghost predicate Counting(v: Local, v': Local, d: Task, dealt: seq<Task>, toInvoke: seq<Task>, found: Option<Task>) {
    && Swept(v, v', d, Elems(dealt), Elems(toInvoke) + OptSet(found))
    && Distinct(toInvoke) && OptSet(found) !! Elems(toInvoke)
    && (forall t :: t in toInvoke ==> t in v'.claims && v'.claims[t])
  }

  lemma CountingNothing(v: Local, d: Task, ts: seq<Task>)
    ensures Counting(v, v, d, ts[..0], [], None)
  {
    SweptNothing(v, d);
    assert Elems<Task>([]) + {} == {} && Elems(ts[..0]) == {};
  }

  lemma CountingWaits(v: Local, v': Local, d: Task, ts: seq<Task>, i: nat, toInvoke: seq<Task>, found: Option<Task>)
    requires i < |ts| && Distinct(ts) && EdgesTo(d, Elems(ts)) <= v.waiting && v.waiting !! v.held.Keys
    requires Counting(v, v', d, ts[..i], toInvoke, found)
    ensures Edge(d, ts[i]) in v'.waiting
  {
    StillThere(v, v', d, ts, i, Elems(toInvoke) + OptSet(found));
  }

  lemma CountingStep(v: Local, v': Local, d: Task, ts: seq<Task>, i: nat, toInvoke: seq<Task>, found: Option<Task>,
                     ready: bool, mobile: bool, becomes: bool)
    requires i < |ts| && Distinct(ts) && EdgesTo(d, Elems(ts)) <= v.waiting && v.waiting !! v.held.Keys
    requires Counting(v, v', d, ts[..i], toInvoke, found) && ts[i] !in v'.claims && (becomes ==> found.None?)
    requires ready ==> mobile
    ensures Counting(v, Counted(v', Edge(d, ts[i]), Granted(ready, ts[i], mobile)), d, ts[..i + 1],
                     if ready && !becomes then toInvoke + [ts[i]] else toInvoke,
                     if ready && becomes then Some(ts[i]) else found)
    ensures SameBut(v', Counted(v', Edge(d, ts[i]), Granted(ready, ts[i], mobile)))
  {
    hide Counted, Granted, Swept, Gained;
    var t, won := ts[i], Elems(toInvoke) + OptSet(found);
    var v'' := Counted(v', Edge(d, t), Granted(ready, t, mobile));
    StillThere(v, v', d, ts, i, won);
    SweptCounted(v, v', d, Elems(ts[..i]), won, t, ready, mobile);
    assert won + {} == won && Elems(toInvoke + [t]) == Elems(toInvoke) + {t};
    assert Elems(toInvoke) + {t} + OptSet(found) == won + {t};
    assert becomes ==> Elems(toInvoke) + {t} == won + {t};
    GainedKeeps(v', v'', if ready then {t} else {});
  }

  lemma GainedKeeps(v: Local, v': Local, won: set<Task>)
    requires Gained(v, v', won)
    ensures v.claims.Keys <= v'.claims.Keys && won <= v'.claims.Keys
    ensures forall t :: t in v.claims ==> v'.claims[t] == v.claims[t]
  {
  }

  lemma CountingDone(v: Local, v': Local, d: Task, ts: seq<Task>, toInvoke: seq<Task>, found: Option<Task>)
    requires Counting(v, v', d, ts[..|ts|], toInvoke, found)
    ensures Counting(v, v', d, ts, toInvoke, found)
  {
    assert ts[..|ts|] == ts;
  }

  lemma SweptDelegated(v: Local, v': Local, d: Task, dealt: set<Task>, t: Task)
    requires Swept(v, v', d, dealt, {})
    ensures Swept(v, v'.(waiting := v'.waiting - {Edge(d, t)}), d, dealt + {t}, {})
    ensures SameBut(v', v'.(waiting := v'.waiting - {Edge(d, t)}))
  {
    assert EdgesTo(d, dealt + {t}) == EdgesTo(d, dealt) + {Edge(d, t)};
  }

  /** Counting the edge of a task taken by a peek, after the other edges were dealt with. */
  lemma SweptBooked(v: Local, v': Local, d: Task, dealt: set<Task>, t: Task)
    requires Swept(v, v', d, dealt, {})
    ensures Swept(v.(taken := v.taken - {Edge(d, t)}), v'.(taken := v'.taken - {Edge(d, t)}), d, dealt, {})
  {
  }

  lemma SweptSpares(v: Local, v': Local, d: Task, dealt: set<Task>, t: Task)
    requires Swept(v, v', d, dealt, {}) && t !in dealt
    ensures SameBut(v, v') && v'.claims == v.claims && (Edge(d, t) in v.waiting ==> Edge(d, t) in v'.waiting)
  {
  }

  lemma BecomeIsNoInvoke(plan: Plan, d: Task)
    requires d in plan.become && Distinct(plan.Downstream(d))
    ensures plan.become[d] !in Elems(plan.InvokeOf(d)) && Distinct(plan.InvokeOf(d))
  {
    var ts := plan.Downstream(d);
    assert ts[0] == plan.become[d] && plan.InvokeOf(d) == ts[1..];
  }

  // ---- Running a list of claimed tasks ---------------------------------------

  ghost function EdgesFrom(g: Graph, ds: set<Task>): set<Edge>
    requires g.WellFormed()
  {
    set edge | edge in g.Edges() && edge.src in ds
  }

  lemma EdgesFromOne(g: Graph, ds: set<Task>, d: Task)
    requires g.WellFormed()
    ensures EdgesFrom(g, ds + {d}) == EdgesFrom(g, ds) + g.OutEdges(d)
    ensures EdgesFrom(g, {}) == {}
  {
    assert forall t :: g.HasEdge(d, t) ==> Edge(d, t) in g.Edges();
  }

  ghost function NodesOf(nodes: seq<Unprocessed>): set<Task> { set n | n in nodes :: n.task }

  /** Each node is listed once, with its result, which has not been written. */
  ghost predicate NodesRight(g: Graph, nodes: seq<Unprocessed>)
    requires g.WellFormed()
  {
    && (forall i, j :: 0 <= i < j < |nodes| ==> nodes[i].task != nodes[j].task)
    && (forall n :: n in nodes ==> n.task in g.tasks && n.value == g.Eval(n.task) && !n.dataWritten)
  }

  lemma NodeAdded(g: Graph, nodes: seq<Unprocessed>, n: Unprocessed)
    requires g.WellFormed() && NodesRight(g, nodes) && n.task !in NodesOf(nodes)
    requires n.task in g.tasks && n.value == g.Eval(n.task) && !n.dataWritten
    ensures NodesRight(g, nodes + [n]) && NodesOf(nodes + [n]) == NodesOf(nodes) + {n.task}
  {
    forall i | 0 <= i < |nodes| ensures nodes[i].task != n.task { assert nodes[i] in nodes; }
    forall t | t in NodesOf(nodes) + {n.task} ensures t in NodesOf(nodes + [n]) {
      if t == n.task {
        assert n in nodes + [n];
      } else {
        var m :| m in nodes && m.task == t;
        assert m in nodes + [n];
      }
    }
  }

  /** The claimed tasks ts have run: each once, each claim used up. */
  ghost predicate RanAll(g: Graph, v: Local, v': Local, ts: set<Task>)
    requires g.WellFormed()
  {
    && ts <= v.claims.Keys && v'.claims == v.claims - ts
    && v'.waiting == v.waiting + EdgesFrom(g, ts) && EdgesFrom(g, ts) !! v.waiting
    && v'.held == v.held && v'.taken == v.taken && v'.owing == v.owing && v'.givingUp == v.givingUp
    && ts !! v.ran && v'.ran == v.ran + ts && v.cache.Keys + ts <= v'.cache.Keys
  }

  lemma RanNone(g: Graph, v: Local)
    requires g.WellFormed()
    ensures RanAll(g, v, v, {})
  {
    assert v.claims - {} == v.claims;
  }

  lemma RanOneMore(g: Graph, v: Local, v': Local, v'': Local, ts: set<Task>, t: Task)
    requires g.WellFormed() && RanAll(g, v, v', ts) && RanOne(g, v', v'', t)
    ensures RanAll(g, v, v'', ts + {t}) && t !in ts
  {
    EdgesFromOne(g, ts, t);
    hide EdgesFrom, Graph.OutEdges;
    assert v.claims - ts - {t} == v.claims - (ts + {t});
  }

  lemma NoNodes(g: Graph)
    requires g.WellFormed()
    ensures NodesRight(g, []) && NodesOf([]) == {} && Elems<Task>([]) == {}
  {
  }

  /** A failure is not forgotten. */
  lemma FailureStays(e: Exec, s: State, s': State)
    requires HasFailed(s, e) && NothingLost(s, s')
    ensures HasFailed(s', e)
  {
  }

  lemma NextOf(ts: seq<Task>, i: nat)
    requires i < |ts| && Distinct(ts)
    ensures Elems(ts[i..]) == {ts[i]} + Elems(ts[i + 1..]) && ts[i] !in Elems(ts[i + 1..]) && ts[i] !in ts[..i]
    ensures Elems(ts[..i + 1]) == Elems(ts[..i]) + {ts[i]}
  {
    assert ts[i..] == [ts[i]] + ts[i + 1..];
  }

  /** However its run ended, the claim of t is gone, and no other. */
  lemma ClaimsAfter(g: Graph, v: Local, v': Local, t: Task, ran: bool, cache: map<Task, Value>)
    requires g.WellFormed()
    requires if ran then RanOne(g, v, v', t) else v' == v.(claims := v.claims - {t}, cache := cache)
    ensures v'.claims == v.claims - {t} && v'.owing == v.owing && v'.givingUp == v.givingUp && v.ran <= v'.ran
  {
  }

  lemma RanContains(g: Graph, v: Local, v': Local, t: Task)
    requires g.WellFormed() && RanOne(g, v, v', t)
    ensures t in v'.ran
  {
  }

  /** What process_small leaves behind, with and without a proxy. */
  ghost predicate SmallDone(plan: Plan, v: Local, v': Local, d: Task, becomeIsReady: bool, needsBecome: bool,
                            outEdges: seq<Task>, toInvoke: seq<Task>, become: Option<Task>)
    requires d in plan.become
  {
    var b, rest := plan.become[d], Elems(plan.InvokeOf(d));
    && (!needsBecome ==> become == None)
    && if d !in plan.proxied then
         && Counting(v, v', d, outEdges, toInvoke, if becomeIsReady then None else become)
         && (needsBecome && becomeIsReady ==> become == Some(b))
       else
         && toInvoke == []
         && if !needsBecome then
              Swept(v, v', d, rest + {b}, {})
            else if becomeIsReady then
              become == Some(b) && Swept(v.(taken := v.taken - {Edge(d, b)}), v', d, rest, {})
            else
              OptSet(become) <= {b} && Swept(v, v', d, rest + {b}, OptSet(become))
  }

  lemma DownstreamElems(plan: Plan, d: Task)
    requires d in plan.become
    ensures Elems(plan.Downstream(d)) == Elems(plan.InvokeOf(d)) + {plan.become[d]}
    ensures EdgesTo(d, Elems(plan.Downstream(d))) == EdgesTo(d, Elems(plan.InvokeOf(d))) + {Edge(d, plan.become[d])}
  {
    var b, ts := plan.become[d], plan.InvokeOf(d);
    assert plan.Downstream(d) == [b] + ts;
    assert Elems([b] + ts) == Elems(ts) + {b};
  }

  // ---- The out-edges of a big task -------------------------------------------

  /** One out-edge of a big task has been dealt with: its target claimed, the edge put into
      the delayed queue, or neither. */
  ghost predicate Dealt(v: Local, v': Local, edge: Edge, ready: bool, parked: bool) {
    && Gained(v, v', if ready then {edge.dst} else {}) && !(ready && parked)
    && v'.waiting == v.waiting - {edge}
    && v'.held.Keys == v.held.Keys + (if parked then {edge} else {})
    && v'.taken == v.taken && v'.ran == v.ran && v'.cache == v.cache && v'.owing == v.owing && v'.givingUp == v.givingUp
  }

  /** The edge's target has been claimed by a peek, and the edge counted afterwards. */
  ghost function TakenFor(v: Local, edge: Edge): Local {
    v.(claims := v.claims[edge.dst := false], waiting := v.waiting - {edge}, held := v.held - {edge})
  }

  lemma DealtByPeek(v: Local, edge: Edge)
    requires edge.dst !in v.claims && edge !in v.held
    ensures Dealt(v, TakenFor(v, edge), edge, true, false) && TakenFor(v, edge).held == v.held
  {
    assert v.held - {edge} == v.held;
  }

  lemma DealtByHold(v: Local, edge: Edge, value: Value)
    ensures Dealt(v, v.(waiting := v.waiting - {edge}, held := v.held[edge := value]), edge, false, true)
  {
  }

  lemma DealtByCount(v: Local, edge: Edge, ready: bool, mobile: bool)
    requires edge.dst !in v.claims && edge !in v.held
    ensures var v' := Counted(v, edge, Granted(ready, edge.dst, mobile));
            Dealt(v, v', edge, ready, false) && v'.held == v.held && v'.ran == v.ran && v'.cache == v.cache
  {
    assert v.held - {edge} == v.held;
  }

  /** The edges from d to `dealt` have been dealt with: the tasks `pulled` claimed, the edges
      to `parked` put into the delayed queue, the others counted. */
  ghost predicate SweptBig(v: Local, v': Local, d: Task, dealt: set<Task>, pulled: set<Task>, parked: set<Task>) {
    && Gained(v, v', pulled) && pulled <= dealt && parked <= dealt && pulled !! parked
    && v'.waiting == v.waiting - EdgesTo(d, dealt)
    && v'.held.Keys == v.held.Keys + EdgesTo(d, parked)
    && v'.taken == v.taken && v'.ran == v.ran && v'.cache == v.cache && v'.owing == v.owing && v'.givingUp == v.givingUp
  }

  lemma SweptBigNothing(v: Local, d: Task)
    ensures SweptBig(v, v, d, {}, {}, {})
  {
  }

  lemma EdgesToMore(d: Task, ts: set<Task>, t: Task)
    ensures EdgesTo(d, ts + {t}) == EdgesTo(d, ts) + {Edge(d, t)}
  {
  }

  lemma SweptBigMore(v: Local, v': Local, v'': Local, d: Task, dealt: set<Task>, pulled: set<Task>, parked: set<Task>,
                     t: Task, ready: bool, held: bool)
    requires SweptBig(v, v', d, dealt, pulled, parked) && Dealt(v', v'', Edge(d, t), ready, held) && t !in dealt
    ensures SweptBig(v, v'', d, dealt + {t}, pulled + (if ready then {t} else {}), parked + (if held then {t} else {}))
  {
    EdgesToMore(d, dealt, t);
    EdgesToMore(d, parked, t);
  }

  lemma SweptBigWaits(v: Local, v': Local, d: Task, ts: seq<Task>, i: nat, pulled: set<Task>, parked: set<Task>)
    requires i < |ts| && Distinct(ts) && EdgesTo(d, Elems(ts)) <= v.waiting
    requires SweptBig(v, v', d, Elems(ts[..i]), pulled, parked)
    ensures Edge(d, ts[i]) in v'.waiting && v'.ran == v.ran && ts[i] !in pulled && ts[i] !in Elems(ts[..i])
    ensures Elems(ts[..i + 1]) == Elems(ts[..i]) + {ts[i]}
  {
    assert Edge(d, ts[i]) in EdgesTo(d, Elems(ts));
  }

  /** Of the dealt-with targets that were not claimed, exactly those that may use the delayed
      queue have their edge there; if any other is left, the big value has been stored. */
  ghost predicate Placed(plan: Plan, d: Task, dealt: set<Task>, pulled: set<Task>, parked: set<Task>, stored: bool) {
    && (forall t :: t in parked <==> t in dealt && t !in pulled && plan.Holdable(d, t))
    && (dealt <= pulled + parked || stored)
  }

  lemma PlacedMore(plan: Plan, d: Task, dealt: set<Task>, pulled: set<Task>, parked: set<Task>,
                   stored: bool, t: Task, ready: bool, held: bool, stored': bool)
    requires Placed(plan, d, dealt, pulled, parked, stored) && t !in dealt + pulled && (stored ==> stored')
    requires !ready && !held ==> stored'
    requires held <==> !ready && plan.Holdable(d, t)
    ensures Placed(plan, d, dealt + {t}, pulled + (if ready then {t} else {}),
                   parked + (if held then {t} else {}), stored')
  {
  }

  lemma PlacedNothing(plan: Plan, d: Task, stored: bool)
    ensures Placed(plan, d, {}, {}, {}, stored)
  {
  }

  lemma PlacedMoreStored(plan: Plan, d: Task, dealt: set<Task>, pulled: set<Task>, parked: set<Task>,
                         stored: bool, stored': bool)
    requires Placed(plan, d, dealt, pulled, parked, stored) && (stored ==> stored')
    ensures Placed(plan, d, dealt, pulled, parked, stored')
  {
  }

  lemma SweptBigWins(v: Local, v': Local, d: Task, dealt: set<Task>, pulled: set<Task>, parked: set<Task>)
    requires SweptBig(v, v', d, dealt, pulled, parked)
    ensures pulled <= v'.claims.Keys
  {
  }

  /** What process_big leaves behind: the claims are as before, the tasks pulled down have
      run, and their out-edges wait instead of d's. */
  ghost predicate BigDone(g: Graph, v: Local, v': Local, d: Task, dealt: set<Task>, pulled: set<Task>, parked: set<Task>)
    requires g.WellFormed()
  {
    && v'.claims == v.claims && pulled <= dealt && parked <= dealt && pulled !! parked
    && v'.waiting == v.waiting - EdgesTo(d, dealt) + EdgesFrom(g, pulled)
    && v'.held.Keys == v.held.Keys + EdgesTo(d, parked)
    && v'.taken == v.taken && pulled !! v.ran && v'.ran == v.ran + pulled && v'.owing == v.owing && v'.givingUp == v.givingUp
  }

  lemma SweptThenRan(g: Graph, v: Local, v': Local, v'': Local, d: Task, dealt: set<Task>, pulled: set<Task>, parked: set<Task>)
    requires g.WellFormed() && SweptBig(v, v', d, dealt, pulled, parked) && RanAll(g, v', v'', pulled)
    ensures BigDone(g, v, v'', d, dealt, pulled, parked)
  {
    hide EdgesFrom, EdgesTo;
    assert v'.claims - pulled == v.claims;
  }

  // ---- The out-edges of any task ---------------------------------------------

  /** Every claim that the out-edges of d brought is now either the task to become, or has
      been run here (`pulled`) or handed to a new Lambda; none is lost and none is left over. */
  ghost predicate OutEdgesDone(plan: Plan, v: Local, v': Local, d: Task, needsBecome: bool, become: Option<Task>,
                               pulled: set<Task>)
    requires plan.g.WellFormed()
  {
    && Gained(v, v', OptSet(become)) && OptSet(become) <= Elems(plan.Downstream(d)) && (become.Some? ==> needsBecome)
    && pulled !! v.ran && v'.ran == v.ran + pulled && pulled <= Elems(plan.Downstream(d))
    && v'.waiting == v.waiting - EdgesTo(d, Elems(plan.Downstream(d))) + EdgesFrom(plan.g, pulled)
    && v.held.Keys <= v'.held.Keys <= v.held.Keys + EdgesTo(d, Elems(plan.Downstream(d)))
    && v.taken <= v'.taken <= v.taken + EdgesTo(d, OptSet(become)) && v'.owing == v.owing && v'.givingUp == v.givingUp
  }

  /** What invoking and evicting do after process_small. */
  ghost function Dispatched(v: Local, toInvoke: seq<Task>, cache: map<Task, Value>): Local {
    v.(claims := v.claims - Elems(toInvoke), cache := cache)
  }

  /** From v to v', the edges `gone` stopped waiting, the tasks `won` were claimed, and of
      these edges at most `took` stay uncounted. */
  ghost predicate Net(v: Local, v': Local, gone: set<Edge>, won: set<Task>, took: set<Edge>) {
    && Gained(v, v', won) && v'.waiting == v.waiting - gone && v'.held == v.held && v'.ran == v.ran
    && v'.owing == v.owing && v'.givingUp == v.givingUp && v.taken <= v'.taken <= v.taken + took
  }

  lemma NetCompose(v: Local, v': Local, v'': Local, gone: set<Edge>, won: set<Task>, took: set<Edge>,
                   gone': set<Edge>, won': set<Task>)
    requires Net(v, v', gone, won, took) && Net(v', v'', gone', won', {})
    ensures Net(v, v'', gone + gone', won + won', took) && won !! won'
  {
  }

  lemma NetSwept(v: Local, v': Local, d: Task, dealt: set<Task>, won: set<Task>)
    requires Swept(v, v', d, dealt, won)
    ensures Net(v, v', EdgesTo(d, dealt), won, {})
  {
  }

  lemma NetTook(v: Local, edge: Edge)
    requires edge in v.waiting && edge !in v.held && edge.dst !in v.claims
    ensures Net(v, Took(v, edge), {edge}, {edge.dst}, {edge})
    ensures edge !in v.taken ==> Net(v, Took(v, edge).(taken := Took(v, edge).taken - {edge}), {edge}, {edge.dst}, {})
  {
    assert v.held - {edge} == v.held;
  }

  lemma NetDispatched(plan: Plan, v: Local, v': Local, d: Task, needsBecome: bool, become: Option<Task>, toInvoke: seq<Task>,
                      gone: set<Edge>, won: set<Task>, cache: map<Task, Value>)
    requires plan.g.WellFormed() && Net(v, v', gone, won, EdgesTo(d, OptSet(become)))
    requires won == OptSet(become) + Elems(toInvoke) && OptSet(become) !! Elems(toInvoke)
    requires gone == EdgesTo(d, Elems(plan.Downstream(d)))
    requires EdgesTo(d, Elems(plan.Downstream(d))) <= v.waiting
    requires OptSet(become) <= Elems(plan.Downstream(d)) && (become.Some? ==> needsBecome)
    ensures OutEdgesDone(plan, v, Dispatched(v', toInvoke, cache), d, needsBecome, become, {})
  {
    hide EdgesTo, Plan.Downstream, Graph.WellFormed;
    EdgesFromOne(plan.g, {}, d);
    hide EdgesFrom;
  }

  /** Without a proxy, process_small, dispatch and eviction together. */
  lemma DirectDone(plan: Plan, v: Local, v1: Local, v2: Local, d: Task, needsBecome: bool, ready: bool,
                   outEdges: seq<Task>, toInvoke: seq<Task>, become: Option<Task>, cache: map<Task, Value>)
    requires plan.g.WellFormed() && d in plan.become && d !in plan.proxied && v.waiting !! v.held.Keys
    requires EdgesTo(d, Elems(plan.Downstream(d))) <= v.waiting && (!needsBecome ==> ready)
    requires var b := plan.become[d];
             if needsBecome && ready then
               outEdges == plan.InvokeOf(d) && v1 == Took(v, Edge(d, b)) && b !in v.claims
             else
               outEdges == plan.Downstream(d) && v1 == v
    requires SmallDone(plan, v1, v2, d, ready, needsBecome, outEdges, toInvoke, become)
    ensures OutEdgesDone(plan, v, Dispatched(v2, toInvoke, cache), d, needsBecome, become, {})
  {
    hide Net, Gained, Took, Dispatched, OutEdgesDone, Plan.Downstream, Graph.WellFormed, Distinct, Swept;
    var b := plan.become[d];
    DownstreamElems(plan, d);
    var found := if ready then None else become;
    var won := Elems(toInvoke) + OptSet(found);
    SweptWithin(v1, v2, d, Elems(outEdges), won);
    NetSwept(v1, v2, d, Elems(outEdges), won);
    var gone := EdgesTo(d, Elems(plan.Downstream(d)));
    if needsBecome && ready {
      NetTook(v, Edge(d, b));
      NetCompose(v, v1, v2, {Edge(d, b)}, {b}, {Edge(d, b)}, EdgesTo(d, Elems(outEdges)), won);
      assert {Edge(d, b)} + EdgesTo(d, Elems(outEdges)) == gone;
      assert EdgesTo(d, OptSet(become)) == {Edge(d, b)};
      assert {b} + won == OptSet(become) + Elems(toInvoke);
      NetDispatched(plan, v, v2, d, needsBecome, become, toInvoke, gone, {b} + won, cache);
    } else {
      assert won == OptSet(become) + Elems(toInvoke);
      NetWiden(v, v2, gone, won, EdgesTo(d, OptSet(become)));
      NetDispatched(plan, v, v2, d, needsBecome, become, toInvoke, gone, won, cache);
    }
  }

  /** With a proxy. */
  lemma ProxiedDone(plan: Plan, v: Local, v1: Local, v2: Local, d: Task, needsBecome: bool, ready: bool,
                    outEdges: seq<Task>, become: Option<Task>, cache: map<Task, Value>)
    requires plan.g.WellFormed() && d in plan.become && d in plan.proxied && d !in plan.big && v.waiting !! v.held.Keys
    requires EdgesTo(d, Elems(plan.Downstream(d))) <= v.waiting && (!needsBecome ==> ready)
    requires plan.become[d] !in Elems(plan.InvokeOf(d)) && v.waiting !! v.taken
    requires var b := plan.become[d];
             if needsBecome && ready then v1 == Took(v, Edge(d, b)) && b !in v.claims else v1 == v
    requires SmallDone(plan, v1, v2, d, ready, needsBecome, outEdges, [], become)
    ensures OutEdgesDone(plan, v, Dispatched(v2, [], cache), d, needsBecome, become, {})
  {
    hide Net, Gained, Took, Dispatched, OutEdgesDone, Plan.Downstream, Graph.WellFormed, Distinct, Swept, EdgesTo;
    var b, rest := plan.become[d], Elems(plan.InvokeOf(d));
    var edge := Edge(d, b);
    DownstreamElems(plan, d);
    EdgesToOne(d, rest, b);
    if needsBecome && ready {
      var v1' := v1.(taken := v1.taken - {edge});
      NetTook(v, edge);
      NetSwept(v1', v2, d, rest, {});
      NetCompose(v, v1', v2, {edge}, {b}, {}, EdgesTo(d, rest), {});
      ProxiedNet(plan, v, v2, d, needsBecome, become, {edge} + EdgesTo(d, rest), {b} + {}, cache);
    } else if needsBecome {
      NetSwept(v, v2, d, rest + {b}, OptSet(become));
      ProxiedNet(plan, v, v2, d, needsBecome, become, EdgesTo(d, rest + {b}), OptSet(become), cache);
    } else {
      NetSwept(v, v2, d, rest + {b}, {});
      ProxiedNet(plan, v, v2, d, needsBecome, become, EdgesTo(d, rest + {b}), {}, cache);
    }
  }

  lemma ProxiedNet(plan: Plan, v: Local, v2: Local, d: Task, needsBecome: bool, become: Option<Task>,
                   gone: set<Edge>, won: set<Task>, cache: map<Task, Value>)
    requires plan.g.WellFormed() && Net(v, v2, gone, won, {}) && won == OptSet(become)
    requires gone == EdgesTo(d, Elems(plan.Downstream(d)))
    requires EdgesTo(d, Elems(plan.Downstream(d))) <= v.waiting
    requires OptSet(become) <= Elems(plan.Downstream(d)) && (become.Some? ==> needsBecome)
    ensures OutEdgesDone(plan, v, Dispatched(v2, [], cache), d, needsBecome, become, {})
  {
    hide Net, Gained, Dispatched, OutEdgesDone, Plan.Downstream, Graph.WellFormed, EdgesTo;
    assert Elems<Task>([]) == {} && won + {} == won;
    NetWiden(v, v2, gone, won, EdgesTo(d, OptSet(become)));
    NetDispatched(plan, v, v2, d, needsBecome, become, [], gone, won, cache);
  }

  lemma EdgesToOne(d: Task, ts: set<Task>, t: Task)
    ensures EdgesTo(d, ts + {t}) == EdgesTo(d, ts) + {Edge(d, t)}
    ensures t !in ts ==> Edge(d, t) !in EdgesTo(d, ts)
  {
  }

  lemma TookFrame(v: Local, edge: Edge)
    requires edge !in v.held
    ensures var v' := Took(v, edge);
            && v'.held == v.held && v'.ran == v.ran && v'.cache == v.cache && v'.waiting == v.waiting - {edge}
            && edge in v'.taken && v.claims.Keys <= v'.claims.Keys
  {
    assert v.held - {edge} == v.held;
  }

  lemma InvokableAfter(plan: Plan, v: Local, v': Local, d: Task, ready: bool, needsBecome: bool,
                       outEdges: seq<Task>, toInvoke: seq<Task>, become: Option<Task>)
    requires d in plan.become && SmallDone(plan, v, v', d, ready, needsBecome, outEdges, toInvoke, become)
    ensures Distinct(toInvoke) && forall t :: t in toInvoke ==> t in v'.claims && v'.claims[t]
    ensures v'.ran == v.ran && (d in plan.proxied ==> toInvoke == [])
  {
  }

  lemma SweptWithin(v: Local, v': Local, d: Task, dealt: set<Task>, won: set<Task>)
    requires Swept(v, v', d, dealt, won)
    ensures won <= dealt
  {
  }

  lemma NetWiden(v: Local, v': Local, gone: set<Edge>, won: set<Task>, took: set<Edge>)
    requires Net(v, v', gone, won, {})
    ensures Net(v, v', gone, won, took)
  {
  }

  lemma BigThenDone(plan: Plan, v: Local, v': Local, d: Task, needsBecome: bool, pulled: set<Task>, parked: set<Task>,
                    cache: map<Task, Value>)
    requires plan.g.WellFormed() && d in plan.big
    requires BigDone(plan.g, v, v', d, Elems(plan.Downstream(d)), pulled, parked)
    ensures OutEdgesDone(plan, v, Dispatched(v', [], cache), d, needsBecome, None, pulled)
  {
    hide EdgesFrom, Plan.Downstream;
    assert Elems<Task>([]) == {} && v'.claims - {} == v'.claims;
  }

  lemma QueueAppend(g: Graph, queue: seq<Delayed>, edges: set<Edge>, x: Delayed)
    requires g.WellFormed() && QueueIs(g, queue, edges) && x.edge !in edges
    requires x.edge.src in g.tasks && x.value == g.Eval(x.edge.src)
    ensures QueueIs(g, queue + [x], edges + {x.edge})
  {
    var queue' := queue + [x];
    forall edge | edge in edges + {x.edge} ensures exists i :: 0 <= i < |queue'| && queue'[i].edge == edge {
      if edge in edges {
        var i :| 0 <= i < |queue| && queue[i].edge == edge;
        assert queue'[i].edge == edge;
      } else {
        assert queue'[|queue|].edge == edge;
      }
    }
  }

  lemma PhasesApart(g: Graph, s: State, e: Exec)
    requires g.WellFormed()
    ensures var v := View(g, s, e); v.waiting !! v.held.Keys && v.waiting !! v.taken && v.held.Keys !! v.taken
  {
  }

  lemma HeldFromBig(plan: Plan, s: State, e: Exec)
    requires plan.WellFormed() && Lawful(plan, s)
    ensures forall edge :: edge in View(plan.g, s, e).held ==>
              && edge.src in plan.big && edge.src in View(plan.g, s, e).ran
              && plan.g.HasEdge(edge.src, edge.dst) && plan.Holdable(edge.src, edge.dst)
  {
    hide Lawful, View, ProxyInPlace, EndedInOrder, Plan.ListsOutEdges, Plan.AssignsBits;
    LawfulLawInv(plan, s);
    forall edge | edge in View(plan.g, s, e).held
      ensures edge.src in plan.big && edge.src in View(plan.g, s, e).ran
      ensures plan.g.HasEdge(edge.src, edge.dst) && plan.Holdable(edge.src, edge.dst)
    {
      InView(plan.g, s, e, edge.src, edge.dst);
      assert edge == Edge(edge.src, edge.dst);
    }
  }

  /** What is in the store is what its task means. */
  lemma StoredIsRight(plan: Plan, s: State)
    requires plan.g.WellFormed() && Lawful(plan, s)
    ensures forall t :: t in s.store ==> t in plan.g.tasks && s.store[t] == plan.g.Eval(t)
  {
    hide Lawful, Discipline, WithinReach, Graph.Eval;
    LawfulInv(plan, s);
    assert Supply(plan.g, s);
    forall t | t in s.store ensures t in plan.g.tasks && s.store[t] == plan.g.Eval(t) {
      assert StoreRight(plan.g, s, t);
    }
  }

  /** A claimed task is a task of the graph and is in no cache. */
  lemma ClaimedIsUncached(plan: Plan, s: State, e: Exec, t: Task)
    requires plan.WellFormed() && Lawful(plan, s) && t in View(plan.g, s, e).claims
    ensures t in plan.g.tasks && t !in View(plan.g, s, e).cache
  {
    hide Lawful, WithinReach, View, EdgesFollowRuns, TakenIsLast, ClaimedWhenDue, Plan.ListsOutEdges, Plan.AssignsBits;
    LawfulInv(plan, s);
    ClaimInView(plan.g, s, e, t);
    CacheInView(plan.g, s, e);
    assert CacheRight(plan.g, s, e, t);
  }

  // ---- The delayed queue -----------------------------------------------------

  /** At some moment between before and after, a check without counting said no for the edge. */
  ghost predicate SaidNo(plan: Plan, e: Exec, before: State, after: State, edge: Edge)
    requires plan.WellFormed()
  {
    && plan.g.HasEdge(edge.src, edge.dst)
    && exists mid :: Onward(plan.g, e, before, mid) && Onward(plan.g, e, mid, after)
                     && !LooksReady(plan, mid, edge.src, edge.dst)
  }

  lemma SaidNoNow(plan: Plan, e: Exec, before: State, s: State, edge: Edge)
    requires plan.WellFormed() && plan.g.HasEdge(edge.src, edge.dst) && Onward(plan.g, e, before, s)
    requires !LooksReady(plan, s, edge.src, edge.dst)
    ensures SaidNo(plan, e, before, s, edge)
  {
    StandingStill(plan.g, e, s);
    hide Onward, LooksReady, Graph.WellFormed, View;
  }

  /** It stays true that it said no. */
  lemma SaidNoBefore(plan: Plan, e: Exec, before: State, s: State, after: State, edge: Edge)
    requires plan.WellFormed() && SaidNo(plan, e, before, s, edge) && Onward(plan.g, e, s, after)
    ensures SaidNo(plan, e, before, after, edge)
  {
    hide Onward, LooksReady, Graph.WellFormed;
    var mid :| Onward(plan.g, e, before, mid) && Onward(plan.g, e, mid, s) && !LooksReady(plan, mid, edge.src, edge.dst);
    OnwardCompose(plan.g, e, mid, s, after);
  }

  lemma SaidNoFrom(plan: Plan, e: Exec, before: State, s: State, after: State, edge: Edge)
    requires plan.WellFormed() && SaidNo(plan, e, s, after, edge) && Onward(plan.g, e, before, s)
    ensures SaidNo(plan, e, before, after, edge)
  {
    hide Onward, LooksReady, Graph.WellFormed;
    var mid :| Onward(plan.g, e, s, mid) && Onward(plan.g, e, mid, after) && !LooksReady(plan, mid, edge.src, edge.dst);
    OnwardCompose(plan.g, e, before, s, mid);
  }

  /** The check said no for each of these edges. */
  ghost predicate SaidNoToAll(plan: Plan, e: Exec, before: State, after: State, edges: set<Edge>)
    requires plan.WellFormed()
  {
    forall edge :: edge in edges ==> SaidNo(plan, e, before, after, edge)
  }

  lemma SaidNoToMore(plan: Plan, e: Exec, before: State, s: State, after: State, edges: set<Edge>, more: set<Edge>)
    requires plan.WellFormed() && SaidNoToAll(plan, e, before, s, edges)
    requires Onward(plan.g, e, before, s) && Onward(plan.g, e, s, after)
    requires SaidNoToAll(plan, e, s, after, more)
    ensures SaidNoToAll(plan, e, before, after, edges + more)
  {
    hide SaidNo, Onward, Plan.WellFormed;
    forall edge | edge in edges + more ensures SaidNo(plan, e, before, after, edge) {
      if edge in edges {
        SaidNoBefore(plan, e, before, s, after, edge);
      } else {
        SaidNoFrom(plan, e, before, s, after, edge);
      }
    }
  }

  lemma SaidNoLater(plan: Plan, e: Exec, before: State, s: State, after: State, edges: set<Edge>)
    requires plan.WellFormed() && SaidNoToAll(plan, e, before, s, edges) && Onward(plan.g, e, s, after)
    ensures SaidNoToAll(plan, e, before, after, edges)
  {
    hide SaidNo, Onward, Plan.WellFormed;
    forall edge | edge in edges ensures SaidNo(plan, e, before, after, edge) {
      SaidNoBefore(plan, e, before, s, after, edge);
    }
  }

  lemma SaidNoToParked(plan: Plan, e: Exec, before: State, s: State, after: State, d: Task,
                       parked: set<Task>, t: Task, held: bool)
    requires plan.WellFormed() && SaidNoToAll(plan, e, before, s, EdgesTo(d, parked))
    requires Onward(plan.g, e, before, s) && Onward(plan.g, e, s, after)
    requires held ==> SaidNo(plan, e, s, after, Edge(d, t))
    ensures SaidNoToAll(plan, e, before, after, EdgesTo(d, if held then parked + {t} else parked))
  {
    EdgesToMore(d, parked, t);
    hide SaidNo, Onward, Plan.WellFormed, EdgesTo;
    SaidNoToMore(plan, e, before, s, after, EdgesTo(d, parked), if held then {Edge(d, t)} else {});
    assert EdgesTo(d, parked) + {} == EdgesTo(d, parked);
  }

  /** What SweepBig knows after dealing with the edges from d to `dealt`. */
  ghost predicate SweptSoFar(plan: Plan, e: Exec, before: State, s: State, d: Task,
                             dealt: set<Task>, pulled: set<Task>, parked: set<Task>)
    requires plan.WellFormed()
  {
    && SweptBig(View(plan.g, before, e), View(plan.g, s, e), d, dealt, pulled, parked)
    && Placed(plan, d, dealt, pulled, parked, d in s.store)
    && SaidNoToAll(plan, e, before, s, EdgesTo(d, parked))
  }

  lemma SweptNothingSoFar(plan: Plan, e: Exec, before: State, d: Task)
    requires plan.WellFormed()
    ensures SweptSoFar(plan, e, before, before, d, {}, {}, {})
  {
    hide View, SweptBig, Placed, SaidNo;
    SweptBigNothing(View(plan.g, before, e), d);
    PlacedNothing(plan, d, d in before.store);
    assert EdgesTo(d, {}) == {};
  }

  lemma SoFarWaits(plan: Plan, e: Exec, before: State, s: State, d: Task,
                   ts: seq<Task>, i: nat, pulled: set<Task>, parked: set<Task>)
    requires plan.WellFormed() && i < |ts| && Distinct(ts) && EdgesTo(d, Elems(ts)) <= View(plan.g, before, e).waiting
    requires SweptSoFar(plan, e, before, s, d, Elems(ts[..i]), pulled, parked)
    ensures Edge(d, ts[i]) in View(plan.g, s, e).waiting && ts[i] !in pulled && ts[i] !in Elems(ts[..i])
    ensures Elems(ts[..i + 1]) == Elems(ts[..i]) + {ts[i]} && View(plan.g, s, e).ran == View(plan.g, before, e).ran
  {
    hide View, Placed, SaidNoToAll, SweptBig, Distinct, Elems, EdgesTo;
    SweptBigWaits(View(plan.g, before, e), View(plan.g, s, e), d, ts, i, pulled, parked);
  }

  lemma SweptMoreSoFar(plan: Plan, e: Exec, before: State, s: State, after: State, d: Task,
                       dealt: set<Task>, pulled: set<Task>, parked: set<Task>, t: Task, ready: bool, held: bool)
    requires plan.WellFormed() && SweptSoFar(plan, e, before, s, d, dealt, pulled, parked)
    requires Onward(plan.g, e, before, s) && Onward(plan.g, e, s, after) && t !in dealt + pulled
    requires Dealt(View(plan.g, s, e), View(plan.g, after, e), Edge(d, t), ready, held)
    requires !ready && !held ==> d in after.store
    requires held <==> !ready && plan.Holdable(d, t)
    requires !ready ==> SaidNo(plan, e, s, after, Edge(d, t))
    ensures SweptSoFar(plan, e, before, after, d, dealt + {t},
                       pulled + (if ready then {t} else {}), parked + (if held then {t} else {}))
  {
    assert d in s.store ==> d in after.store by { hide View, Dealt, SweptSoFar, SaidNo; }
    hide View, Dealt, SweptBig, Placed, SaidNo, SaidNoToAll, Onward, EdgesTo, Plan.WellFormed;
    SweptBigMore(View(plan.g, before, e), View(plan.g, s, e), View(plan.g, after, e), d, dealt, pulled, parked, t, ready, held);
    PlacedMore(plan, d, dealt, pulled, parked, d in s.store, t, ready, held, d in after.store);
    SaidNoToParked(plan, e, before, s, after, d, parked, t, held);
    assert parked + {} == parked;
  }

  lemma AllSwept(plan: Plan, e: Exec, before: State, s: State, d: Task,
                 dealt: set<Task>, pulled: set<Task>, parked: set<Task>)
    requires plan.WellFormed() && SweptSoFar(plan, e, before, s, d, dealt, pulled, parked)
    ensures SweptBig(View(plan.g, before, e), View(plan.g, s, e), d, dealt, pulled, parked)
    ensures Placed(plan, d, dealt, pulled, parked, d in s.store)
    ensures SaidNoToAll(plan, e, before, s, EdgesTo(d, parked))
  {
    hide View, SweptBig, Placed, SaidNoToAll;
  }

  // ---- What goes along with an invocation ------------------------------------

  /** In bytes. */
  const MAX_INVOCATION := 256000

  ghost function TotalSize(size: Value -> nat, data: map<Task, Value>, ks: set<Task>): nat
    requires ks <= data.Keys
  {
    if ks == {} then 0 else var k :| k in ks; size(data[k]) + TotalSize(size, data, ks - {k})
  }

  lemma {:induction false} TotalSizeAny(size: Value -> nat, data: map<Task, Value>, ks: set<Task>, k: Task)
    requires ks <= data.Keys && k in ks
    ensures TotalSize(size, data, ks) == size(data[k]) + TotalSize(size, data, ks - {k})
    decreases |ks|
  {
    var k' :| k' in ks && TotalSize(size, data, ks) == size(data[k']) + TotalSize(size, data, ks - {k'});
    if k' != k {
      TotalSizeAny(size, data, ks - {k'}, k);
      TotalSizeAny(size, data, ks - {k}, k');
      assert ks - {k'} - {k} == ks - {k} - {k'};
    }
  }

  lemma NoData(size: Value -> nat)
    ensures TotalSize(size, map[], {}) == 0
  {
  }

  lemma {:induction false} SameSize(size: Value -> nat, data: map<Task, Value>, data': map<Task, Value>, ks: set<Task>)
    requires ks <= data.Keys && ks <= data'.Keys && forall k :: k in ks ==> data'[k] == data[k]
    ensures TotalSize(size, data', ks) == TotalSize(size, data, ks)
    decreases |ks|
  {
    if k :| k in ks {
      TotalSizeAny(size, data, ks, k);
      TotalSizeAny(size, data', ks, k);
      SameSize(size, data, data', ks - {k});
    }
  }

  lemma MoreData(size: Value -> nat, data: map<Task, Value>, k: Task, v: Value)
    requires k !in data
    ensures TotalSize(size, data[k := v], data[k := v].Keys) == TotalSize(size, data, data.Keys) + size(v)
  {
    TotalSizeAny(size, data[k := v], data[k := v].Keys, k);
    assert data[k := v].Keys - {k} == data.Keys;
    SameSize(size, data, data[k := v], data.Keys);
  }

  function Targets(queue: seq<Delayed>): (ts: seq<Task>)
    ensures |ts| == |queue| && forall i :: 0 <= i < |ts| ==> ts[i] == queue[i].edge.dst
  {
    seq(|queue|, i requires 0 <= i < |queue| => queue[i].edge.dst)
  }

  ghost function EdgesIn(queue: seq<Delayed>): set<Edge> { set x | x in queue :: x.edge }

  lemma NothingSaid(plan: Plan, e: Exec, before: State, after: State)
    requires plan.WellFormed()
    ensures SaidNoToAll(plan, e, before, after, EdgesIn([])) && SaidNoToAll(plan, e, before, after, {})
  {
    assert EdgesIn([]) == {};
  }

  /** One more edge of the queue was asked for. */
  lemma SaidToNext(plan: Plan, e: Exec, before: State, s: State, after: State, notReady: seq<Delayed>,
                   x: Delayed, ready: bool)
    requires plan.WellFormed() && SaidNoToAll(plan, e, before, s, EdgesIn(notReady))
    requires Onward(plan.g, e, before, s) && Onward(plan.g, e, s, after)
    requires !ready ==> SaidNo(plan, e, s, after, x.edge)
    ensures SaidNoToAll(plan, e, before, after, EdgesIn(if ready then notReady else notReady + [x]))
  {
    ReadyMore(notReady, x);
    hide SaidNo, Onward, Plan.WellFormed, EdgesIn;
    var more := if ready then {} else {x.edge};
    SaidNoToMore(plan, e, before, s, after, EdgesIn(notReady), more);
    assert EdgesIn(notReady) + {} == EdgesIn(notReady);
  }

  /** A later pass said no to the whole queue. */
  lemma SaidNoToSame(plan: Plan, e: Exec, before: State, s: State, after: State, kept: seq<Delayed>,
                     queue: seq<Delayed>)
    requires plan.WellFormed() && SaidNoToAll(plan, e, s, after, EdgesIn(kept)) && multiset(kept) == multiset(queue)
    requires Onward(plan.g, e, before, s) && Onward(plan.g, e, s, after)
    ensures SaidNoToAll(plan, e, before, after, EdgesIn(queue))
  {
    assert EdgesIn(kept) == EdgesIn(queue) by {
      assert forall x :: x in kept <==> x in multiset(kept);
      assert forall x :: x in queue <==> x in multiset(queue);
    }
    hide SaidNo, Onward, Plan.WellFormed, EdgesIn;
    assert SaidNoToAll(plan, e, before, s, {});
    SaidNoToMore(plan, e, before, s, after, {}, EdgesIn(kept));
    assert {} + EdgesIn(kept) == EdgesIn(kept);
  }

  /** A pass over the queue claimed the targets of `ready`, each once, and counted those
      edges; the other edges are still held. */
  ghost predicate Split(v: Local, v': Local, ready: seq<Delayed>) {
    && Gained(v, v', Elems(Targets(ready))) && Distinct(Targets(ready))
    && v'.held.Keys == v.held.Keys - EdgesIn(ready) && EdgesIn(ready) <= v.held.Keys
    && SameLists(v, v') && v'.owing == v.owing && v'.givingUp == v.givingUp
  }

  lemma SplitNothing(v: Local)
    ensures Split(v, v, [])
  {
    assert Elems(Targets([])) == {} && EdgesIn([]) == {};
  }

  lemma ReadyMore(ready: seq<Delayed>, x: Delayed)
    ensures Targets(ready + [x]) == Targets(ready) + [x.edge.dst]
    ensures Elems(Targets(ready + [x])) == Elems(Targets(ready)) + {x.edge.dst}
    ensures EdgesIn(ready + [x]) == EdgesIn(ready) + {x.edge}
  {
    var ts := Targets(ready);
    assert Targets(ready + [x]) == ts + [x.edge.dst];
    assert Elems(ts + [x.edge.dst]) == Elems(ts) + {x.edge.dst};
    assert x in ready + [x] && forall y :: y in ready ==> y in ready + [x];
  }

  lemma SplitMore(v: Local, v': Local, ready: seq<Delayed>, x: Delayed)
    requires Split(v, v', ready) && x.edge in v'.held && x.edge !in v'.waiting && x.edge.dst !in v'.claims
    ensures Split(v, TakenFor(v', x.edge), ready + [x])
  {
    ReadyMore(ready, x);
    assert x.edge.dst !in Elems(Targets(ready));
    hide Targets, EdgesIn;
    assert v'.waiting - {x.edge} == v'.waiting;
  }

  /** The head of the queue moves behind it, or out of it. */
  lemma QueueHead(g: Graph, x: Delayed, rest: seq<Delayed>, back: seq<Delayed>, edges: set<Edge>)
    requires g.WellFormed() && QueueIs(g, [x] + rest + back, edges)
    ensures x.edge in edges && x.edge.src in g.tasks && x.value == g.Eval(x.edge.src)
    ensures QueueIs(g, rest + (back + [x]), edges)
    ensures QueueIs(g, rest + back, edges - {x.edge})
  {
    hide Graph.WellFormed, Graph.Eval;
    var q, q1, q2, n := [x] + rest + back, rest + (back + [x]), rest + back, |rest| + |back|;
    assert q[0] == x && q1[n] == x;
    assert forall i :: 0 <= i < n ==> q1[i] == q[i + 1] && q2[i] == q[i + 1];
    forall edge | edge in edges
      ensures exists i :: 0 <= i < |q1| && q1[i].edge == edge
      ensures edge != x.edge ==> exists i :: 0 <= i < |q2| && q2[i].edge == edge
    {
      var i :| 0 <= i < |q| && q[i].edge == edge;
      if i == 0 { assert q1[n].edge == edge; } else { assert q1[i - 1].edge == edge && q2[i - 1].edge == edge; }
    }
  }

  /** The edges in `executed` were taken out of the queue and counted, and their targets run. */
  ghost predicate QueuePassed(g: Graph, v: Local, v': Local, executed: seq<Delayed>)
    requires g.WellFormed()
  {
    var ts := Elems(Targets(executed));
    && v'.claims == v.claims && Distinct(Targets(executed))
    && v'.waiting == v.waiting + EdgesFrom(g, ts)
    && EdgesIn(executed) <= v.held.Keys && v'.held.Keys == v.held.Keys - EdgesIn(executed)
    && v'.taken == v.taken && ts !! v.ran && v'.ran == v.ran + ts && v'.owing == v.owing && v'.givingUp == v.givingUp
  }

  lemma SplitThenRan(g: Graph, v: Local, v': Local, v'': Local, executed: seq<Delayed>)
    requires g.WellFormed() && Split(v, v', executed) && RanAll(g, v', v'', Elems(Targets(executed)))
    ensures QueuePassed(g, v, v'', executed)
  {
    hide EdgesFrom, EdgesIn, Targets, Distinct;
    assert v'.claims - Elems(Targets(executed)) == v.claims;
  }

  lemma SplitClaims(v: Local, v': Local, ready: seq<Delayed>)
    requires Split(v, v', ready)
    ensures Elems(Targets(ready)) <= v'.claims.Keys && Distinct(Targets(ready)) && SameLists(v, v')
  {
  }

  ghost predicate SameLists(v: Local, v': Local) {
    v'.waiting == v.waiting && v'.taken == v.taken && v'.ran == v.ran && v'.cache == v.cache && v'.givingUp == v.givingUp
  }

  /** New nodes, for the tasks ts, have been put behind the others. */
  ghost predicate NodesJoined(g: Graph, nodes: seq<Unprocessed>, nodes': seq<Unprocessed>, ts: set<Task>)
    requires g.WellFormed()
  {
    nodes <= nodes' && NodesRight(g, nodes'[|nodes|..]) && NodesOf(nodes'[|nodes|..]) == ts
  }

  lemma Joined(g: Graph, nodes: seq<Unprocessed>, more: seq<Unprocessed>, ts: set<Task>)
    requires g.WellFormed() && NodesRight(g, more) && forall t :: t in NodesOf(more) <==> t in ts
    ensures NodesJoined(g, nodes, nodes + more, ts)
  {
    assert (nodes + more)[|nodes|..] == more;
  }

  // ---- Giving up -------------------------------------------------------------

  /** The edges in `counted` have been counted; `ready` lists those whose targets got claimed
      by that. */
  ghost predicate CountedOut(v: Local, v': Local, counted: seq<Delayed>, ready: seq<Delayed>) {
    && Gained(v, v', Elems(Targets(ready))) && Distinct(Targets(ready))
    && v'.held.Keys == v.held.Keys - EdgesIn(counted) && SameLists(v, v')
  }

  /** The queue has been sorted into ready and notReady, as far as rest. */
  ghost predicate Sorted(queue: seq<Delayed>, ready: seq<Delayed>, notReady: seq<Delayed>, rest: seq<Delayed>) {
    multiset(ready) + multiset(notReady) + multiset(rest) == multiset(queue)
  }

  lemma SortedMore(queue: seq<Delayed>, ready: seq<Delayed>, notReady: seq<Delayed>, x: Delayed, rest: seq<Delayed>)
    requires Sorted(queue, ready, notReady, [x] + rest)
    ensures Sorted(queue, ready + [x], notReady, rest) && Sorted(queue, ready, notReady + [x], rest)
  {
  }

  /** The sources of all edges in xs are in ran. */
  ghost predicate SourcesRan(ran: set<Task>, xs: seq<Delayed>) { forall x :: x in xs ==> x.edge.src in ran }

  lemma SourcesMore(ran: set<Task>, xs: seq<Delayed>, x: Delayed)
    requires SourcesRan(ran, xs) && x.edge.src in ran
    ensures SourcesRan(ran, xs + [x])
  {
  }

  lemma SortedNothing(ran: set<Task>, queue: seq<Delayed>)
    ensures Sorted(queue, [], [], queue) && SourcesRan(ran, [])
  {
  }

  lemma SortedAll(ran: set<Task>, queue: seq<Delayed>, ready: seq<Delayed>, notReady: seq<Delayed>)
    requires Sorted(queue, ready, notReady, []) && SourcesRan(ran, notReady)
    ensures multiset(ready) + multiset(notReady) == multiset(queue) && forall x :: x in notReady ==> x.edge.src in ran
  {
  }

  /** What is owed now was owed before, or belongs to one of these edges. */
  ghost predicate OwedOnly(owing: set<Edge>, owing': set<Edge>, queue: seq<Delayed>) {
    owing' <= owing + EdgesIn(queue)
  }

  lemma OwedMore(owing: set<Edge>, owing': set<Edge>, owing'': set<Edge>, queue: seq<Delayed>, x: Delayed, more: bool)
    requires OwedOnly(owing, owing', queue) && owing'' <= owing' + (if more then {x.edge} else {})
    ensures OwedOnly(owing, owing'', if more then queue + [x] else queue)
  {
    ReadyMore(queue, x);
    hide EdgesIn;
  }

  lemma OwedNothing(g: Graph, s: State, owing: set<Edge>)
    requires g.WellFormed()
    ensures OwedOnly(owing, owing, []) && AllStoredOrOwed(g, s, [])
  {
  }

  /** What is owed now was owed before, or has been stored. */
  ghost predicate PaidSince(owing: set<Edge>, owing': set<Edge>, store: set<Task>) {
    forall edge :: edge in owing' ==> edge in owing || edge.src in store
  }

  lemma PaidOn(owing: set<Edge>, owing': set<Edge>, store: set<Task>, store': set<Task>)
    requires PaidSince({}, owing, store) && PaidSince(owing, owing', store') && store <= store'
    ensures PaidSince({}, owing', store')
  {
  }

  lemma PaidMeansWritten(owing: set<Edge>, store: set<Task>)
    requires PaidSince({}, owing, store)
    ensures forall edge :: edge in owing ==> edge.src in store
  {
  }

  lemma PaidAlready(owing: set<Edge>, store: set<Task>)
    ensures PaidSince(owing, owing, store)
  {
  }

  lemma AllPaid(owing: set<Edge>, owing': set<Edge>, owing'': set<Edge>, queue: seq<Delayed>, store: set<Task>)
    requires OwedOnly(owing, owing', queue) && owing'' <= owing' && forall x :: x in queue ==> x.edge.src in store
    ensures PaidSince(owing, owing'', store)
  {
  }

  lemma CountedNothing(v: Local)
    ensures CountedOut(v, v, [], [])
  {
    assert Elems(Targets([])) == {} && EdgesIn([]) == {};
  }

  lemma CountedHeld(v: Local, edge: Edge, won: bool, mobile: bool, owing: set<Edge>)
    requires edge !in v.waiting && edge.dst !in v.claims
    ensures var v' := Counted(v, edge, Granted(won, edge.dst, mobile)).(owing := owing);
            && Gained(v, v', if won then {edge.dst} else {}) && SameLists(v, v')
            && v'.held.Keys == v.held.Keys - {edge}
  {
    assert v.waiting - {edge} == v.waiting;
  }

  lemma CountedMore(v: Local, v': Local, counted: seq<Delayed>, ready: seq<Delayed>, x: Delayed, won: bool, mobile: bool,
                    owing: set<Edge>)
    requires CountedOut(v, v', counted, ready) && x.edge !in v'.waiting && x.edge.dst !in v'.claims
    ensures var v'' := Counted(v', x.edge, Granted(won, x.edge.dst, mobile)).(owing := owing);
            CountedOut(v, v'', counted + [x], if won then ready + [x] else ready)
            && v''.held.Keys == v'.held.Keys - {x.edge} && SameLists(v', v'')
  {
    hide Targets, EdgesIn, Counted, Granted;
    ReadyMore(ready, x);
    ReadyMore(counted, x);
    CountedHeld(v', x.edge, won, mobile, owing);
    InElems(Targets(ready));
    hide Elems;
  }

  lemma CountedClaims(v: Local, v': Local, counted: seq<Delayed>, ready: seq<Delayed>)
    requires CountedOut(v, v', counted, ready)
    ensures Elems(Targets(ready)) <= v'.claims.Keys <= v.claims.Keys + Elems(Targets(ready)) && Distinct(Targets(ready))
  {
  }

  ghost predicate AllStoredOrOwed(g: Graph, s: State, queue: seq<Delayed>)
    requires g.WellFormed()
  {
    forall x :: x in queue ==>
      StoredOrOwed(s, x.edge.src, x.edge.dst) && x.edge.src in g.tasks && x.value == g.Eval(x.edge.src)
  }

  lemma AllStayStoredOrOwed(g: Graph, s: State, s': State, queue: seq<Delayed>)
    requires g.WellFormed() && AllStoredOrOwed(g, s, queue) && NothingLost(s, s')
    ensures AllStoredOrOwed(g, s', queue)
  {
    forall x | x in queue ensures StoredOrOwed(s', x.edge.src, x.edge.dst) {
      StaysStoredOrOwed(s, s', x.edge.src, x.edge.dst);
    }
  }

  lemma OneMoreStoredOrOwed(g: Graph, s: State, queue: seq<Delayed>, x: Delayed)
    requires g.WellFormed() && AllStoredOrOwed(g, s, queue)
    requires StoredOrOwed(s, x.edge.src, x.edge.dst) && x.edge.src in g.tasks && x.value == g.Eval(x.edge.src)
    ensures AllStoredOrOwed(g, s, queue + [x])
  {
  }

  /** The queue was emptied; the targets in `executed` have run; the rest is up to others. */
  ghost predicate GivenUp(g: Graph, v: Local, v': Local, executed: seq<Delayed>)
    requires g.WellFormed()
  {
    var ts := Elems(Targets(executed));
    && v'.claims == v.claims && Distinct(Targets(executed))
    && v'.waiting == v.waiting + EdgesFrom(g, ts) && v'.held == map[]
    && v'.taken == v.taken && ts !! v.ran && v'.ran == v.ran + ts && v'.givingUp == v.givingUp
  }

  lemma CountedThenRan(g: Graph, v: Local, v': Local, v'': Local, counted: seq<Delayed>, ready: seq<Delayed>)
    requires g.WellFormed() && CountedOut(v, v', counted, ready) && RanAll(g, v', v'', Elems(Targets(ready)))
    requires QueueIs(g, [], v''.held.Keys)
    ensures GivenUp(g, v, v'', ready)
  {
    assert v''.held.Keys == {};
    hide EdgesFrom, EdgesIn, Targets, Distinct, QueueIs;
    assert v'.claims - Elems(Targets(ready)) == v.claims;
  }

  lemma GivenUpClaims(g: Graph, v: Local, v': Local, executed: seq<Delayed>)
    requires g.WellFormed() && GivenUp(g, v, v', executed)
    ensures v'.claims == v.claims
  {
  }

  lemma GivenUpStill(g: Graph, v: Local, v0: Local, v': Local, v'': Local, executed: seq<Delayed>)
    requires g.WellFormed() && GivenUp(g, v0, v', executed) && v0 == v.(givingUp := true)
    requires v'' == v'.(owing := v''.owing, givingUp := v.givingUp)
    ensures GivenUp(g, v, v'', executed)
  {
    hide EdgesFrom, Targets, Elems, Distinct;
  }

  /** An empty queue means that nothing is held. */
  lemma NothingHeld(g: Graph, held: map<Edge, Value>)
    requires g.WellFormed() && QueueIs(g, [], held.Keys)
    ensures held == map[]
  {
    assert held.Keys == {};
  }

  /** What the looped version leaves behind, whichever way it returns. */
  ghost predicate QueueWorked(g: Graph, v: Local, v': Local, executed: seq<Delayed>)
    requires g.WellFormed()
  {
    var ts := Elems(Targets(executed));
    && v'.claims == v.claims && Distinct(Targets(executed))
    && v'.waiting == v.waiting + EdgesFrom(g, ts) && v'.held.Keys <= v.held.Keys
    && v'.taken == v.taken && ts !! v.ran && v'.ran == v.ran + ts && v'.givingUp == v.givingUp
  }

  /** Nothing but the cache changed. */
  ghost predicate Idle(v: Local, v': Local) {
    && v'.claims == v.claims && v'.waiting == v.waiting && v'.held.Keys == v.held.Keys
    && v'.taken == v.taken && v'.ran == v.ran && v'.owing == v.owing && v'.givingUp == v.givingUp
  }

  lemma PassedNothing(g: Graph, v: Local, v': Local, v'': Local)
    requires g.WellFormed() && Idle(v, v') && QueuePassed(g, v', v'', [])
    ensures Idle(v, v'')
  {
    EdgesFromOne(g, {}, 0);
    assert Elems(Targets([])) == {} && EdgesIn([]) == {};
  }

  lemma PassedIsWorked(g: Graph, v: Local, v': Local, v'': Local, executed: seq<Delayed>)
    requires g.WellFormed() && Idle(v, v')
    ensures QueuePassed(g, v', v'', executed) ==> QueueWorked(g, v, v'', executed) && v''.owing == v.owing
    ensures GivenUp(g, v', v'', executed) ==> QueueWorked(g, v, v'', executed)
  {
    hide EdgesFrom, EdgesIn, Targets, Distinct, Elems;
  }

  lemma JoinedNothing(g: Graph, nodes: seq<Unprocessed>, nodes': seq<Unprocessed>)
    requires g.WellFormed() && NodesJoined(g, nodes, nodes', {})
    ensures nodes' == nodes
  {
    var more := nodes'[|nodes|..];
    NodesListed(more);
    assert nodes' == nodes + more;
  }

  lemma NodesListed(nodes: seq<Unprocessed>)
    ensures forall n :: n in nodes ==> n.task in NodesOf(nodes)
    ensures NodesOf(nodes) == {} ==> nodes == []
  {
    if nodes != [] {
      var n := nodes[0];
      assert n in nodes && n.task in NodesOf(nodes);
    }
  }

  lemma IdleIsWorked(g: Graph, v: Local, v': Local)
    requires g.WellFormed() && Idle(v, v')
    ensures QueueWorked(g, v, v', [])
  {
    EdgesFromOne(g, {}, 0);
    assert Elems(Targets([])) == {};
  }

  lemma IdleNow(v: Local)
    ensures Idle(v, v)
  {
  }

  lemma SameEmptyQueue(queue: seq<Delayed>)
    requires multiset(queue) == multiset{}
    ensures queue == []
  {
    assert |multiset(queue)| == |queue|;
  }

  lemma WorkedNothing(g: Graph, v: Local, nodes: seq<Unprocessed>)
    requires g.WellFormed()
    ensures QueueWorked(g, v, v, []) && NodesJoined(g, nodes, nodes, Elems(Targets([])))
  {
    EdgesFromOne(g, {}, 0);
    assert Elems(Targets([])) == {};
    assert nodes[|nodes|..] == [];
  }

  // ---- The whole path --------------------------------------------------------

  /** The executor's obligations: it has claimed `current` and nothing else, and its waiting
      edges are those of the nodes still to process. */
  ghost predicate Obliged(plan: Plan, v: Local, nodes: seq<Unprocessed>, current: Option<Task>)
    requires plan.g.WellFormed()
  {
    && v.claims.Keys == OptSet(current)
    && v.waiting == EdgesFrom(plan.g, NodesOf(nodes))
    && NodesRight(plan.g, nodes) && NodesOf(nodes) <= v.ran
  }

  /** The first out-edge that completed its target gives the task to become, and only later ones
      give tasks to invoke. */
  ghost predicate FirstBecomes(outEdges: seq<Task>, toInvoke: seq<Task>, become: Option<Task>) {
    if become.None? then toInvoke == []
    else exists i :: 0 <= i < |outEdges| && outEdges[i] == become.value && forall t :: t in toInvoke ==> t in outEdges[i + 1..]
  }

  lemma NoneBecomes(outEdges: seq<Task>)
    ensures FirstBecomes(outEdges[..0], [], None)
  {
  }

  lemma OneMoreBecomes(outEdges: seq<Task>, i: nat, toInvoke: seq<Task>, become: Option<Task>)
    requires i < |outEdges| && FirstBecomes(outEdges[..i], toInvoke, become)
    ensures FirstBecomes(outEdges[..i + 1], toInvoke, become)
    ensures become.Some? ==> FirstBecomes(outEdges[..i + 1], toInvoke + [outEdges[i]], become)
    ensures become.None? ==> FirstBecomes(outEdges[..i + 1], toInvoke, Some(outEdges[i]))
  {
    var more := outEdges[..i + 1];
    if become.Some? {
      var j :| 0 <= j < i && outEdges[..i][j] == become.value && forall t :: t in toInvoke ==> t in outEdges[..i][j + 1..];
      assert more[j] == become.value && more[j + 1..] == outEdges[..i][j + 1..] + [outEdges[i]];
    } else {
      assert more[i] == outEdges[i];
    }
  }

  /** The final tasks in ran have their results in the store, but for those in lacking. */
  ghost predicate FinalsStored(plan: Plan, ran: set<Task>, store: set<Task>, lacking: set<Task>) {
    forall t :: t in ran && plan.Downstream(t) == [] ==> t in store || t in lacking
  }

  lemma FinalsMore(plan: Plan, ran: set<Task>, store: set<Task>, lacking: set<Task>, more: set<Task>,
                   ran': set<Task>, store': set<Task>, lacking': set<Task>)
    requires FinalsStored(plan, ran, store, lacking) && ran' <= ran + more && store <= store' && lacking <= lacking'
    requires forall t :: t in more && plan.Downstream(t) == [] ==> t in store' || t in lacking'
    ensures FinalsStored(plan, ran', store', lacking')
  {
    hide Plan.Downstream;
  }

  /** Each of ts has been run, below a task after which it could be put into the delayed queue. */
  ghost predicate CameFromQueue(plan: Plan, ran: set<Task>, ts: set<Task>)
    requires plan.g.WellFormed()
  {
    forall t :: t in ts ==> t in ran && exists d :: plan.g.HasEdge(d, t) && d in ran && plan.Holdable(d, t)
  }

  lemma CameFromQueueMore(plan: Plan, ran: set<Task>, ts: set<Task>, ran': set<Task>, more: set<Task>)
    requires plan.g.WellFormed() && CameFromQueue(plan, ran, ts) && ran <= ran' && CameFromQueue(plan, ran', more)
    ensures CameFromQueue(plan, ran', ts + more)
  {
    hide Plan.Holdable, Graph.WellFormed;
  }

  lemma ExecutedCame(plan: Plan, v: Local, queue: seq<Delayed>, executed: seq<Delayed>, notReady: seq<Delayed>, ran: set<Task>)
    requires plan.g.WellFormed() && QueueIs(plan.g, queue, v.held.Keys) && v.ran + Elems(Targets(executed)) <= ran
    requires multiset(executed) + multiset(notReady) == multiset(queue)
    requires forall edge :: edge in v.held ==>
               edge.src in v.ran && plan.g.HasEdge(edge.src, edge.dst) && plan.Holdable(edge.src, edge.dst)
    ensures CameFromQueue(plan, ran, Elems(Targets(executed)))
  {
    hide Plan.Holdable, Graph.WellFormed;
    forall t | t in Elems(Targets(executed))
      ensures t in ran && exists d :: plan.g.HasEdge(d, t) && d in ran && plan.Holdable(d, t)
    {
      var i :| 0 <= i < |executed| && Targets(executed)[i] == t;
      assert executed[i] in executed;
      assert executed[i] in multiset(executed) + multiset(notReady);
      assert executed[i] in multiset(queue);
      assert executed[i].edge in v.held.Keys;
    }
  }

  lemma NoneCame(plan: Plan, ran: set<Task>)
    requires plan.g.WellFormed()
    ensures Elems(Targets([])) == {} && CameFromQueue(plan, ran, {})
  {
  }

  lemma PassedRan(g: Graph, v: Local, v': Local, executed: seq<Delayed>)
    requires g.WellFormed() && QueuePassed(g, v, v', executed)
    ensures v'.ran == v.ran + Elems(Targets(executed))
  {
  }

  lemma GivenUpRan(g: Graph, v: Local, v': Local, executed: seq<Delayed>)
    requires g.WellFormed() && GivenUp(g, v, v', executed)
    ensures v'.ran == v.ran + Elems(Targets(executed))
  {
  }

  lemma WorkedRan(g: Graph, v: Local, v': Local, executed: seq<Delayed>)
    requires g.WellFormed() && QueueWorked(g, v, v', executed)
    ensures v'.ran == v.ran + Elems(Targets(executed))
  {
  }

  lemma OutEdgesRan(plan: Plan, v: Local, v': Local, d: Task, needsBecome: bool, become: Option<Task>, pulled: set<Task>)
    requires plan.g.WellFormed() && OutEdgesDone(plan, v, v', d, needsBecome, become, pulled)
    ensures v'.ran == v.ran + pulled
  {
  }

  /** Nodes without out-edges. */
  ghost predicate AllFinal(plan: Plan, nodes: seq<Unprocessed>) {
    forall i :: 0 <= i < |nodes| ==> plan.Downstream(nodes[i].task) == []
  }

  /** The current tasks of a path after which another task became the current one, if the queue
      has been of effect. */
  ghost function Overtaken(path: seq<Task>, queued: set<Task>): set<Task> {
    if queued == {} || path == [] then {} else Elems(path[..|path| - 1])
  }

  /** What may lack in the store before a round of the loop over the path: as long as a task is
      to follow, all current tasks so far have been overtaken. */
  ghost function Lacking(path: seq<Task>, queued: set<Task>, current: Option<Task>): set<Task> {
    queued + if queued == {} then {} else if current.Some? then Elems(path) else Overtaken(path, queued)
  }

  ghost function Along(path: seq<Task>, current: Option<Task>): seq<Task> {
    if current.Some? then path + [current.value] else path
  }

  lemma AlongEnds(path: seq<Task>, current: Option<Task>)
    ensures current.None? ==> Along(path, current) == path
    ensures current.Some? ==>
              var more := Along(path, current);
              more != [] && Some(more[|more| - 1]) == current && more[0] == if path == [] then current.value else path[0]
  {
  }

  /** The current task, if any, has run, the nodes have been processed, and there is a task to
      become. */
  lemma FinalsBecoming(plan: Plan, ran: set<Task>, store: set<Task>, base: set<Task>, path: seq<Task>, queued: set<Task>,
                       current: Option<Task>, more: set<Task>, become: Option<Task>)
    requires FinalsStored(plan, ran, store, base + Lacking(path, queued, current) + OptSet(current) + more)
    requires become.Some? && (current.Some? && plan.Downstream(current.value) == [] ==> more != {})
    ensures FinalsStored(plan, ran, store, base + Lacking(Along(path, current), queued + more, become))
  {
    hide Plan.Downstream;
    if current.Some? { ElemsMore(path, current.value); }
  }

  /** There is none; the current task is not final or has been stored, and perhaps more tasks
      have come from the queue. */
  lemma FinalsAtRest(plan: Plan, ran: set<Task>, store: set<Task>, base: set<Task>, path: seq<Task>, queued: set<Task>,
                     current: Option<Task>, more: set<Task>, ran': set<Task>, store': set<Task>, more': set<Task>)
    requires FinalsStored(plan, ran, store, base + Lacking(path, queued, current) + OptSet(current) + more)
    requires ran' == ran + more' && store <= store'
    requires current.Some? && plan.Downstream(current.value) == [] ==> current.value in store'
    ensures FinalsStored(plan, ran', store', base + Lacking(Along(path, current), queued + more + more', None))
  {
    hide Plan.Downstream;
    if current.Some? { assert Along(path, current)[..|path|] == path; }
  }

  lemma FinalIsListedSo(plan: Plan, t: Task)
    requires plan.WellFormed() && t in plan.g.tasks && plan.g.Downstream(t) == {}
    ensures plan.Downstream(t) == []
  {
    hide Plan.AssignsBits;
    HasElement(plan.Downstream(t));
  }

  lemma HasElement(ts: seq<Task>)
    ensures ts != [] ==> exists t :: t in ts
  {
    if ts != [] { assert ts[0] in ts; }
  }

  /** Nothing comes from a queue that is not in use. */
  lemma NoneFromQueue(plan: Plan, ran: set<Task>, path: seq<Task>, queued: set<Task>)
    requires plan.g.WellFormed() && CameFromQueue(plan, ran, queued) && !plan.useTaskQueue
    ensures queued + Overtaken(path, queued) == {}
  {
    assert forall t :: t !in queued;
  }

  lemma LackingAtEnd(path: seq<Task>, queued: set<Task>)
    ensures Lacking(path, queued, None) == queued + Overtaken(path, queued)
  {
  }

  /** Each of these tasks has been run, and an executor may come to it as to its current one. */
  ghost predicate CameAlong(plan: Plan, ran: set<Task>, path: seq<Task>)
    requires plan.g.WellFormed()
  {
    forall t :: t in path ==> t in ran && plan.NotOnlyPulledDown(t)
  }

  lemma StartsOut(plan: Plan, ran: set<Task>)
    requires plan.g.WellFormed()
    ensures CameAlong(plan, ran, []) && CameFromQueue(plan, ran, {})
    ensures forall store, current :: FinalsStored(plan, ran, store, ran + Lacking([], {}, current))
  {
  }

  lemma CameFurther(plan: Plan, ran: set<Task>, path: seq<Task>, current: Option<Task>, ran': set<Task>)
    requires plan.g.WellFormed() && CameAlong(plan, ran, path) && ran <= ran'
    requires current.Some? ==> current.value in ran' && plan.NotOnlyPulledDown(current.value)
    ensures CameAlong(plan, ran', Along(path, current))
  {
    hide Plan.NotOnlyPulledDown, Graph.WellFormed;
  }

  lemma OneFinal(plan: Plan, node: Unprocessed)
    ensures AllFinal(plan, [node]) <==> plan.Downstream(node.task) == []
  {
    assert [node][0] == node;
  }

  lemma ElemsMore(path: seq<Task>, t: Task)
    ensures Elems(path + [t]) == Elems(path) + {t}
  {
  }

  lemma NodesConcat(g: Graph, nodes: seq<Unprocessed>, more: seq<Unprocessed>)
    requires g.WellFormed() && NodesRight(g, nodes) && NodesRight(g, more) && NodesOf(nodes) !! NodesOf(more)
    ensures NodesRight(g, nodes + more) && NodesOf(nodes + more) == NodesOf(nodes) + NodesOf(more)
  {
    hide Graph.WellFormed, Graph.Eval;
    NodesListed(nodes);
    NodesListed(more);
    NodesListed(nodes + more);
    var all := nodes + more;
    forall i, j | 0 <= i < j < |all| ensures all[i].task != all[j].task {
      if i < |nodes| <= j {
        assert nodes[i] in nodes && more[j - |nodes|] in more;
      }
    }
    assert forall n :: n in all <==> n in nodes || n in more;
  }

  lemma EdgesFromTwo(g: Graph, ds: set<Task>, ds': set<Task>)
    requires g.WellFormed()
    ensures EdgesFrom(g, ds + ds') == EdgesFrom(g, ds) + EdgesFrom(g, ds')
    ensures forall edge :: edge in EdgesFrom(g, ds) ==> edge.src in ds
  {
  }

  /** The head of the list has no out-edges, or they are all waiting. */
  lemma HeadNode(plan: Plan, v: Local, nodes: seq<Unprocessed>, current: Option<Task>)
    requires plan.WellFormed() && Obliged(plan, v, nodes, current) && nodes != []
    ensures var d, rest := nodes[0].task, nodes[1..];
            && d in v.ran && d in plan.g.tasks && nodes[0].value == plan.g.Eval(d) && !nodes[0].dataWritten
            && NodesRight(plan.g, rest) && NodesOf(nodes) == NodesOf(rest) + {d} && d !in NodesOf(rest)
            && EdgesFrom(plan.g, {d}) == EdgesTo(d, Elems(plan.Downstream(d)))
            && EdgesTo(d, Elems(plan.Downstream(d))) <= v.waiting && Distinct(plan.Downstream(d))
            && (plan.Downstream(d) != [] ==> d in plan.become)
  {
    hide Plan.AssignsBits, Plan.ListsOutEdges, Plan.Downstream, Graph.Eval, Graph.WellFormed, EdgesFrom, EdgesTo, Elems, Distinct,
      NodesOf;
    var d, rest := nodes[0].task, nodes[1..];
    HeadListed(plan.g, nodes);
    EdgesFromTwo(plan.g, NodesOf(rest), {d});
    ListedEdges(plan, d);
  }

  lemma HeadListed(g: Graph, nodes: seq<Unprocessed>)
    requires g.WellFormed() && NodesRight(g, nodes) && nodes != []
    ensures var d, rest := nodes[0].task, nodes[1..];
            && d in g.tasks && nodes[0].value == g.Eval(d) && !nodes[0].dataWritten
            && NodesRight(g, rest) && NodesOf(nodes) == NodesOf(rest) + {d} && d !in NodesOf(rest)
  {
    hide Graph.Eval, Graph.WellFormed;
    var d, rest := nodes[0].task, nodes[1..];
    NodesListed(nodes);
    NodesListed(rest);
    assert nodes == [nodes[0]] + rest;
    forall n | n in rest ensures n.task != d && n in nodes { }
    assert nodes[0] in nodes;
  }

  lemma ListedEdges(plan: Plan, d: Task)
    requires plan.WellFormed() && d in plan.g.tasks
    ensures EdgesFrom(plan.g, {d}) == EdgesTo(d, Elems(plan.Downstream(d))) && Distinct(plan.Downstream(d))
    ensures plan.Downstream(d) != [] ==> d in plan.become
  {
    hide Plan.AssignsBits, Plan.Downstream;
    assert forall t :: t in plan.g.Downstream(d) <==> plan.g.HasEdge(d, t);
    assert forall t :: t in Elems(plan.Downstream(d)) <==> t in plan.g.Downstream(d);
    assert forall t :: Edge(d, t) in plan.g.Edges() <==> plan.g.HasEdge(d, t);
  }

  lemma ObligedAfterRun(plan: Plan, v: Local, v': Local, nodes: seq<Unprocessed>, n: Unprocessed)
    requires plan.g.WellFormed() && Obliged(plan, v, nodes, Some(n.task)) && RanOne(plan.g, v, v', n.task)
    requires n.task in plan.g.tasks && n.value == plan.g.Eval(n.task) && !n.dataWritten
    ensures Obliged(plan, v', nodes + [n], None) && v'.owing == v.owing && v'.givingUp == v.givingUp
  {
    hide Graph.WellFormed, Graph.Eval, EdgesFrom, Graph.OutEdges, NodesRight, NodesOf;
    NodeAdded(plan.g, nodes, n);
    EdgesFromOne(plan.g, NodesOf(nodes), n.task);
  }

  lemma ObligedMore(plan: Plan, v: Local, v': Local, nodes: seq<Unprocessed>, more: seq<Unprocessed>,
                    current: Option<Task>)
    requires plan.g.WellFormed() && Obliged(plan, v, nodes, current)
    requires NodesRight(plan.g, more) && NodesOf(more) !! v.ran
    requires v'.claims == v.claims && v'.waiting == v.waiting + EdgesFrom(plan.g, NodesOf(more)) && v'.ran >= v.ran + NodesOf(more)
    ensures Obliged(plan, v', nodes + more, current)
  {
    hide Graph.WellFormed, Graph.Eval, EdgesFrom, NodesRight, NodesOf;
    NodesConcat(plan.g, nodes, more);
    EdgesFromTwo(plan.g, NodesOf(nodes), NodesOf(more));
  }

  lemma ObligedAfterQueue(plan: Plan, v: Local, v': Local, nodes: seq<Unprocessed>, nodes': seq<Unprocessed>,
                          current: Option<Task>, executed: seq<Delayed>)
    requires plan.g.WellFormed() && Obliged(plan, v, nodes, current)
    requires QueuePassed(plan.g, v, v', executed) || QueueWorked(plan.g, v, v', executed)
    requires NodesJoined(plan.g, nodes, nodes', Elems(Targets(executed)))
    ensures Obliged(plan, v', nodes', current) && v.ran <= v'.ran
    ensures QueuePassed(plan.g, v, v', executed) ==> v'.owing == v.owing && v'.givingUp == v.givingUp
    ensures executed == [] ==> nodes' == nodes
    ensures executed != [] ==> nodes' != []
  {
    hide Graph.WellFormed, Graph.Eval, Obliged, EdgesFrom, EdgesIn, NodesRight, Distinct;
    var more := nodes'[|nodes|..];
    ObligedMore(plan, v, v', nodes, more, current);
    assert nodes' == nodes + more;
    if executed == [] {
      JoinedNothing(plan.g, nodes, nodes');
    } else {
      assert Targets(executed)[0] in Elems(Targets(executed));
    }
  }

  /** The head's out-edges leave, those of the tasks pulled down come. */
  lemma WaitingAfter(plan: Plan, ds: set<Task>, d: Task, pulled: set<Task>, nexts: set<Task>)
    requires plan.WellFormed() && d in plan.g.tasks && d !in ds
    requires pulled <= plan.g.tasks && forall t :: t in nexts <==> t in pulled && plan.Downstream(t) != []
    ensures EdgesFrom(plan.g, ds + {d}) - EdgesTo(d, Elems(plan.Downstream(d))) + EdgesFrom(plan.g, pulled)
            == EdgesFrom(plan.g, ds) + EdgesFrom(plan.g, nexts)
  {
    hide Plan.AssignsBits, Plan.ListsOutEdges, Graph.WellFormed, Plan.Downstream;
    ListedEdges(plan, d);
    EdgesFromTwo(plan.g, ds, {d});
    forall t | t in pulled && t !in nexts ensures EdgesFrom(plan.g, {t}) == {} {
      ListedEdges(plan, t);
    }
    forall edge | edge in EdgesFrom(plan.g, pulled) ensures edge in EdgesFrom(plan.g, nexts) {
      assert edge in EdgesFrom(plan.g, {edge.src});
    }
  }

  lemma ObligedAfterOutEdges(plan: Plan, v: Local, v': Local, nodes: seq<Unprocessed>, next: seq<Unprocessed>,
                             become: Option<Task>, candidate: Option<Task>, pulled: set<Task>)
    requires plan.WellFormed() && Obliged(plan, v, nodes, become) && nodes != []
    requires OutEdgesDone(plan, v, v', nodes[0].task, become.None?, candidate, pulled) && NodesRight(plan.g, next)
    requires forall t :: t in NodesOf(next) <==> t in pulled && plan.Downstream(t) != []
    requires plan.Downstream(nodes[0].task) != []
    ensures Obliged(plan, v', nodes[1..] + next,
                    if become.None? then candidate else become)
    ensures v.ran <= v'.ran && v'.owing == v.owing && v'.givingUp == v.givingUp
  {
    hide Graph.Eval, EdgesFrom, EdgesTo, NodesRight, NodesOf, Elems, Plan.ListsOutEdges, Plan.AssignsBits, Graph.WellFormed, Plan.Downstream;
    var d, rest := nodes[0].task, nodes[1..];
    HeadNode(plan, v, nodes, become);
    PulledInGraph(plan, d, pulled);
    WaitingAfter(plan, NodesOf(rest), d, pulled, NodesOf(next));
    NodesConcat(plan.g, rest, next);
    EdgesFromTwo(plan.g, NodesOf(rest), NodesOf(next));
  }

  lemma PulledInGraph(plan: Plan, d: Task, pulled: set<Task>)
    requires plan.WellFormed() && d in plan.g.tasks && pulled <= Elems(plan.Downstream(d))
    ensures pulled <= plan.g.tasks
  {
    hide Plan.AssignsBits, Plan.Downstream;
  }

  lemma ObligedAfterRoot(plan: Plan, v: Local, nodes: seq<Unprocessed>, current: Option<Task>)
    requires plan.WellFormed() && Obliged(plan, v, nodes, current) && nodes != []
    requires plan.Downstream(nodes[0].task) == []
    ensures Obliged(plan, v, nodes[1..], current)
  {
    hide Graph.Eval, NodesRight, NodesOf, Plan.ListsOutEdges, Plan.AssignsBits, Graph.WellFormed, Plan.Downstream;
    HeadNode(plan, v, nodes, current);
    EdgesFromTwo(plan.g, NodesOf(nodes[1..]), {nodes[0].task});
    assert Elems<Task>([]) == {};
    hide EdgesFrom;
  }

  lemma ClaimsCurrent(plan: Plan, v: Local, nodes: seq<Unprocessed>, t: Task)
    requires plan.g.WellFormed() && Obliged(plan, v, nodes, Some(t))
    ensures t in v.claims
  {
  }

  /** A task that a small one leaves to its executor to become. */
  lemma BecomesAfterSmall(plan: Plan, v: Local, v': Local, d: Task, needsBecome: bool, become: Option<Task>, pulled: set<Task>)
    requires plan.WellFormed() && d in plan.g.tasks && d !in plan.big
    requires OutEdgesDone(plan, v, v', d, needsBecome, become, pulled)
    ensures become.Some? ==> plan.NotOnlyPulledDown(become.value)
  {
    hide Plan.AssignsBits, Plan.Downstream;
    if become.Some? {
      assert become.value in OptSet(become) && become.value in plan.g.Downstream(d);
    }
  }

  /** Whoever starts with a claim that may change hands need not have been pulled down. */
  lemma StartsFreely(plan: Plan, s: State, e: Exec, t: Task)
    requires plan.WellFormed() && Lawful(plan, s) && t in View(plan.g, s, e).claims && View(plan.g, s, e).claims[t]
    ensures plan.NotOnlyPulledDown(t)
  {
    hide Lawful, View, Discipline, Plan.ListsOutEdges, Plan.AssignsBits, RunInPlace, KeepsInput, StoredFirst, BackedUnlessOwable;
    LawfulDiscipline(plan, s);
    LawfulWhereabouts(plan, s);
    ClaimInView(plan.g, s, e, t);
    assert ClaimedInPlace(plan, s, Claim(t, e, true));
  }

  lemma NoClaimsNow(plan: Plan, v: Local, nodes: seq<Unprocessed>)
    requires plan.g.WellFormed() && Obliged(plan, v, nodes, None)
    ensures v.claims == map[]
  {
  }

  /** A node whose out-edges all wait: nobody can have run a dependent. */
  lemma UntriedNode(plan: Plan, v: Local, d: Task)
    requires plan.WellFormed() && d in plan.g.tasks && EdgesTo(d, Elems(plan.Downstream(d))) <= v.waiting
    ensures Untried(plan.g, v, d)
  {
    hide Plan.AssignsBits, Plan.Downstream;
    forall x | plan.g.HasEdge(d, x) ensures Edge(d, x) in v.waiting {
      assert x in plan.g.Downstream(d) && x in Elems(plan.Downstream(d));
      assert Edge(d, x) in EdgesTo(d, Elems(plan.Downstream(d)));
    }
  }

  lemma UntriedDealt(g: Graph, v: Local, v': Local, d: Task, t: Task, ready: bool, parked: bool)
    requires g.WellFormed() && Untried(g, v, d) && Dealt(v, v', Edge(d, t), ready, parked) && (ready || parked)
    ensures Untried(g, v', d)
  {
  }

  lemma ObligedAtEnd(plan: Plan, v: Local, nodes: seq<Unprocessed>)
    requires plan.g.WellFormed() && Obliged(plan, v, nodes, None) && nodes == []
    ensures v.claims == map[] && v.waiting == {}
  {
    EdgesFromOne(plan.g, {}, 0);
    assert NodesOf(nodes) == {};
  }

  lemma CachedInGraph(plan: Plan, s: State, e: Exec, d: Task)
    requires plan.WellFormed() && Lawful(plan, s) && d in View(plan.g, s, e).cache
    ensures d in plan.g.tasks
  {
    hide Lawful, WithinReach, View, Discipline, Plan.ListsOutEdges, Plan.AssignsBits;
    LawfulInv(plan, s);
    CacheInView(plan.g, s, e);
    assert CacheRight(plan.g, s, e, d);
  }

  lemma FinalHasNoDependents(plan: Plan, s: State, e: Exec, t: Task)
    requires plan.WellFormed() && Lawful(plan, s) && t in View(plan.g, s, e).ran && plan.Downstream(t) == []
    ensures plan.g.Downstream(t) == {}
  {
    hide Lawful, View, Plan.Downstream, Plan.AssignsBits, EdgesFollowRuns, TakenIsLast, ClaimedWhenDue, PendingOnce;
    LawfulDiscipline(plan, s);
    RanInView(plan.g, s, e);
    assert t in plan.g.tasks;
    assert forall t' :: t' in plan.Downstream(t) <==> t' in plan.g.Downstream(t);
  }

  lemma EndedView(g: Graph, s: State, s': State, e: Exec)
    requires g.WellFormed() && s' == s.(gone := s'.gone) && s.failed == s'.failed
    ensures View(g, s', e) == View(g, s, e) && (HasFailed(s, e) ==> HasFailed(s', e))
  {
    assert SameEdges(s, s');
    SameOwnEdges(g, s, s', e);
    SameClaims(s, s', e);
    hide WaitingOf, HeldOf, TakenOf, RanOf, ClaimsOf;
  }

  lemma WellFormedPlan(plan: Plan)
    requires plan.WellFormed()
    ensures plan.g.WellFormed()
  {
  }

  /** Progress before mid, and after it. */
  lemma Continue(g: Graph, e: Exec, before: State, mid: State, now: State)
    requires g.WellFormed() && Onward(g, e, before, mid) && Onward(g, e, mid, now)
    ensures Onward(g, e, before, now) && NothingLost(before, now) && NothingLost(mid, now)
    ensures Unrun(g, now) <= Unrun(g, mid) <= Unrun(g, before)
    ensures mid.Active(e) ==> now.Active(e)
  {
    hide Reaches, Unrun, State.Active, NothingLost;
    OnwardCompose(g, e, before, mid, now);
  }

  lemma RanShrinks(g: Graph, e: Exec, before: State, mid: State, now: State, t: Task)
    requires g.WellFormed() && Onward(g, e, before, mid)
    requires t in Unrun(g, mid) && Unrun(g, now) == Unrun(g, mid) - {t}
    ensures Unrun(g, now) < Unrun(g, before)
  {
    hide Reaches, Unrun;
    assert t in Unrun(g, before);
  }
}
