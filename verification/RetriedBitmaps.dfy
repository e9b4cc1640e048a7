/** Bitmap counting over an unreliable connection: a SETBIT and GET that was applied may lose
    its reply and is then tried again.  A task may be claimed, and so executed, more than
    once; it is never claimed early and never lost. */
module RetriedBitmaps {
  import opened Graphs
  import opened Plans
  import opened Schedules

  /** bits[t] holds the dependencies of t whose bit is set. */
  datatype State = State(
    bits: map<Task, set<Task>>,
    claims: map<Task, nat>,     // how often each task was claimed
    claimants: map<Task, set<Task>>,  // by executions of which of its dependencies
    runs: map<Task, nat>,       // how often each task was executed
    owes: multiset<Edge>,       // out-edges of executions, not acknowledged as counted
    books: multiset<Edge>)      // edges taken by a peek, not counted yet
  {
    function Bits(t: Task): set<Task> { if t in bits then bits[t] else {} }

    function Claims(t: Task): nat { if t in claims then claims[t] else 0 }

    function Claimants(t: Task): set<Task> { if t in claimants then claimants[t] else {} }

    function Runs(t: Task): nat { if t in runs then runs[t] else 0 }
  }

  datatype Step =
    | Execute(t: Task)      // an execution of a claimed task ends
    | Ack(edge: Edge)       // SETBIT and GET, with a reply
    | Lost(edge: Edge)      // SETBIT and GET are applied, the reply is lost
    | Peek(edge: Edge)      // a GET that shows all other dependencies, perhaps also this one
    | Book(edge: Edge)      // the SETBIT after a peek
    | Skip(edge: Edge)      // no SETBIT after a peek: the task becomes dst

  ghost predicate Enabled(g: Graph, s: State, step: Step)
    requires g.WellFormed()
  {
    match step
    case Execute(t) => t in g.tasks && s.Runs(t) < s.Claims(t)
    case Ack(edge) => edge in s.owes
    case Lost(edge) => edge in s.owes
    case Peek(edge) => edge in s.owes && edge.dst in g.tasks && g.deps[edge.dst] - {edge.src} <= s.Bits(edge.dst)
    case Book(edge) => edge in s.books
    case Skip(edge) => edge in s.books
  }

  function Mark(s: State, edge: Edge): State {
    s.(bits := s.bits[edge.dst := s.Bits(edge.dst) + {edge.src}])
  }

  function Claim(s: State, edge: Edge): State {
    s.(claims := s.claims[edge.dst := s.Claims(edge.dst) + 1],
       claimants := s.claimants[edge.dst := s.Claimants(edge.dst) + {edge.src}])
  }

  ghost function Apply(g: Graph, s: State, step: Step): State
    requires g.WellFormed() && Enabled(g, s, step)
  {
    match step
    case Execute(t) =>
      s.(runs := s.runs[t := s.Runs(t) + 1], owes := s.owes + multiset(g.OutEdges(t)))
    case Ack(edge) =>
      var s' := Mark(s, edge).(owes := s.owes - multiset{edge});
      if edge.dst in g.tasks && g.deps[edge.dst] <= s'.Bits(edge.dst) then Claim(s', edge) else s'
    case Lost(edge) => Mark(s, edge)
    case Peek(edge) => Claim(s.(owes := s.owes - multiset{edge}, books := s.books + multiset{edge}), edge)
    case Book(edge) => Mark(s, edge).(books := s.books - multiset{edge})
    case Skip(edge) => s.(books := s.books - multiset{edge})
  }

  ghost function Init(g: Graph): State
    requires g.WellFormed()
  {
    State(map[], map t | t in g.tasks && g.deps[t] == {} :: 1, map[], map[], multiset{}, multiset{})
  }

  ghost predicate CanRun(g: Graph, s: State, steps: seq<Step>)
    requires g.WellFormed()
    decreases |steps|
  {
    steps == [] || (Enabled(g, s, steps[0]) && CanRun(g, Apply(g, s, steps[0]), steps[1..]))
  }

  ghost function RunFrom(g: Graph, s: State, steps: seq<Step>): State
    requires g.WellFormed() && CanRun(g, s, steps)
    decreases |steps|
  {
    if steps == [] then s else RunFrom(g, Apply(g, s, steps[0]), steps[1..])
  }

  /** Some interleaving leads from the initial state to s. */
  ghost predicate Reachable(g: Graph, s: State)
    requires g.WellFormed()
  {
    exists steps :: CanRun(g, Init(g), steps) && RunFrom(g, Init(g), steps) == s
  }

  /** What is known of every edge: marks and obligations come from executions. */
  ghost predicate EdgeRight(g: Graph, s: State, edge: Edge)
    requires g.WellFormed()
  {
    && (edge in s.owes || edge in s.books ==> edge.dst in g.tasks && edge.src in g.deps[edge.dst])
    && (edge in s.owes || edge in s.books || edge.src in s.Bits(edge.dst) ==> s.Runs(edge.src) > 0)
    && (edge in s.books ==> s.Claims(edge.dst) > 0)
    && (edge.dst in g.tasks && edge.src in g.deps[edge.dst] && s.Runs(edge.src) > 0 ==>
          edge in s.owes || edge.src in s.Bits(edge.dst) || s.Claims(edge.dst) > 0)
  }

  ghost predicate Owed(s: State, t: Task) {
    exists edge :: edge in s.owes && edge.dst == t
  }

  ghost predicate TaskRight(g: Graph, s: State, t: Task)
    requires g.WellFormed()
  {
    t in g.tasks ==>
      && (s.Claims(t) > 0 ==> forall d :: d in g.deps[t] ==> s.Runs(d) > 0)
      && (g.deps[t] <= s.Bits(t) ==> s.Claims(t) > 0 || Owed(s, t))
      && (g.deps[t] == {} ==> s.Claims(t) > 0)
      && (s.Runs(t) > 0 ==> s.Claims(t) > 0)
  }

  ghost predicate Inv(g: Graph, s: State)
    requires g.WellFormed()
  {
    && (forall edge {:trigger EdgeRight(g, s, edge)} :: EdgeRight(g, s, edge))
    && (forall t {:trigger TaskRight(g, s, t)} :: TaskRight(g, s, t))
  }

  lemma MarkedRan(g: Graph, s: State, t: Task)
    requires g.WellFormed() && Inv(g, s)
    ensures forall d :: d in s.Bits(t) ==> s.Runs(d) > 0
  {
    forall d | d in s.Bits(t) ensures s.Runs(d) > 0 {
      assert EdgeRight(g, s, Edge(d, t));
    }
  }

  lemma ExecuteKeepsEdge(g: Graph, s: State, t: Task, edge: Edge)
    requires g.WellFormed() && EdgeRight(g, s, edge) && Enabled(g, s, Execute(t))
    ensures EdgeRight(g, Apply(g, s, Execute(t)), edge)
  {
    assert edge in g.OutEdges(t) <==> edge == Edge(t, edge.dst) && edge.dst in g.tasks && t in g.deps[edge.dst];
    hide Graph.OutEdges;
  }

  lemma CountKeepsEdge(g: Graph, s: State, step: Step, edge: Edge)
    requires g.WellFormed() && EdgeRight(g, s, edge) && Enabled(g, s, step)
    requires step.Ack? || step.Lost? || step.Book?
    requires EdgeRight(g, s, step.edge)
    ensures EdgeRight(g, Apply(g, s, step), edge)
  {
  }

  lemma TakeKeepsEdge(g: Graph, s: State, step: Step, edge: Edge)
    requires g.WellFormed() && EdgeRight(g, s, edge) && Enabled(g, s, step)
    requires step.Peek? || step.Skip?
    requires EdgeRight(g, s, step.edge)
    ensures EdgeRight(g, Apply(g, s, step), edge)
  {
  }

  lemma StepKeepsEdge(g: Graph, s: State, step: Step, edge: Edge)
    requires g.WellFormed() && Inv(g, s) && Enabled(g, s, step)
    ensures EdgeRight(g, Apply(g, s, step), edge)
  {
    assert EdgeRight(g, s, edge);
    if !step.Execute? { assert EdgeRight(g, s, step.edge); }
    hide Inv, EdgeRight, Apply, Enabled;
    if step.Execute? {
      ExecuteKeepsEdge(g, s, step.t, edge);
    } else if step.Peek? || step.Skip? {
      TakeKeepsEdge(g, s, step, edge);
    } else {
      CountKeepsEdge(g, s, step, edge);
    }
  }

  /** An obligation that stays keeps its task owed. */
  lemma StillOwed(s: State, s': State, t: Task)
    requires Owed(s, t) && forall e :: e in s.owes && e.dst == t ==> e in s'.owes
    ensures Owed(s', t)
  {
  }

  lemma ExecuteKeepsTask(g: Graph, s: State, t': Task, t: Task)
    requires g.WellFormed() && TaskRight(g, s, t) && Enabled(g, s, Execute(t'))
    ensures TaskRight(g, Apply(g, s, Execute(t')), t)
  {
    if Owed(s, t) { StillOwed(s, Apply(g, s, Execute(t')), t); }
  }

  lemma OthersLeave(g: Graph, s: State, step: Step, t: Task)
    requires g.WellFormed() && Enabled(g, s, step) && !step.Execute? && step.edge.dst != t
    ensures var s' := Apply(g, s, step);
            && s'.Bits(t) == s.Bits(t) && s'.Claims(t) == s.Claims(t) && s'.runs == s.runs
            && forall e :: e in s.owes && e.dst == t ==> e in s'.owes
  {
    hide Graph.WellFormed;
    match step
    case Ack(_) =>
    case Lost(_) =>
    case Peek(_) =>
    case Book(_) =>
    case Skip(_) =>
  }

  /** Another task's edge moves. */
  lemma OthersKeepTask(g: Graph, s: State, step: Step, t: Task)
    requires g.WellFormed() && TaskRight(g, s, t) && Enabled(g, s, step) && !step.Execute? && step.edge.dst != t
    ensures TaskRight(g, Apply(g, s, step), t)
  {
    hide Apply, Enabled, Owed;
    OthersLeave(g, s, step, t);
    if Owed(s, t) { StillOwed(s, Apply(g, s, step), t); }
  }

  lemma OwnKeepTask(g: Graph, s: State, step: Step, t: Task)
    requires g.WellFormed() && TaskRight(g, s, t) && Enabled(g, s, step) && !step.Execute? && step.edge.dst == t
    requires EdgeRight(g, s, step.edge) && forall d :: d in s.Bits(t) ==> s.Runs(d) > 0
    ensures TaskRight(g, Apply(g, s, step), t)
  {
    var s' := Apply(g, s, step);
    match step
    case Ack(edge) =>
    case Lost(edge) => assert edge in s'.owes;
    case Peek(edge) => assert forall d :: d in g.deps[t] ==> d == edge.src || d in s.Bits(t);
    case Book(edge) =>
    case Skip(edge) => if Owed(s, t) { StillOwed(s, s', t); }
  }

  lemma StepKeepsInv(g: Graph, s: State, step: Step)
    requires g.WellFormed() && Inv(g, s) && Enabled(g, s, step)
    ensures Inv(g, Apply(g, s, step))
  {
    forall edge ensures EdgeRight(g, Apply(g, s, step), edge) {
      StepKeepsEdge(g, s, step, edge);
    }
    forall t ensures TaskRight(g, Apply(g, s, step), t) {
      assert TaskRight(g, s, t);
      if !step.Execute? { assert EdgeRight(g, s, step.edge); }
      MarkedRan(g, s, t);
      hide Inv, EdgeRight, TaskRight, Apply, Enabled;
      if step.Execute? {
        ExecuteKeepsTask(g, s, step.t, t);
      } else if step.edge.dst != t {
        OthersKeepTask(g, s, step, t);
      } else {
        OwnKeepTask(g, s, step, t);
      }
    }
  }

  lemma {:induction false} RunKeepsInv(g: Graph, s: State, steps: seq<Step>)
    requires g.WellFormed() && Inv(g, s) && CanRun(g, s, steps)
    ensures Inv(g, RunFrom(g, s, steps))
    decreases |steps|
  {
    hide Inv, Apply, Enabled;
    if steps != [] {
      StepKeepsInv(g, s, steps[0]);
      RunKeepsInv(g, Apply(g, s, steps[0]), steps[1..]);
    }
  }

  lemma ReachableInv(g: Graph, s: State)
    requires g.WellFormed() && Reachable(g, s)
    ensures Inv(g, s)
  {
    var steps :| CanRun(g, Init(g), steps) && RunFrom(g, Init(g), steps) == s;
    assert Inv(g, Init(g));
    hide Inv, Init;
    RunKeepsInv(g, Init(g), steps);
  }

  /** Never early: a claimed task's dependencies have all been executed. */
  lemma NeverEarly(g: Graph, s: State, t: Task, d: Task)
    requires g.WellFormed() && Reachable(g, s) && t in g.tasks && d in g.deps[t] && s.Claims(t) > 0
    ensures s.Runs(d) > 0
  {
    ReachableInv(g, s);
    assert TaskRight(g, s, t);
  }

  /** Never lost: when the dependencies have been executed and none of their edges waits to be
      acknowledged, the task has been claimed. */
  lemma NeverLost(g: Graph, s: State, t: Task)
    requires g.WellFormed() && Reachable(g, s) && t in g.tasks
    requires forall d :: d in g.deps[t] ==> s.Runs(d) > 0 && Edge(d, t) !in s.owes
    ensures s.Claims(t) > 0
  {
    ReachableInv(g, s);
    assert TaskRight(g, s, t);
    forall d | d in g.deps[t] ensures d in s.Bits(t) || s.Claims(t) > 0 {
      assert EdgeRight(g, s, Edge(d, t));
    }
    if Owed(s, t) { var d := OwedBy(g, s, t); }
  }

  lemma OwedBy(g: Graph, s: State, t: Task) returns (d: Task)
    requires g.WellFormed() && Inv(g, s) && t in g.tasks && Owed(s, t)
    ensures d in g.deps[t] && Edge(d, t) in s.owes
  {
    var e :| e in s.owes && e.dst == t;
    assert EdgeRight(g, s, e) && e == Edge(e.src, t);
    d := e.src;
  }

  /** A run that ends with nothing left to do has executed every task at least once. */
  lemma {:induction false} CompleteAtLeastOnce(g: Graph, s: State, t: Task)
    requires g.WellFormed() && Reachable(g, s) && t in g.tasks && s.owes == multiset{}
    requires forall t' :: t' in g.tasks ==> s.Runs(t') == s.Claims(t')
    ensures s.Runs(t) > 0
    decreases g.level[t]
  {
    forall d | d in g.deps[t] ensures s.Runs(d) > 0 {
      CompleteAtLeastOnce(g, s, d);
    }
    NeverLost(g, s, t);
  }

  // ---- Twice: runs in which claims wait for the counts of whoever made them --

  /** All counts by executions of d have been acknowledged, but for edges that may wait in the
      delayed queue. */
  ghost predicate Acknowledged(plan: Plan, s: State, d: Task)
    requires plan.g.WellFormed()
  {
    forall x :: plan.g.HasEdge(d, x) && !plan.Holdable(d, x) ==> Edge(d, x) !in s.owes
  }

  /** A count is tried again inside the call that makes it, and what an execution has claimed is run
      after all its counts. */
  ghost predicate Waits(plan: Plan, s: State, step: Step)
    requires plan.g.WellFormed()
  {
    step.Execute? && step.t in plan.g.tasks && plan.g.deps[step.t] != {} ==>
      exists d :: d in s.Claimants(step.t) && Acknowledged(plan, s, d)
  }

  ghost predicate LeadsTo(plan: Plan, s: State, steps: seq<Step>, s': State)
    requires plan.g.WellFormed()
    decreases |steps|
  {
    if steps == [] then s' == s
    else Enabled(plan.g, s, steps[0]) && Waits(plan, s, steps[0]) && LeadsTo(plan, Apply(plan.g, s, steps[0]), steps[1..], s')
  }

  /** Some such run leads to s. */
  ghost predicate InOrder(plan: Plan, s: State)
    requires plan.g.WellFormed()
  {
    exists steps :: LeadsTo(plan, Init(plan.g), steps, s)
  }

  /** Some task is claimed more than once. */
  ghost predicate CanClaimTwice(plan: Plan)
    requires plan.g.WellFormed()
  {
    exists s, t :: InOrder(plan, s) && t in plan.g.tasks && s.Claims(t) > 1
  }

  /** t has two dependencies of which neither has to wait for the count of the other: it does not
      need the other, or that one's edge may wait in the delayed queue. */
  ghost predicate Fork(plan: Plan, t: Task, x: Task, y: Task)
    requires plan.g.WellFormed()
  {
    && plan.g.HasEdge(x, t) && plan.g.HasEdge(y, t) && x != y
    && (plan.g.Above(x, y) ==> plan.Holdable(x, t)) && (plan.g.Above(y, x) ==> plan.Holdable(y, t))
  }

  ghost predicate HasFork(plan: Plan)
    requires plan.g.WellFormed()
  {
    exists t, x, y :: Fork(plan, t, x, y)
  }

  // ---- Only with a fork ------------------------------------------------------

  /** One execution of t's last dependency has claimed it, when all counts into t were over. */
  ghost predicate ClaimedAtLast(g: Graph, s: State, t: Task, d: Task)
    requires g.WellFormed() && t in g.tasks
  {
    && s.Claimants(t) == {d} && d in g.deps[t]
    && (forall c :: c in g.deps[t] ==> Edge(c, t) !in s.owes && (c == d || g.Above(c, d)))
  }

  ghost predicate TaskOnce(g: Graph, s: State, t: Task)
    requires g.WellFormed()
  {
    t in g.tasks ==>
      && s.Runs(t) <= s.Claims(t) <= 1 && (s.Claims(t) == 0 ==> s.Claimants(t) == {})
      && (s.Claims(t) > 0 && g.deps[t] != {} ==> exists d :: ClaimedAtLast(g, s, t, d))
  }

  ghost predicate EdgeOnce(s: State, e: Edge) { s.owes[e] <= s.Runs(e.src) }

  /** What has run has waited for all above it. */
  ghost predicate HasWaited(plan: Plan, s: State, a: Task, x: Task)
    requires plan.g.WellFormed()
  {
    plan.g.Above(a, x) && s.Runs(x) > 0 ==> Acknowledged(plan, s, a)
  }

  ghost predicate OnceInv(plan: Plan, s: State)
    requires plan.g.WellFormed()
  {
    && (forall t {:trigger TaskOnce(plan.g, s, t)} :: TaskOnce(plan.g, s, t))
    && (forall e {:trigger EdgeOnce(s, e)} :: EdgeOnce(s, e))
    && (forall a, x {:trigger HasWaited(plan, s, a, x)} :: HasWaited(plan, s, a, x))
  }

  lemma {:induction false} AboveRan(g: Graph, s: State, a: Task, x: Task)
    requires g.WellFormed() && Inv(g, s) && g.Above(a, x) && s.Claims(x) > 0
    ensures s.Runs(a) > 0
    decreases g.level[x]
  {
    assert TaskRight(g, s, x);
    if a !in g.deps[x] {
      var y :| y in g.deps[x] && g.Above(a, y);
      assert TaskRight(g, s, y);
      AboveRan(g, s, a, y);
    }
  }

  /** Whoever still counts into t, while another dependency of t has run, comes after that one. */
  lemma OthersBefore(plan: Plan, s: State, e: Edge, c: Task)
    requires plan.g.WellFormed() && !HasFork(plan) && Inv(plan.g, s) && OnceInv(plan, s) && e in s.owes
    requires plan.g.HasEdge(c, e.dst) && c != e.src && s.Runs(c) > 0
    ensures plan.g.Above(c, e.src) && Edge(c, e.dst) !in s.owes
  {
    assert EdgeRight(plan.g, s, e) && e == Edge(e.src, e.dst);
    assert !Fork(plan, e.dst, c, e.src);
    assert HasWaited(plan, s, e.src, c) && HasWaited(plan, s, c, e.src);
    hide Inv, OnceInv, EdgeRight;
  }

  lemma NotClaimedYet(plan: Plan, s: State, e: Edge)
    requires plan.g.WellFormed() && Inv(plan.g, s) && OnceInv(plan, s) && e in s.owes
    ensures e.dst in plan.g.tasks && e.src in plan.g.deps[e.dst] && s.Claims(e.dst) == 0 && s.Claimants(e.dst) == {} && s.owes[e] == 1
    ensures s.Runs(e.src) == 1
  {
    assert EdgeRight(plan.g, s, e) && e == Edge(e.src, e.dst) && EdgeOnce(s, e);
    assert TaskOnce(plan.g, s, e.dst) && TaskOnce(plan.g, s, e.src);
    hide Inv, OnceInv;
  }

  /** The claim that a count or a check of e makes. */
  lemma ClaimsAtLast(plan: Plan, s: State, s': State, e: Edge)
    requires plan.g.WellFormed() && !HasFork(plan) && Inv(plan.g, s) && OnceInv(plan, s) && e in s.owes
    requires e.dst in plan.g.tasks && plan.g.deps[e.dst] - {e.src} <= s.Bits(e.dst)
    requires s'.owes == s.owes - multiset{e} && s'.Claimants(e.dst) == s.Claimants(e.dst) + {e.src}
    ensures ClaimedAtLast(plan.g, s', e.dst, e.src)
  {
    NotClaimedYet(plan, s, e);
    MarkedRan(plan.g, s, e.dst);
    assert e == Edge(e.src, e.dst);
    hide Inv, OnceInv;
    forall c | c in plan.g.deps[e.dst] ensures Edge(c, e.dst) !in s'.owes && (c == e.src || plan.g.Above(c, e.src)) {
      if c != e.src { OthersBefore(plan, s, e, c); }
    }
  }

  lemma StillClaimedAtLast(g: Graph, s: State, s': State, t: Task)
    requires g.WellFormed() && t in g.tasks && TaskOnce(g, s, t)
    requires s'.Claims(t) == s.Claims(t) && s'.Claimants(t) == s.Claimants(t) && s'.Runs(t) <= s'.Claims(t)
    requires s.Claims(t) > 0 ==> forall c :: c in g.deps[t] && Edge(c, t) in s'.owes ==> Edge(c, t) in s.owes
    ensures TaskOnce(g, s', t)
  {
    if s.Claims(t) > 0 && g.deps[t] != {} {
      var d :| ClaimedAtLast(g, s, t, d);
      assert ClaimedAtLast(g, s', t, d);
    }
  }

  /** From s to s', e's target has been claimed by a count or a check of e. */
  ghost predicate JustClaimed(g: Graph, s: State, s': State, e: Edge)
    requires g.WellFormed()
  {
    && e.dst in g.tasks && e in s.owes && s'.owes == s.owes - multiset{e} && g.deps[e.dst] - {e.src} <= s.Bits(e.dst)
    && s'.Claims(e.dst) == s.Claims(e.dst) + 1 && s'.Claimants(e.dst) == s.Claimants(e.dst) + {e.src}
  }

  ghost predicate OthersSame(s: State, s': State, e: Edge) {
    && s'.runs == s.runs && (s'.owes == s.owes || (e in s.owes && s'.owes == s.owes - multiset{e}))
    && (forall t :: t != e.dst ==> s'.Claims(t) == s.Claims(t) && s'.Claimants(t) == s.Claimants(t))
  }

  /** What a step on an edge does to owed edges and to claims. */
  lemma EdgeStepEffect(g: Graph, s: State, step: Step)
    requires g.WellFormed() && Enabled(g, s, step) && !step.Execute?
    ensures var s', e := Apply(g, s, step), step.edge;
            && OthersSame(s, s', e)
            && ((s'.Claims(e.dst) == s.Claims(e.dst) && s'.Claimants(e.dst) == s.Claimants(e.dst)) || JustClaimed(g, s, s', e))
  {
    hide Graph.WellFormed;
    var s', e := Apply(g, s, step), step.edge;
    match step
    case Ack(_) => AckEffect(g, s, e);
    case Lost(_) =>
    case Peek(_) =>
    case Book(_) =>
    case Skip(_) =>
  }

  lemma AckEffect(g: Graph, s: State, e: Edge)
    requires g.WellFormed() && Enabled(g, s, Ack(e))
    ensures var s' := Apply(g, s, Ack(e));
            && OthersSame(s, s', e)
            && ((s'.Claims(e.dst) == s.Claims(e.dst) && s'.Claimants(e.dst) == s.Claimants(e.dst)) || JustClaimed(g, s, s', e))
  {
    hide Graph.WellFormed;
  }

  lemma EdgeStepKeepsOnce(plan: Plan, s: State, step: Step, t: Task)
    requires plan.g.WellFormed() && !HasFork(plan) && Inv(plan.g, s) && OnceInv(plan, s) && Enabled(plan.g, s, step) && !step.Execute?
    ensures TaskOnce(plan.g, Apply(plan.g, s, step), t)
  {
    var s', e := Apply(plan.g, s, step), step.edge;
    EdgeStepEffect(plan.g, s, step);
    assert TaskOnce(plan.g, s, t);
    hide Apply, Enabled, Inv, OnceInv, Graph.WellFormed;
    assert s'.Runs(t) == s.Runs(t);
    if t in plan.g.tasks {
      if s'.Claims(t) == s.Claims(t) {
        StillClaimedAtLast(plan.g, s, s', t);
      } else {
        NotClaimedYet(plan, s, e);
        ClaimsAtLast(plan, s, s', e);
      }
    }
  }

  lemma EdgeStepKeepsWaited(plan: Plan, s: State, step: Step)
    requires plan.g.WellFormed() && OnceInv(plan, s) && Enabled(plan.g, s, step) && !step.Execute?
    ensures forall e :: EdgeOnce(Apply(plan.g, s, step), e)
    ensures forall a, x :: HasWaited(plan, Apply(plan.g, s, step), a, x)
  {
    var s' := Apply(plan.g, s, step);
    EdgeStepEffect(plan.g, s, step);
    hide Apply, Enabled;
    forall e ensures EdgeOnce(s', e) { assert EdgeOnce(s, e) && s'.Runs(e.src) == s.Runs(e.src); }
    forall a, x ensures HasWaited(plan, s', a, x) { assert HasWaited(plan, s, a, x) && s'.Runs(x) == s.Runs(x); }
  }

  lemma ExecuteEffect(g: Graph, s: State, t: Task)
    requires g.WellFormed() && Enabled(g, s, Execute(t))
    ensures var s' := Apply(g, s, Execute(t));
            && s'.claims == s.claims && s'.claimants == s.claimants
            && (forall x :: s'.Runs(x) == s.Runs(x) + if x == t then 1 else 0)
            && (forall e {:trigger s'.owes[e]} :: s'.owes[e] == s.owes[e] + if IsEdge(g, e) && e.src == t then 1 else 0)
  {
    var s' := Apply(g, s, Execute(t));
    forall e ensures s'.owes[e] == s.owes[e] + if IsEdge(g, e) && e.src == t then 1 else 0 {
      assert e in g.OutEdges(t) <==> IsEdge(g, e) && e.src == t by { assert e == Edge(e.src, e.dst); }
    }
  }

  lemma ExecuteKeepsOnce(plan: Plan, s: State, z: Task, t: Task)
    requires plan.g.WellFormed() && Inv(plan.g, s) && OnceInv(plan, s) && Enabled(plan.g, s, Execute(z))
    ensures TaskOnce(plan.g, Apply(plan.g, s, Execute(z)), t)
  {
    var s' := Apply(plan.g, s, Execute(z));
    ExecuteEffect(plan.g, s, z);
    assert TaskOnce(plan.g, s, t) && TaskOnce(plan.g, s, z) && TaskRight(plan.g, s, t);
    assert s.Runs(z) == 0 && s.Claims(z) > 0;
    hide Apply, Enabled, Inv, OnceInv;
    if t in plan.g.tasks {
      assert s'.Claims(t) == s.Claims(t) && s'.Claimants(t) == s.Claimants(t);
      forall c | c in plan.g.deps[t] && Edge(c, t) in s'.owes && s.Claims(t) > 0 ensures Edge(c, t) in s.owes {
        assert s'.owes[Edge(c, t)] == s.owes[Edge(c, t)] + if IsEdge(plan.g, Edge(c, t)) && c == z then 1 else 0;
      }
      StillClaimedAtLast(plan.g, s, s', t);
    }
  }

  /** Who made the claim of z comes last of its dependencies, and has waited for the others. */
  lemma AllAboveOver(plan: Plan, s: State, z: Task, a: Task)
    requires plan.g.WellFormed() && Inv(plan.g, s) && OnceInv(plan, s) && plan.g.Above(a, z)
    requires Enabled(plan.g, s, Execute(z)) && Waits(plan, s, Execute(z))
    ensures Acknowledged(plan, s, a)
  {
    assert TaskOnce(plan.g, s, z) && TaskRight(plan.g, s, z);
    var d :| ClaimedAtLast(plan.g, s, z, d);
    assert Acknowledged(plan, s, d) && s.Runs(d) > 0;
    if a != d {
      if a !in plan.g.deps[z] {
        var y :| y in plan.g.deps[z] && plan.g.Above(a, y);
        if y != d { AboveTransitive(plan.g, a, y, d); }
      }
      assert HasWaited(plan, s, a, d);
    }
  }

  lemma ExecuteKeepsWaited(plan: Plan, s: State, z: Task, a: Task, x: Task)
    requires plan.g.WellFormed() && Inv(plan.g, s) && OnceInv(plan, s) && Enabled(plan.g, s, Execute(z)) && Waits(plan, s, Execute(z))
    ensures HasWaited(plan, Apply(plan.g, s, Execute(z)), a, x)
  {
    var s' := Apply(plan.g, s, Execute(z));
    if plan.g.Above(a, x) && s'.Runs(x) > 0 {
      ExecuteEffect(plan.g, s, z);
      assert TaskOnce(plan.g, s, z) && TaskRight(plan.g, s, x) && HasWaited(plan, s, a, x);
      assert s.Claims(x) > 0 && s.Runs(z) == 0;
      AboveRan(plan.g, s, a, x);
      if x == z { AllAboveOver(plan, s, z, a); }
      hide Apply, Enabled, Inv, OnceInv, Waits;
      forall y | plan.g.HasEdge(a, y) && !plan.Holdable(a, y) ensures Edge(a, y) !in s'.owes {
        assert s'.owes[Edge(a, y)] == s.owes[Edge(a, y)] + if IsEdge(plan.g, Edge(a, y)) && a == z then 1 else 0;
      }
    }
  }

  lemma StepKeepsOnce(plan: Plan, s: State, step: Step)
    requires plan.g.WellFormed() && !HasFork(plan) && Inv(plan.g, s) && OnceInv(plan, s) && Enabled(plan.g, s, step) && Waits(plan, s, step)
    ensures OnceInv(plan, Apply(plan.g, s, step))
  {
    var s' := Apply(plan.g, s, step);
    if step.Execute? {
      ExecuteEffect(plan.g, s, step.t);
      hide Apply, Enabled, Inv, Waits, TaskOnce, HasWaited, HasFork;
      forall t ensures TaskOnce(plan.g, s', t) { ExecuteKeepsOnce(plan, s, step.t, t); }
      forall e ensures EdgeOnce(s', e) { assert EdgeOnce(s, e); }
      forall a, x ensures HasWaited(plan, s', a, x) { ExecuteKeepsWaited(plan, s, step.t, a, x); }
    } else {
      hide Apply, Enabled, Inv, Waits, TaskOnce, HasWaited, HasFork;
      forall t ensures TaskOnce(plan.g, s', t) { EdgeStepKeepsOnce(plan, s, step, t); }
      EdgeStepKeepsWaited(plan, s, step);
    }
  }

  lemma {:induction false} InOrderOnce(plan: Plan, s: State, steps: seq<Step>, s': State)
    requires plan.g.WellFormed() && !HasFork(plan) && Inv(plan.g, s) && OnceInv(plan, s) && LeadsTo(plan, s, steps, s')
    ensures OnceInv(plan, s')
    decreases |steps|
  {
    hide Inv, OnceInv, Apply, Enabled, Waits, HasFork;
    if steps != [] {
      StepKeepsInv(plan.g, s, steps[0]);
      StepKeepsOnce(plan, s, steps[0]);
      InOrderOnce(plan, Apply(plan.g, s, steps[0]), steps[1..], s');
    }
  }

  lemma InitOnce(plan: Plan)
    requires plan.g.WellFormed()
    ensures Inv(plan.g, Init(plan.g)) && OnceInv(plan, Init(plan.g))
  {
  }

  lemma OnceWithoutFork(plan: Plan, s: State, t: Task)
    requires plan.g.WellFormed() && !HasFork(plan) && InOrder(plan, s) && t in plan.g.tasks
    ensures s.Claims(t) <= 1
  {
    InitOnce(plan);
    hide Inv, Init, LeadsTo, HasFork;
    var steps :| LeadsTo(plan, Init(plan.g), steps, s);
    InOrderOnce(plan, Init(plan.g), steps, s);
    assert TaskOnce(plan.g, s, t);
  }

  // ---- With every lowest fork ------------------------------------------------

  lemma {:induction false} LeadsToMore(plan: Plan, s: State, steps: seq<Step>, s': State, step: Step)
    requires plan.g.WellFormed() && LeadsTo(plan, s, steps, s') && Enabled(plan.g, s', step) && Waits(plan, s', step)
    ensures LeadsTo(plan, s, steps + [step], Apply(plan.g, s', step))
    decreases |steps|
  {
    hide Apply, Enabled, Waits;
    if steps == [] {
      assert [step][1..] == [];
      assert LeadsTo(plan, Apply(plan.g, s', step), [], Apply(plan.g, s', step));
    } else {
      LeadsToMore(plan, Apply(plan.g, s, steps[0]), steps[1..], s', step);
      assert (steps + [step])[1..] == steps[1..] + [step];
    }
  }

  lemma OneStep(plan: Plan, s: State, step: Step)
    requires plan.g.WellFormed() && InOrder(plan, s) && Enabled(plan.g, s, step) && Waits(plan, s, step)
    ensures InOrder(plan, Apply(plan.g, s, step))
  {
    hide Apply, Enabled, Waits, Init;
    var steps :| LeadsTo(plan, Init(plan.g), steps, s);
    LeadsToMore(plan, Init(plan.g), steps, s, step);
  }

  /** The effect of a SETBIT and GET, with its reply or without. */
  lemma TrySetBit(plan: Plan, s: State, step: Step) returns (s': State)
    requires plan.g.WellFormed() && InOrder(plan, s) && (step.Ack? || step.Lost?) && step.edge in s.owes && step.edge.dst in plan.g.tasks
    ensures InOrder(plan, s') && s'.runs == s.runs
    ensures s'.owes == if step.Ack? then s.owes - multiset{step.edge} else s.owes
    ensures forall t :: s'.Bits(t) == s.Bits(t) + if t == step.edge.dst then {step.edge.src} else {}
    ensures var full := step.Ack? && plan.g.deps[step.edge.dst] <= s'.Bits(step.edge.dst);
            forall t {:trigger s'.Claims(t)} {:trigger s'.Claimants(t)} ::
              && s'.Claims(t) == s.Claims(t) + (if t == step.edge.dst && full then 1 else 0)
              && s'.Claimants(t) == s.Claimants(t) + (if t == step.edge.dst && full then {step.edge.src} else {})
  {
    hide InOrder, Graph.WellFormed;
    OneStep(plan, s, step);
    s' := Apply(plan.g, s, step);
  }

  /** What is known of x when `over` are its dependencies whose counts are over. */
  ghost predicate ClaimedIfOver(g: Graph, s: State, over: set<Task>, x: Task)
    requires g.WellFormed() && x in g.tasks
  {
    && s.Bits(x) == over <= g.deps[x] && s.Claims(x) == (if over == g.deps[x] then 1 else 0)
    && s.Claimants(x) <= g.deps[x] && (over == g.deps[x] != {} ==> s.Claimants(x) != {})
  }

  ghost function Over(g: Graph, done: set<Task>, held: set<Edge>, x: Task): set<Task>
    requires g.WellFormed() && x in g.tasks
  {
    set d | d in g.deps[x] && d in done && Edge(d, x) !in held
  }

  ghost predicate RunsAre(s: State, done: set<Task>) {
    forall x {:trigger s.Runs(x)} :: s.Runs(x) == if x in done then 1 else 0
  }

  ghost predicate OwesAre(g: Graph, s: State, done: set<Task>, held: set<Edge>)
    requires g.WellFormed()
  {
    forall e {:trigger s.owes[e]} :: s.owes[e] == if IsEdge(g, e) && e.src in done && e in held then 1 else 0
  }

  /** The tasks `done` ran once each; all their counts were acknowledged, but for the edges `held`. */
  ghost predicate Tidy(plan: Plan, s: State, done: set<Task>, held: set<Edge>)
    requires plan.g.WellFormed()
  {
    && InOrder(plan, s) && done <= plan.g.tasks && RunsAre(s, done) && OwesAre(plan.g, s, done, held)
    && (forall x {:trigger Over(plan.g, done, held, x)} :: x in plan.g.tasks ==> ClaimedIfOver(plan.g, s, Over(plan.g, done, held, x), x))
  }

  /** z can be run although the edges `held` are not counted. */
  ghost predicate Unhindered(plan: Plan, done: set<Task>, held: set<Edge>, z: Task)
    requires plan.g.WellFormed() && z in plan.g.tasks
  {
    && plan.g.deps[z] <= done
    && (forall d :: d in plan.g.deps[z] ==> Edge(d, z) !in held && forall e :: e in held && e.src == d ==> plan.Holdable(d, e.dst))
  }

  lemma TidyStart(plan: Plan, held: set<Edge>) returns (s: State)
    requires plan.g.WellFormed()
    ensures Tidy(plan, s, {}, held)
  {
    s := Init(plan.g);
    assert LeadsTo(plan, s, [], s);
    hide LeadsTo;
    forall x | x in plan.g.tasks ensures ClaimedIfOver(plan.g, s, Over(plan.g, {}, held, x), x) {
      assert Over(plan.g, {}, held, x) == {};
    }
  }

  /** From s to s1, z has been executed. */
  ghost predicate JustRan(g: Graph, s: State, s1: State, z: Task)
    requires g.WellFormed()
  {
    && s1.bits == s.bits && s1.claims == s.claims && s1.claimants == s.claimants
    && (forall x {:trigger s1.Runs(x)} :: s1.Runs(x) == s.Runs(x) + if x == z then 1 else 0)
    && (forall e {:trigger s1.owes[e]} :: s1.owes[e] == s.owes[e] + if IsEdge(g, e) && e.src == z then 1 else 0)
  }

  lemma CanExecute(plan: Plan, s: State, done: set<Task>, held: set<Edge>, z: Task)
    requires plan.g.WellFormed() && Tidy(plan, s, done, held) && z in plan.g.tasks && z !in done && Unhindered(plan, done, held, z)
    ensures Enabled(plan.g, s, Execute(z)) && Waits(plan, s, Execute(z))
  {
    hide InOrder;
    assert Over(plan.g, done, held, z) == plan.g.deps[z];
    assert ClaimedIfOver(plan.g, s, plan.g.deps[z], z) && s.Runs(z) == 0;
    if plan.g.deps[z] != {} {
      var d :| d in s.Claimants(z);
      hide Plan.Holdable;
      forall x | plan.g.HasEdge(d, x) && !plan.Holdable(d, x) ensures Edge(d, x) !in s.owes { assert s.owes[Edge(d, x)] == 0; }
      assert Acknowledged(plan, s, d);
    }
  }

  lemma ExecuteNext(plan: Plan, s: State, done: set<Task>, held: set<Edge>, z: Task) returns (s': State)
    requires plan.g.WellFormed() && Tidy(plan, s, done, held) && z in plan.g.tasks && z !in done && Unhindered(plan, done, held, z)
    ensures InOrder(plan, s') && JustRan(plan.g, s, s', z)
  {
    CanExecute(plan, s, done, held, z);
    ExecuteEffect(plan.g, s, z);
    s' := Apply(plan.g, s, Execute(z));
    assert s'.bits == s.bits;
    hide InOrder, Enabled, Waits, Apply;
    OneStep(plan, s, Execute(z));
  }

  /** ... when those of z into xs are, as well. */
  ghost function OverWith(g: Graph, done: set<Task>, held: set<Edge>, z: Task, xs: set<Task>, x: Task): set<Task>
    requires g.WellFormed() && x in g.tasks
  {
    if x in xs then Over(g, done, held, x) + {z} else Over(g, done, held, x)
  }

  /** From s to s', the edges from z to xs have been counted, and that acknowledged. */
  ghost predicate AckedOut(g: Graph, s: State, s': State, done: set<Task>, held: set<Edge>, z: Task, xs: set<Task>)
    requires g.WellFormed()
  {
    && s'.runs == s.runs
    && (forall e {:trigger s'.owes[e]} :: s'.owes[e] + (if e.src == z && e.dst in xs then 1 else 0) == s.owes[e])
    && (forall x :: x in g.tasks ==> ClaimedIfOver(g, s', OverWith(g, done, held, z, xs, x), x))
  }

  lemma AckOne(plan: Plan, s: State, over: set<Task>, z: Task, x: Task) returns (s': State)
    requires plan.g.WellFormed() && InOrder(plan, s) && plan.g.HasEdge(z, x) && z !in over && Edge(z, x) in s.owes && ClaimedIfOver(plan.g, s, over, x)
    ensures InOrder(plan, s') && s'.runs == s.runs && s'.owes == s.owes - multiset{Edge(z, x)} && ClaimedIfOver(plan.g, s', over + {z}, x)
    ensures forall y :: y != x ==> s'.Bits(y) == s.Bits(y) && s'.Claims(y) == s.Claims(y) && s'.Claimants(y) == s.Claimants(y)
  {
    hide InOrder;
    s' := TrySetBit(plan, s, Ack(Edge(z, x)));
    hide Graph.WellFormed;
  }

  lemma AckNothing(g: Graph, s: State, done: set<Task>, held: set<Edge>, z: Task)
    requires g.WellFormed() && forall x :: x in g.tasks ==> ClaimedIfOver(g, s, Over(g, done, held, x), x)
    ensures AckedOut(g, s, s, done, held, z, {})
  {
    hide ClaimedIfOver, Over;
  }

  lemma {:induction false} AckOut(plan: Plan, s: State, done: set<Task>, held: set<Edge>, z: Task, xs: set<Task>) returns (s': State)
    requires plan.g.WellFormed() && InOrder(plan, s) && z !in done
    requires forall x :: x in xs ==> plan.g.HasEdge(z, x) && Edge(z, x) in s.owes
    requires forall x :: x in plan.g.tasks ==> ClaimedIfOver(plan.g, s, Over(plan.g, done, held, x), x)
    ensures InOrder(plan, s') && AckedOut(plan.g, s, s', done, held, z, xs)
    decreases |xs|
  {
    hide InOrder, ClaimedIfOver, Over;
    if xs == {} {
      s' := s;
      AckNothing(plan.g, s, done, held, z);
    } else {
      var x :| x in xs;
      var s1 := AckOut(plan, s, done, held, z, xs - {x});
      StillOwes(plan.g, s, s1, done, held, z, xs - {x}, x);
      s' := AckOne(plan, s1, Over(plan.g, done, held, x), z, x);
      OneMoreAcked(plan.g, s, s1, s', done, held, z, xs, x);
    }
  }

  lemma StillOwes(g: Graph, s: State, s1: State, done: set<Task>, held: set<Edge>, z: Task, xs: set<Task>, x: Task)
    requires g.WellFormed() && AckedOut(g, s, s1, done, held, z, xs) && x !in xs && x in g.tasks && z !in done
    ensures s1.owes[Edge(z, x)] == s.owes[Edge(z, x)] && ClaimedIfOver(g, s1, Over(g, done, held, x), x) && z !in Over(g, done, held, x)
  {
    assert OverWith(g, done, held, z, xs, x) == Over(g, done, held, x);
    hide ClaimedIfOver, OverWith;
  }

  lemma OneMoreAcked(g: Graph, s: State, s1: State, s': State, done: set<Task>, held: set<Edge>, z: Task, xs: set<Task>, x: Task)
    requires g.WellFormed() && x in xs && x in g.tasks && AckedOut(g, s, s1, done, held, z, xs - {x}) && Edge(z, x) in s1.owes
    requires s'.runs == s1.runs && s'.owes == s1.owes - multiset{Edge(z, x)} && ClaimedIfOver(g, s', Over(g, done, held, x) + {z}, x)
    requires forall y :: y != x ==> s'.Bits(y) == s1.Bits(y) && s'.Claims(y) == s1.Claims(y) && s'.Claimants(y) == s1.Claimants(y)
    ensures AckedOut(g, s, s', done, held, z, xs)
  {
    hide ClaimedIfOver, Over;
    forall y | y in g.tasks ensures ClaimedIfOver(g, s', OverWith(g, done, held, z, xs, y), y) {
      if y != x { SameClaimed(g, s1, s', OverWith(g, done, held, z, xs - {x}, y), y); }
    }
    hide Graph.WellFormed, OverWith;
    OneMoreOwes(s, s1, s', z, xs, x);
  }

  lemma OneMoreOwes(s: State, s1: State, s': State, z: Task, xs: set<Task>, x: Task)
    requires x in xs && s'.owes == s1.owes - multiset{Edge(z, x)} && Edge(z, x) in s1.owes
    requires forall e {:trigger s1.owes[e]} :: s1.owes[e] + (if e.src == z && e.dst in xs - {x} then 1 else 0) == s.owes[e]
    ensures forall e {:trigger s'.owes[e]} :: s'.owes[e] + (if e.src == z && e.dst in xs then 1 else 0) == s.owes[e]
  {
    forall e ensures s'.owes[e] + (if e.src == z && e.dst in xs then 1 else 0) == s.owes[e] {
      assert e == Edge(e.src, e.dst);
      assert s1.owes[e] + (if e.src == z && e.dst in xs - {x} then 1 else 0) == s.owes[e];
    }
  }

  lemma SameClaimed(g: Graph, s: State, s': State, over: set<Task>, y: Task)
    requires g.WellFormed() && y in g.tasks && ClaimedIfOver(g, s, over, y)
    requires s'.Bits(y) == s.Bits(y) && s'.Claims(y) == s.Claims(y) && s'.Claimants(y) == s.Claimants(y)
    ensures ClaimedIfOver(g, s', over, y)
  {
  }

  /** The dependents of z whose edges are not held. */
  ghost function FreeOf(g: Graph, held: set<Edge>, z: Task): set<Task>
    requires g.WellFormed()
  {
    set x | x in g.Downstream(z) && Edge(z, x) !in held
  }

  /** z is run, and its out-edges are counted unless they are held. */
  lemma RunOne(plan: Plan, s: State, done: set<Task>, held: set<Edge>, z: Task) returns (s': State)
    requires plan.g.WellFormed() && Tidy(plan, s, done, held) && z in plan.g.tasks && z !in done && Unhindered(plan, done, held, z)
    ensures Tidy(plan, s', done + {z}, held)
  {
    var s1 := ExecuteNext(plan, s, done, held, z);
    SameClaims(plan.g, s, s1, done, held, z);
    hide InOrder, ClaimedIfOver, Over, Tidy, JustRan, Unhindered;
    s' := AckOut(plan, s1, done, held, z, FreeOf(plan.g, held, z));
    RanOne(plan, s, s1, s', done, held, z);
  }

  lemma SameClaims(g: Graph, s: State, s1: State, done: set<Task>, held: set<Edge>, z: Task)
    requires g.WellFormed() && JustRan(g, s, s1, z)
    requires forall x :: x in g.tasks ==> ClaimedIfOver(g, s, Over(g, done, held, x), x)
    ensures forall x :: x in g.tasks ==> ClaimedIfOver(g, s1, Over(g, done, held, x), x)
    ensures forall x :: x in FreeOf(g, held, z) ==> g.HasEdge(z, x) && Edge(z, x) in s1.owes
  {
    forall x | x in g.tasks ensures ClaimedIfOver(g, s1, Over(g, done, held, x), x) { assert ClaimedIfOver(g, s, Over(g, done, held, x), x); }
    forall x | x in FreeOf(g, held, z) ensures g.HasEdge(z, x) && Edge(z, x) in s1.owes {
      assert s1.owes[Edge(z, x)] >= 1;
    }
  }

  lemma RanOne(plan: Plan, s: State, s1: State, s': State, done: set<Task>, held: set<Edge>, z: Task)
    requires plan.g.WellFormed() && Tidy(plan, s, done, held) && z in plan.g.tasks && z !in done && InOrder(plan, s')
    requires JustRan(plan.g, s, s1, z) && AckedOut(plan.g, s1, s', done, held, z, FreeOf(plan.g, held, z))
    ensures Tidy(plan, s', done + {z}, held)
  {
    assert s'.runs == s1.runs;
    hide InOrder, OwesAre, RunsAre, JustRan, FreeOf, ClaimedIfOver, Over, OverWith, Graph.WellFormed;
    RanOwes(plan.g, s, s1, s', done, held, z);
    RanRuns(plan.g, s, s1, s', done, z);
    forall x | x in plan.g.tasks ensures ClaimedIfOver(plan.g, s', Over(plan.g, done + {z}, held, x), x) {
      OverMore(plan.g, done, held, z, x);
    }
    hide AckedOut;
  }

  lemma OverMore(g: Graph, done: set<Task>, held: set<Edge>, z: Task, x: Task)
    requires g.WellFormed() && x in g.tasks && z !in done
    ensures Over(g, done + {z}, held, x) == OverWith(g, done, held, z, FreeOf(g, held, z), x)
  {
  }

  lemma RanRuns(g: Graph, s: State, s1: State, s': State, done: set<Task>, z: Task)
    requires g.WellFormed() && RunsAre(s, done) && JustRan(g, s, s1, z) && s'.runs == s1.runs && z !in done
    ensures RunsAre(s', done + {z})
  {
    forall x ensures s'.Runs(x) == if x in done + {z} then 1 else 0 { assert s1.Runs(x) == s.Runs(x) + if x == z then 1 else 0; }
  }

  lemma RanOwes(g: Graph, s: State, s1: State, s': State, done: set<Task>, held: set<Edge>, z: Task)
    requires g.WellFormed() && OwesAre(g, s, done, held) && z !in done
    requires JustRan(g, s, s1, z) && AckedOut(g, s1, s', done, held, z, FreeOf(g, held, z))
    ensures OwesAre(g, s', done + {z}, held)
  {
    forall e ensures s'.owes[e] == if IsEdge(g, e) && e.src in done + {z} && e in held then 1 else 0 {
      assert e == Edge(e.src, e.dst) && (IsEdge(g, e) <==> e.dst in g.Downstream(e.src));
      assert s1.owes[e] == s.owes[e] + if IsEdge(g, e) && e.src == z then 1 else 0;
      assert s'.owes[e] + (if e.src == z && e.dst in FreeOf(g, held, z) then 1 else 0) == s1.owes[e];
    }
  }

  lemma {:induction false} RunAll(plan: Plan, s: State, done: set<Task>, held: set<Edge>, goal: set<Task>) returns (s': State)
    requires plan.g.WellFormed() && Tidy(plan, s, done, held) && done <= goal <= plan.g.tasks
    requires forall z :: z in goal ==> Unhindered(plan, goal, held, z)
    ensures Tidy(plan, s', goal, held)
    decreases goal - done
  {
    hide Tidy;
    if done == goal {
      s' := s;
    } else {
      var z := NextOf(plan.g, done, {}, goal);
      var s1 := RunOne(plan, s, done, held, z);
      assert z in goal - done && z !in goal - (done + {z});
      s' := RunAll(plan, s1, done + {z}, held, goal);
    }
  }

  /** One reply is lost, another count completes the bitmap, the first is tried again: t has two
      claims. */
  lemma RetryClaimsAgain(plan: Plan, s: State, t: Task, a: Task, b: Task) returns (s': State)
    requires plan.g.WellFormed() && InOrder(plan, s) && Edge(a, t) in s.owes && Edge(b, t) in s.owes && a != b
    requires t in plan.g.tasks && {a, b} <= plan.g.deps[t] && s.Claims(t) == 0 && s.Bits(t) == plan.g.deps[t] - {a, b}
    ensures InOrder(plan, s') && s'.Claims(t) == 2
  {
    hide InOrder, Graph.WellFormed;
    assert Edge(a, t) != Edge(b, t);
    var s1 := TrySetBit(plan, s, Lost(Edge(a, t)));
    var s2 := TrySetBit(plan, s1, Ack(Edge(b, t)));
    s' := TrySetBit(plan, s2, Ack(Edge(a, t)));
  }

  /** b -> t may be counted after all that needs b has run. */
  ghost predicate LastOrHeld(plan: Plan, b: Task, t: Task)
    requires plan.g.WellFormed()
  {
    plan.g.HasEdge(b, t) && (Last(plan.g, b, t) || plan.Holdable(b, t))
  }

  lemma AboveUnhindered(plan: Plan, t: Task, a: Task, b: Task)
    requires plan.g.WellFormed() && Last(plan.g, a, t) && LastOrHeld(plan, b, t)
    ensures AllAbove(plan.g, t) <= plan.g.tasks && plan.g.deps[t] <= AllAbove(plan.g, t)
    ensures forall z :: z in AllAbove(plan.g, t) ==> Unhindered(plan, AllAbove(plan.g, t), {Edge(a, t), Edge(b, t)}, z)
  {
    AboveIsClosed(plan.g, a, a, t);
    hide Plan.Holdable;
    forall z | z in AllAbove(plan.g, t) ensures Unhindered(plan, AllAbove(plan.g, t), {Edge(a, t), Edge(b, t)}, z) {
      AboveNotHeld(plan.g, a, t, z);
      if Last(plan.g, b, t) { AboveNotHeld(plan.g, b, t, z); }
    }
  }

  lemma LastsClaimTwice(plan: Plan, t: Task, a: Task, b: Task) returns (s: State)
    requires plan.g.WellFormed() && Last(plan.g, a, t) && LastOrHeld(plan, b, t) && a != b
    ensures InOrder(plan, s) && s.Claims(t) == 2
  {
    AboveUnhindered(plan, t, a, b);
    var done, held := AllAbove(plan.g, t), {Edge(a, t), Edge(b, t)};
    hide Tidy, AllAbove, InOrder, Unhindered, Plan.Holdable;
    s := TidyStart(plan, held);
    s := RunAll(plan, s, {}, held, done);
    TwoShort(plan, s, done, t, a, b);
    s := RetryClaimsAgain(plan, s, t, a, b);
  }

  lemma TwoShort(plan: Plan, s: State, done: set<Task>, t: Task, a: Task, b: Task)
    requires plan.g.WellFormed() && Tidy(plan, s, done, {Edge(a, t), Edge(b, t)}) && plan.g.HasEdge(a, t) && plan.g.HasEdge(b, t)
    requires a != b && plan.g.deps[t] <= done
    ensures InOrder(plan, s) && Edge(a, t) in s.owes && Edge(b, t) in s.owes && s.Claims(t) == 0 && s.Bits(t) == plan.g.deps[t] - {a, b}
  {
    hide InOrder;
    assert Over(plan.g, done, {Edge(a, t), Edge(b, t)}, t) == plan.g.deps[t] - {a, b};
    assert ClaimedIfOver(plan.g, s, plan.g.deps[t] - {a, b}, t);
    assert s.owes[Edge(a, t)] == 1 && s.owes[Edge(b, t)] == 1;
  }

  /** With no fork so low, all that is above a task comes in one line. */
  lemma {:induction false} AboveInLine(plan: Plan, m: Task, x: Task, y: Task)
    requires plan.g.WellFormed() && plan.g.Above(x, m) && plan.g.Above(y, m) && x != y
    requires forall t, p, q :: t in plan.g.tasks && plan.g.level[t] <= plan.g.level[m] ==> !Fork(plan, t, p, q)
    ensures plan.g.Above(x, y) || plan.g.Above(y, x)
    decreases plan.g.level[m], 1
  {
    var p :| p in plan.g.deps[m] && (x == p || plan.g.Above(x, p));
    var q :| q in plan.g.deps[m] && (y == q || plan.g.Above(y, q));
    assert !Fork(plan, m, p, q);
    hide Plan.Holdable;
    if p == q {
      InLineThrough(plan, m, p, x, y);
    } else if plan.g.Above(p, q) {
      if x != p { AboveTransitive(plan.g, x, p, q); }
      InLineThrough(plan, m, q, x, y);
    } else {
      if y != q { AboveTransitive(plan.g, y, q, p); }
      InLineThrough(plan, m, p, x, y);
    }
  }

  lemma InLineThrough(plan: Plan, m: Task, p: Task, x: Task, y: Task)
    requires plan.g.WellFormed() && plan.g.HasEdge(p, m) && (x == p || plan.g.Above(x, p)) && (y == p || plan.g.Above(y, p)) && x != y
    requires forall t, p, q :: t in plan.g.tasks && plan.g.level[t] <= plan.g.level[m] ==> !Fork(plan, t, p, q)
    ensures plan.g.Above(x, y) || plan.g.Above(y, x)
    decreases plan.g.level[m], 0
  {
    if x != p && y != p { AboveInLine(plan, p, x, y); }
  }

  /** The counts of two dependencies of a lowest fork can overlap. */
  lemma TwoToOverlap(plan: Plan, t: Task, x: Task, y: Task) returns (a: Task, b: Task)
    requires plan.g.WellFormed() && Fork(plan, t, x, y)
    requires forall t', p, q :: t' in plan.g.tasks && plan.g.level[t'] < plan.g.level[t] ==> !Fork(plan, t', p, q)
    ensures Last(plan.g, a, t) && LastOrHeld(plan, b, t) && a != b
  {
    a := Highest(plan.g, t, plan.g.deps[t]);
    var rest := set c | c in plan.g.deps[t] && c != a && !plan.g.Above(c, a);
    hide Plan.Holdable;
    if c :| c in rest {
      b := MaxLevel(plan.g, rest);
      forall c | c in plan.g.deps[t] ensures !plan.g.Above(b, c) {
        if plan.g.Above(b, c) {
          AboveIsLower(plan.g, b, c);
          if plan.g.Above(c, a) { AboveTransitive(plan.g, b, c, a); }
        }
      }
    } else {
      assert forall c :: c in plan.g.deps[t] && c != a ==> plan.g.Above(c, a) by { AllButRest(plan.g, t, a, rest); }
      if x != a && y != a { AboveInLine(plan, a, x, y); }
      b := if x != a && (y == a || plan.g.Above(x, y)) then x else y;
    }
  }

  lemma AllButRest(g: Graph, t: Task, a: Task, rest: set<Task>)
    requires g.WellFormed() && t in g.tasks && rest == set c | c in g.deps[t] && c != a && !g.Above(c, a)
    requires forall c :: c !in rest
    ensures forall c :: c in g.deps[t] && c != a ==> g.Above(c, a)
  {
    forall c | c in g.deps[t] && c != a ensures g.Above(c, a) { assert c !in rest; }
  }

  lemma Highest(g: Graph, t: Task, ds: set<Task>) returns (a: Task)
    requires g.WellFormed() && t in g.tasks && ds == g.deps[t] && ds != {}
    ensures Last(g, a, t)
  {
    a := MaxLevel(g, ds);
    forall c | c in g.deps[t] ensures !g.Above(a, c) { if g.Above(a, c) { AboveIsLower(g, a, c); } }
  }

  /** Lost replies can make some task be claimed twice, and so run twice, if and only if a task has
      two dependencies of which neither has to wait for the count of the other. */
  lemma TwiceExactlyWhenForked(plan: Plan)
    requires plan.g.WellFormed()
    ensures CanClaimTwice(plan) <==> HasFork(plan)
  {
    hide InOrder, Fork;
    if CanClaimTwice(plan) {
      var s, t :| InOrder(plan, s) && t in plan.g.tasks && s.Claims(t) > 1;
      if !HasFork(plan) { OnceWithoutFork(plan, s, t); }
    }
    if HasFork(plan) {
      var t, x, y := LowestFork(plan);
      var a, b := TwoToOverlap(plan, t, x, y);
      var s := LastsClaimTwice(plan, t, a, b);
    }
  }

  lemma LowestFork(plan: Plan) returns (t: Task, x: Task, y: Task)
    requires plan.g.WellFormed() && HasFork(plan)
    ensures Fork(plan, t, x, y)
    ensures forall t', p, q :: t' in plan.g.tasks && plan.g.level[t'] < plan.g.level[t] ==> !Fork(plan, t', p, q)
  {
    var forks := set t | t in plan.g.tasks && exists x, y :: Fork(plan, t, x, y);
    var t0, x0, y0 :| Fork(plan, t0, x0, y0);
    assert t0 in forks;
    t := MinLevel(plan.g, forks);
    x, y :| Fork(plan, t, x, y);
    forall t', p, q | t' in plan.g.tasks && plan.g.level[t'] < plan.g.level[t] ensures !Fork(plan, t', p, q) {
      assert t' !in forks;
    }
  }
}
