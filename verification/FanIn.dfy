/** The decentralised fan-in protocol: executors that share a Redis store agree on
    who runs each task of a graph.  One step is one Redis call (or one local
    action) of one process; a run is any interleaving of steps.

    The dependency counter of t is kept here as the set Done(t) of dependencies
    counted so far.  Module Clusters shows that the integer counter and the bitmap
    both carry exactly that set. */
module FanIn {
  import opened Graphs

  /** Executors are numbered; number 0 is the proxy. */
  type Exec = nat

  const PROXY: Exec := 0

  /** Where an out-edge d -> t stands, once d has run.
      Waiting: not dealt with yet.  Held: in the delayed queue of d's executor.
      Taken: claimed by a peek that did not count.  Proxied: handed to the proxy.
      Settled: counted.  LeftOut: passed over, for good. */
  datatype Phase = Waiting | Held(held: Value) | Taken | Proxied | Settled | LeftOut

  /** exec has been told to run task.  A mobile claim may be handed to another executor: it
      came from a count, and not from one whose target has to stay with d's executor. */
  datatype Claim = Claim(task: Task, exec: Exec, mobile: bool)

  datatype State = State(
    phase: map<Edge, Phase>,
    claimCount: map<Task, nat>,          // how often each task was claimed
    pending: set<Claim>,                 // claims not executed yet
    runCount: map<Task, nat>,            // how often each task was executed
    ranBy: map<Task, Exec>,
    made: map<Task, Value>,              // the result in the hands of who executed the task
    store: map<Task, Value>,             // task values in Redis
    cache: map<Exec, map<Task, Value>>,  // previous_results of each executor
    owed: map<Edge, Value>,              // edges given up, counted before their value was stored
    sent: map<Task, Value>,              // values published to the proxy
    failed: set<Claim>,                  // pending claims whose executor found an input missing
    gone: set<Exec>,                     // executors that have ended
    givingUp: set<Exec>)                 // executors in the middle of giving up on their queue
  {
    ghost function Phase(d: Task, t: Task): Phase {
      if Edge(d, t) in phase then phase[Edge(d, t)] else Waiting
    }

    ghost function Claims(t: Task): nat { if t in claimCount then claimCount[t] else 0 }

    ghost function Runs(t: Task): nat { if t in runCount then runCount[t] else 0 }

    ghost function Cached(e: Exec): map<Task, Value> { if e in cache then cache[e] else map[] }

    ghost predicate Owns(e: Exec, d: Task) { d in ranBy && ranBy[d] == e }

    ghost predicate Used(e: Exec) {
      || e == PROXY || e in cache || e in gone
      || (exists c :: c in pending && c.exec == e) || (exists d :: d in ranBy && ranBy[d] == e)
    }

    ghost predicate Active(e: Exec) { Used(e) && e !in gone }
  }

  /** The dependencies of t that have been counted. */
  ghost function Done(g: Graph, s: State, t: Task): set<Task>
    requires g.WellFormed() && t in g.tasks
  {
    set d | d in g.deps[t] && s.Phase(d, t).Settled?
  }

  /** Leaves start claimed, one Lambda each; nothing else has happened. */
  ghost function Init(g: Graph, lambda: map<Task, Exec>): State
    requires g.WellFormed() && g.tasks <= lambda.Keys
  {
    State(
      map[],
      map t | t in g.tasks && g.deps[t] == {} :: 1,
      set t | t in g.tasks && g.deps[t] == {} :: Claim(t, lambda[t], true),
      map[], map[], map[], map[], map[], map[], map[], {}, {}, {})
  }

  datatype Step =
    | Fetch(e: Exec, d: Task)                       // read a dependency from Redis
    | Execute(c: Claim)                             // run a claimed task
    | Put(e: Exec, d: Task)                         // write an own result to Redis
    | Count(e: Exec, d: Task, t: Task, mobile: bool)  // count an edge whose value is stored
    | CountOwing(e: Exec, d: Task, t: Task)         // give up: count before the value is stored
    | CountSent(e: Exec, d: Task, t: Task)          // count an edge whose value the proxy will store
    | Peek(e: Exec, d: Task, t: Task)               // a check without counting that succeeds
    | Bookkeep(e: Exec, d: Task, t: Task)           // count an edge already taken by a peek
    | Hold(e: Exec, d: Task, t: Task)               // enqueue an edge of a big task
    | Send(e: Exec, d: Task)                        // publish a value to the proxy
    | Delegate(e: Exec, d: Task, t: Task)           // hand an edge to the proxy
    | LeaveOut(e: Exec, d: Task, t: Task)           // pass an edge over
    | ProxyPut(p: Exec, d: Task)                    // the proxy stores a value it was sent
    | ProxyCount(p: Exec, d: Task, t: Task)         // the proxy counts an edge
    | Pay(e: Exec, edge: Edge)                      // write the value of an edge given up
    | Evict(e: Exec, d: Task)                       // drop a cached value
    | Invoke(e: Exec, e': Exec, c: Claim, data: map<Task, Value>)  // hand a claim to a new Lambda
    | Drop(c: Claim)                                // fail to run a claimed task
    | GiveUp(e: Exec)                               // begin to give up on the delayed queue
    | Resume(e: Exec)                               // have given up, and go on
    | Quit(e: Exec)                                 // end, whatever is left to do
  {
    function Actor(): Exec {
      match this
      case Execute(c) => c.exec
      case Drop(c) => c.exec
      case ProxyPut(p, _) => p
      case ProxyCount(p, _, _) => p
      case _ => e
    }
  }

  /** An out-edge of a task that e ran and that e may still deal with. */
  ghost predicate Open(g: Graph, s: State, e: Exec, d: Task, t: Task)
    requires g.WellFormed()
  {
    g.HasEdge(d, t) && s.Owns(e, d) && (s.Phase(d, t).Waiting? || s.Phase(d, t).Held?)
  }

  /** A counting check that adds d sees every dependency of t counted. */
  ghost predicate Completes(g: Graph, s: State, d: Task, t: Task)
    requires g.WellFormed() && t in g.tasks
  {
    Done(g, s, t) + {d} == g.deps[t]
  }

  /** What a process can do.  Nothing is said yet about when it does so: any process may drop
      a claim, pass an edge over or end at any moment. */
  ghost predicate Enabled(g: Graph, s: State, step: Step)
    requires g.WellFormed()
  {
    && step.Actor() !in s.gone
    && match step
       case Fetch(e, d) => d in s.store
       case Execute(c) => c in s.pending && c !in s.failed && c.task in g.tasks && g.deps[c.task] <= s.Cached(c.exec).Keys
       case Put(e, d) => s.Owns(e, d) && d in s.made
       case Count(e, d, t, _) => Open(g, s, e, d, t) && d in s.store
       case CountOwing(e, d, t) => Open(g, s, e, d, t) && (s.Phase(d, t).Held? || d in s.Cached(e))
       case CountSent(e, d, t) => Open(g, s, e, d, t) && d in s.sent && d in s.Cached(e)
       case Peek(e, d, t) => Open(g, s, e, d, t) && Done(g, s, t) == g.deps[t] - {d}
       case Bookkeep(e, d, t) => g.HasEdge(d, t) && s.Owns(e, d) && s.Phase(d, t).Taken?
       case Hold(e, d, t) => g.HasEdge(d, t) && s.Owns(e, d) && s.Phase(d, t).Waiting? && d in s.Cached(e)
       case Send(e, d) => s.Owns(e, d) && d in s.made
       case Delegate(e, d, t) => g.HasEdge(d, t) && s.Owns(e, d) && s.Phase(d, t).Waiting? && d in s.sent
       case LeaveOut(e, d, t) => g.HasEdge(d, t) && s.Owns(e, d) && s.Phase(d, t).Waiting?
       case ProxyPut(p, d) => p == PROXY && d in s.sent
       case ProxyCount(p, d, t) => p == PROXY && g.HasEdge(d, t) && s.Phase(d, t).Proxied? && d in s.store
       case Pay(e, edge) => edge in s.owed && s.Owns(e, edge.src)
       case Evict(e, d) =>
         d in g.tasks && (forall t :: t in g.Downstream(d) ==> s.Owns(e, t) || t in s.store)
       case Invoke(e, e', c, data) =>
         && c in s.pending && c !in s.failed && c.exec == e && c.mobile && !s.Used(e')
         && (forall k :: k in data ==>
                           || (k in s.Cached(e) && data[k] == s.Cached(e)[k])
                           || (k in s.store && data[k] == s.store[k]))
       case Drop(c) => c in s.pending && c !in s.failed
       case GiveUp(e) => e != PROXY && s.Used(e) && e !in s.givingUp
       case Resume(e) => e in s.givingUp
       case Quit(e) => e != PROXY && s.Used(e)
  }

  ghost function AddClaim(s: State, c: Claim): State {
    s.(claimCount := s.claimCount[c.task := s.Claims(c.task) + 1], pending := s.pending + {c})
  }

  ghost function SetPhase(s: State, d: Task, t: Task, p: Phase): State {
    s.(phase := s.phase[Edge(d, t) := p])
  }

  ghost function Cache(s: State, e: Exec, d: Task, v: Value): State {
    s.(cache := s.cache[e := s.Cached(e)[d := v]])
  }

  /** Counting d -> c.task: whoever counts the last edge has made the claim c. */
  ghost function CountEdge(g: Graph, s: State, d: Task, c: Claim): State
    requires g.WellFormed() && c.task in g.tasks
  {
    var s' := SetPhase(s, d, c.task, Settled);
    if Completes(g, s, d, c.task) then AddClaim(s', c) else s'
  }

  /** What the claimant of c.task feeds to it. */
  ghost function Inputs(g: Graph, s: State, c: Claim): map<Task, Value>
    requires g.WellFormed() && c.task in g.tasks && g.deps[c.task] <= s.Cached(c.exec).Keys
  {
    map d | d in g.deps[c.task] :: s.Cached(c.exec)[d]
  }

  /** The effect of a step.  No case asks whether t has been claimed before: that
      this never happens is what the protocol has to achieve. */
  ghost function Apply(g: Graph, s: State, step: Step): State
    requires g.WellFormed() && Enabled(g, s, step)
  {
    match step
    case Fetch(e, d) => Cache(s, e, d, s.store[d])
    case Execute(c) =>
      var v := g.code[c.task](Inputs(g, s, c));
      Cache(s, c.exec, c.task, v).(
        pending := s.pending - {c},
        runCount := s.runCount[c.task := s.Runs(c.task) + 1],
        ranBy := s.ranBy[c.task := c.exec],
        made := s.made[c.task := v])
    case Put(e, d) => s.(store := s.store[d := s.made[d]])
    case Count(e, d, t, mobile) => CountEdge(g, s, d, Claim(t, e, mobile))
    case CountOwing(e, d, t) =>
      var s' := CountEdge(g, s, d, Claim(t, e, false));
      var v := if s.Phase(d, t).Held? then s.Phase(d, t).held else s.Cached(e)[d];
      if Completes(g, s, d, t) then s' else s'.(owed := s.owed[Edge(d, t) := v])
    case CountSent(e, d, t) => CountEdge(g, s, d, Claim(t, e, false))
    case Peek(e, d, t) => AddClaim(SetPhase(s, d, t, Taken), Claim(t, e, false))
    case Bookkeep(e, d, t) => SetPhase(s, d, t, Settled)
    case Hold(e, d, t) => SetPhase(s, d, t, Held(s.Cached(e)[d]))
    case Send(e, d) => s.(sent := s.sent[d := s.made[d]])
    case Delegate(e, d, t) => SetPhase(s, d, t, Proxied)
    case LeaveOut(e, d, t) => SetPhase(s, d, t, LeftOut)
    case ProxyPut(p, d) => s.(store := s.store[d := s.sent[d]])
    case ProxyCount(p, d, t) => CountEdge(g, s, d, Claim(t, p, true))
    case Pay(e, edge) => s.(store := s.store[edge.src := s.owed[edge]], owed := s.owed - {edge})
    case Evict(e, d) => s.(cache := s.cache[e := s.Cached(e) - {d}])
    case Invoke(e, e', c, data) =>
      s.(pending := s.pending - {c} + {Claim(c.task, e', true)}, cache := s.cache[e' := data])
    case Drop(c) => s.(failed := s.failed + {c})
    case GiveUp(e) => s.(givingUp := s.givingUp + {e})
    case Resume(e) => s.(givingUp := s.givingUp - {e})
    case Quit(e) => s.(gone := s.gone + {e})
  }

  /** steps can be taken one after the other from s. */
  ghost predicate CanRun(g: Graph, s: State, steps: seq<Step>)
    requires g.WellFormed()
    decreases |steps|
  {
    steps == [] || (Enabled(g, s, steps[0]) && CanRun(g, Apply(g, s, steps[0]), steps[1..]))
  }

  ghost function RunFrom(g: Graph, s: State, steps: seq<Step>): State
    requires g.WellFormed() && CanRun(g, s, steps)
    decreases |steps|
  {
    if steps == [] then s else RunFrom(g, Apply(g, s, steps[0]), steps[1..])
  }

  ghost predicate Reaches(g: Graph, s: State, s': State)
    requires g.WellFormed()
  {
    exists steps :: CanRun(g, s, steps) && RunFrom(g, s, steps) == s'
  }

  /** s' comes from s by steps of processes other than e. */
  ghost predicate OthersReach(g: Graph, e: Exec, s: State, s': State)
    requires g.WellFormed()
  {
    exists steps: seq<Step> ::
      && CanRun(g, s, steps) && RunFrom(g, s, steps) == s'
      && (forall i :: 0 <= i < |steps| ==> steps[i].Actor() != e)
  }

  /** Some interleaving leads from the initial state to s. */
  ghost predicate Reachable(g: Graph, s: State)
    requires g.WellFormed()
  {
    exists lambda: map<Task, Exec> :: g.tasks <= lambda.Keys && PROXY !in lambda.Values && Reaches(g, Init(g, lambda), s)
  }
}
