/** The static schedule that the executors follow. */
module Plans {
  import opened Graphs
  import opened RedisBits

  /** The static schedule: each task's out-edges, split into the one task its executor may
      become and the tasks to invoke; the bit of each dependency; and what the sizes,
      names and configuration of tasks decide. */
  datatype Plan = Plan(
    g: Graph,
    become: map<Task, Task>,
    invoke: map<Task, seq<Task>>,
    offset: map<Task, map<Task, nat>>,
    big: set<Task>,                   // results at or over the big-task threshold
    proxied: set<Task>,               // tasks whose fan-out goes through the proxy
    mayMeetBig: set<Edge>,            // another dependency of dst shares src's name prefix
    useTaskQueue: bool,               // big tasks may use the delayed queue
    useBits: bool)                    // dependency counters are bitmaps
  {
    function InvokeOf(d: Task): seq<Task> { if d in invoke then invoke[d] else [] }

    function Downstream(d: Task): seq<Task> {
      (if d in become then [become[d]] else []) + InvokeOf(d)
    }

    /** Each task's path node lists its out-edges once each, and names a task to become
        unless there are none. */
    ghost predicate ListsOutEdges()
      requires g.WellFormed()
    {
      forall d :: d in g.tasks ==>
        && (forall t :: t in Downstream(d) <==> t in g.Downstream(d))
        && (forall i, j :: 0 <= i < j < |Downstream(d)| ==> Downstream(d)[i] != Downstream(d)[j])
        && (Downstream(d) != [] ==> d in become)
    }

    /** Each dependency of t has its own bit below the number of dependencies. */
    ghost predicate AssignsBits()
      requires g.WellFormed()
    {
      && offset.Keys == g.tasks
      && (forall t :: t in g.tasks ==> offset[t].Keys == g.deps[t] && GoodOffsets(offset[t]))
    }

    ghost predicate WellFormed() {
      g.WellFormed() && ListsOutEdges() && AssignsBits()
    }

    // ---- What happens to the edge d -> t --------------------------------------

    predicate BecomeEdge(d: Task, t: Task) { d in become && become[d] == t }

    /** d's fan-out goes through the proxy. */
    predicate FansOut(d: Task) { d in proxied && d !in big }

    /** The proxy counts it. */
    predicate ToProxy(d: Task, t: Task) { FansOut(d) && !BecomeEdge(d, t) }

    /** It may be put into the delayed queue. */
    predicate Holdable(d: Task, t: Task) { d in big && useTaskQueue && Edge(d, t) !in mayMeetBig }

    /** If it is the last to be counted, t may be invoked on a new Lambda.  A task pulled down
        by a big one, and one that an executor becomes instead of leaving it to the proxy, stay. */
    predicate Mobile(d: Task, t: Task) { d !in big && (FansOut(d) ==> !BecomeEdge(d, t)) }

    /** It may be counted before d's value is stored. */
    predicate Owable(d: Task, t: Task) { Holdable(d, t) || (FansOut(d) && BecomeEdge(d, t)) }

    /** Some executor may come to t otherwise than by pulling it down below a big task. */
    ghost predicate NotOnlyPulledDown(t: Task)
      requires g.WellFormed()
    {
      t in g.tasks && (g.deps[t] == {} || exists d :: d in g.deps[t] && d !in big)
    }

    /** Its executor may check without counting. */
    predicate Peekable(d: Task, t: Task) { d in big || BecomeEdge(d, t) }

    /** A check without counting never says yes for it: its bit stands alone in the last byte. */
    predicate Missed(d: Task, t: Task) {
      && useBits && t in g.deps && t in offset && d in offset[t]
      && |g.deps[t]| % 8 == 1 && offset[t][d] == |g.deps[t]| - 1
    }
  }

  ghost predicate GoodOffsets(offset: map<Task, nat>) {
    Injective(offset) && forall x :: x in offset ==> offset[x] < |offset.Keys|
  }
}
