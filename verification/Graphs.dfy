/** Task graphs as the static scheduler hands them to the executors, and what a
    graph means: the value every task must have, whoever runs it and when. */
module Graphs {

  type Task = nat

  /** Intermediate data; nothing is assumed about it. */
  type Value(==, !new)

  datatype Edge = Edge(src: Task, dst: Task)

  /** `deps[t]` are the tasks whose values t needs, `code[t]` is t's function of
      those values, and `level` is a topological numbering. */
  datatype Graph = Graph(
    tasks: set<Task>,
    deps: map<Task, set<Task>>,
    level: map<Task, nat>,
    code: map<Task, map<Task, Value> -> Value>)
  {
    ghost predicate WellFormed() {
      && deps.Keys == tasks && level.Keys == tasks && code.Keys == tasks
      && (forall t, d :: t in tasks && d in deps[t] ==> d in tasks)
      && (forall t, d :: t in tasks && d in deps[t] ==> level[d] < level[t])
    }

    /** d -> t is an edge of the graph. */
    ghost predicate HasEdge(d: Task, t: Task)
      requires WellFormed()
    {
      t in tasks && d in deps[t]
    }

    ghost function Downstream(d: Task): set<Task>
      requires WellFormed()
    {
      set t | t in tasks && d in deps[t]
    }

    ghost function OutEdges(d: Task): set<Edge>
      requires WellFormed()
    {
      set t | t in tasks && d in deps[t] :: Edge(d, t)
    }

    ghost function Edges(): set<Edge>
      requires WellFormed()
    {
      set d, t | t in tasks && d in deps[t] :: Edge(d, t)
    }

    /** x is a direct or indirect dependency of t. */
    ghost predicate Above(x: Task, t: Task)
      requires WellFormed()
      decreases if t in tasks then level[t] else 0
    {
      t in tasks && (x in deps[t] || exists y :: y in deps[t] && Above(x, y))
    }

    /** The meaning of a task. */
    ghost function Eval(t: Task): Value
      requires WellFormed() && t in tasks
      decreases level[t]
    {
      code[t](map d | d in deps[t] :: Eval(d))
    }
  }
}
