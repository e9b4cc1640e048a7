/** The shared Redis store as the executors see it: real counters or bitmaps and real
    values, tied to the protocol state that they stand for.  Every command lets other
    processes act first, so whatever is proved about code that uses these commands
    holds for every interleaving. */
module Clusters {
  import opened Graphs
  import opened FanIn
  import opened FanInSafety
  import opened LocalViews
  import opened RedisBits
  import opened Plans
  import opened Conduct
  import opened Lists

  // ---- The two encodings of a dependency counter -----------------------------

  /** Settling d -> t adds d to what t's counter stands for, and changes no other counter. */
  lemma DoneGrows(g: Graph, s: State, s': State, d: Task, t: Task, t': Task)
    requires g.WellFormed() && g.HasEdge(d, t) && t' in g.tasks
    requires OnlyEdge(s, s', d, t)
    ensures s'.Phase(d, t).Settled? ==> Done(g, s', t') == Done(g, s, t') + if t' == t then {d} else {}
    ensures !s'.Phase(d, t).Settled? && !s.Phase(d, t).Settled? ==> Done(g, s', t') == Done(g, s, t')
  {
  }

  /** An integer counter that equals the number of counted dependencies answers both
      checks exactly. */
  lemma CounterExact(deps: set<Task>, done: set<Task>, d: Task)
    requires done <= deps && d in deps && d !in done
    ensures |done + {d}| == |done| + 1
    ensures |done| + 1 == |deps| <==> done + {d} == deps
    ensures |done| == |deps| - 1 <==> done == deps - {d}
  {
    if |done + {d}| == |deps| { SubsetOfSameSize(done + {d}, deps); }
    if |done| == |deps| - 1 { SubsetOfSameSize(done, deps - {d}); }
  }

  /** SETBIT adds the dependency, and the counting check is exact. */
  lemma BitmapCounts(offset: map<Task, nat>, bits: seq<bool>, done: set<Task>, d: Task)
    requires GoodOffsets(offset) && done <= offset.Keys && d in offset.Keys
    requires Represents(bits, Image(offset, done))
    ensures Represents(SetBit(bits, offset[d]), Image(offset, done + {d}))
    ensures CountCheck(SetBit(bits, offset[d]), |offset.Keys|) <==> done + {d} == offset.Keys
  {
    SetBitRepresents(bits, Image(offset, done), offset[d]);
    assert Image(offset, done + {d}) == Image(offset, done) + {offset[d]};
    OffsetsFaithful(offset, done + {d}, {});
    assert Image(offset, {}) == {};
    hide Represents, CountCheck, Injective;
    CountCheckExact(SetBit(bits, offset[d]), Image(offset, done + {d}), |offset.Keys|);
  }

  /** The check without counting is never true too early; it misses the last dependency
      exactly when that dependency's bit would be alone in the last byte. */
  lemma BitmapPeeks(offset: map<Task, nat>, bits: seq<bool>, done: set<Task>, d: Task)
    requires GoodOffsets(offset) && done <= offset.Keys && d in offset.Keys && d !in done
    requires Represents(bits, Image(offset, done))
    ensures PeekCheck(bits, |offset.Keys|, offset[d]) <==>
              done == offset.Keys - {d} && !(|offset.Keys| % 8 == 1 && offset[d] == |offset.Keys| - 1)
  {
    OffsetsFaithful(offset, done, {d});
    assert Image(offset, {d}) == {offset[d]};
    assert offset[d] !in Image(offset, done);
    hide Represents, PeekCheck, Injective;
    PeekCheckExact(bits, Image(offset, done), |offset.Keys|, offset[d]);
  }

  function BitsOf(bits: map<Task, seq<bool>>, t: Task): seq<bool> {
    if t in bits then bits[t] else []
  }

  /** Each integer counter is the number of counted dependencies. */
  ghost predicate CountersAgree(plan: Plan, counters: map<Task, nat>, s: State)
    requires plan.WellFormed()
  {
    forall t :: t in plan.g.tasks ==> t in counters && counters[t] == |Done(plan.g, s, t)|
  }

  /** Each bitmap holds the bits of the counted dependencies. */
  ghost predicate BitsAgree(plan: Plan, bits: map<Task, seq<bool>>, s: State)
    requires plan.WellFormed()
  {
    forall t :: t in plan.g.tasks ==> BitmapHolds(plan.offset[t], BitsOf(bits, t), Done(plan.g, s, t))
  }

  /** What Redis holds is what the protocol state says. */
  ghost predicate RedisAgrees(plan: Plan, counters: map<Task, nat>, bits: map<Task, seq<bool>>,
                              store: map<Task, Value>, s: State)
    requires plan.WellFormed()
  {
    store == s.store && if plan.useBits then BitsAgree(plan, bits, s) else CountersAgree(plan, counters, s)
  }

  lemma InitAgrees(plan: Plan, lambda: map<Task, Exec>, counters: map<Task, nat>)
    requires plan.WellFormed() && plan.g.tasks <= lambda.Keys
    requires forall t :: t in plan.g.tasks ==> t in counters && counters[t] == 0
    ensures CountersAgree(plan, counters, Init(plan.g, lambda))
    ensures BitsAgree(plan, map[], Init(plan.g, lambda))
    ensures Init(plan.g, lambda).store == map[]
  {
    hide Plan.ListsOutEdges;
    NothingDone(plan.g, lambda);
    hide Init, Done, Represents, Image, GoodOffsets;
    forall t | t in plan.g.tasks ensures Represents([], Image(plan.offset[t], {})) {
      NoBits(plan.offset[t]);
    }
  }

  lemma NoBits(offset: map<Task, nat>)
    ensures Represents([], Image(offset, {}))
  {
  }

  lemma NothingDone(g: Graph, lambda: map<Task, Exec>)
    requires g.WellFormed() && g.tasks <= lambda.Keys
    ensures Init(g, lambda).store == map[]
    ensures forall t :: t in g.tasks ==> Done(g, Init(g, lambda), t) == {}
  {
    var s := Init(g, lambda);
    assert s.phase == map[];
    forall t | t in g.tasks ensures Done(g, s, t) == {} {
      assert forall d :: s.Phase(d, t).Waiting?;
    }
  }

  /** Counting an edge and incrementing its counter keep both in step. */
  lemma CountKeepsCounters(plan: Plan, counters: map<Task, nat>, s: State, s': State, d: Task, t: Task)
    requires plan.WellFormed() && CountersAgree(plan, counters, s) && plan.g.HasEdge(d, t)
    requires OnlyEdge(s, s', d, t) && s'.Phase(d, t).Settled? && !s.Phase(d, t).Settled?
    ensures CountersAgree(plan, counters[t := counters[t] + 1], s')
  {
    hide Done, OnlyEdge, Plan.AssignsBits, Plan.ListsOutEdges;
    DoneGrowsOnly(plan.g, s, s', d, t);
  }

  lemma DoneGrowsOnly(g: Graph, s: State, s': State, d: Task, t: Task)
    requires g.WellFormed() && g.HasEdge(d, t)
    requires OnlyEdge(s, s', d, t) && s'.Phase(d, t).Settled? && !s.Phase(d, t).Settled?
    ensures forall t' :: t' in g.tasks && t' != t ==> Done(g, s', t') == Done(g, s, t')
    ensures Done(g, s', t) == Done(g, s, t) + {d} && |Done(g, s', t)| == |Done(g, s, t)| + 1
  {
    forall t' | t' in g.tasks
      ensures Done(g, s', t') == Done(g, s, t') + (if t' == t then {d} else {})
    {
      DoneGrows(g, s, s', d, t, t');
    }
    assert d !in Done(g, s, t);
    hide Done, OnlyEdge, Graph.WellFormed;
  }

  ghost predicate BitmapHolds(offset: map<Task, nat>, bits: seq<bool>, done: set<Task>) {
    done <= offset.Keys && Represents(bits, Image(offset, done))
  }

  lemma BitmapGrows(offset: map<Task, nat>, bits: seq<bool>, done: set<Task>, d: Task)
    requires GoodOffsets(offset) && d in offset.Keys && BitmapHolds(offset, bits, done)
    ensures BitmapHolds(offset, SetBit(bits, offset[d]), done + {d})
  {
    hide Represents, Image, SetBit, GoodOffsets;
    BitmapCounts(offset, bits, done, d);
  }

  lemma CountKeepsBits(plan: Plan, bits: map<Task, seq<bool>>, s: State, s': State, d: Task, t: Task)
    requires plan.WellFormed() && BitsAgree(plan, bits, s) && plan.g.HasEdge(d, t)
    requires OnlyEdge(s, s', d, t) && s'.Phase(d, t).Settled? && !s.Phase(d, t).Settled?
    ensures BitsAgree(plan, bits[t := SetBit(BitsOf(bits, t), plan.offset[t][d])], s')
  {
    hide Done, OnlyEdge, BitmapHolds, SetBit, GoodOffsets, Plan.ListsOutEdges;
    var bits' := bits[t := SetBit(BitsOf(bits, t), plan.offset[t][d])];
    forall t' | t' in plan.g.tasks
      ensures BitmapHolds(plan.offset[t'], BitsOf(bits', t'), Done(plan.g, s', t'))
    {
      DoneGrows(plan.g, s, s', d, t, t');
      var done := Done(plan.g, s, t');
      assert BitmapHolds(plan.offset[t'], BitsOf(bits, t'), done);
      if t' == t {
        BitmapGrows(plan.offset[t], BitsOf(bits, t), done, d);
      } else {
        assert done + {} == done;
      }
    }
  }

  /** Steps that count nothing leave the counters standing for what they stood for. */
  ghost predicate SameCounted(g: Graph, s: State, s': State)
    requires g.WellFormed()
  {
    forall t :: t in g.tasks ==> Done(g, s', t) == Done(g, s, t)
  }

  lemma MovingCountsNothing(g: Graph, s: State, s': State, d: Task, t: Task)
    requires g.WellFormed() && g.HasEdge(d, t) && OnlyEdge(s, s', d, t)
    requires !s'.Phase(d, t).Settled? && !s.Phase(d, t).Settled?
    ensures SameCounted(g, s, s')
  {
    forall t' | t' in g.tasks ensures Done(g, s', t') == Done(g, s, t') {
      DoneGrows(g, s, s', d, t, t');
    }
  }

  lemma SameEdgesSameCounted(g: Graph, s: State, s': State)
    requires g.WellFormed() && SameEdges(s, s')
    ensures SameCounted(g, s, s')
  {
  }

  lemma SameCountedStillAgrees(plan: Plan, counters: map<Task, nat>, bits: map<Task, seq<bool>>,
                               store: map<Task, Value>, s: State, s': State)
    requires plan.WellFormed() && SameCounted(plan.g, s, s')
    requires RedisAgrees(plan, counters, bits, store, s)
    ensures RedisAgrees(plan, counters, bits, s'.store, s')
    ensures store == s.store
  {
    hide Represents, Image, Done;
  }

  /** From before, e's own affairs come to v', in a state that the protocol can reach. */
  ghost predicate Commits(plan: Plan, before: State, s': State, e: Exec, v': Local)
    requires plan.WellFormed()
  {
    Lawful(plan, s') && Onward(plan.g, e, before, s') && View(plan.g, s', e) == v'
  }

  /** A step of e, seen from e's side. */
  ghost predicate OwnStep(plan: Plan, s: State, s': State, e: Exec, v': Local)
    requires plan.WellFormed()
  {
    Lawful(plan, s') && Onward(plan.g, e, s, s') && View(plan.g, s', e) == v'
  }

  lemma OwnStepTaken(plan: Plan, s: State, e: Exec, step: Step)
    requires plan.WellFormed() && Lawful(plan, s) && Enabled(plan.g, s, step) && Follows(plan, s, step)
    requires step.Actor() == e && !step.Quit? && Apply(plan.g, s, step).Used(e)
    ensures OwnStep(plan, s, Apply(plan.g, s, step), e, View(plan.g, Apply(plan.g, s, step), e))
  {
    hide Lawful, Apply, Enabled, Follows, Onward, View;
    LawfulStep(plan, s, step);
    OwnStepOnward(plan.g, s, step, e);
  }

  /** From before, others took e to s, and there e peeked successfully. */
  lemma PeekStep(plan: Plan, counters: map<Task, nat>, bits: map<Task, seq<bool>>,
                 store: map<Task, Value>, before: State, s: State, e: Exec, d: Task, t: Task)
    requires plan.WellFormed() && Lawful(plan, s) && Undisturbed(plan.g, e, before, s)
    requires Enabled(plan.g, s, Peek(e, d, t)) && Follows(plan, s, Peek(e, d, t)) && RedisAgrees(plan, counters, bits, store, s)
    ensures var s' := Apply(plan.g, s, Peek(e, d, t));
            && Commits(plan, before, s', e, Took(View(plan.g, before, e), Edge(d, t)))
            && t !in View(plan.g, before, e).claims && SameCounted(plan.g, s, s')
            && RedisAgrees(plan, counters, bits, store, s')
  {
    hide Lawful, Done, View, Onward, RedisAgrees, Discipline, Plan.ListsOutEdges, Plan.AssignsBits;
    var s' := Apply(plan.g, s, Peek(e, d, t));
    LawfulDiscipline(plan, s);
    MovingCountsNothing(plan.g, s, s', d, t);
    OwnerUsed(s', e, d);
    assert s'.store == s.store;
    hide Apply;
    OwnPeek(plan.g, s, e, d, t);
    OwnStepTaken(plan, s, e, Peek(e, d, t));
    SameCountedStillAgrees(plan, counters, bits, store, s, s');
    OnwardCompose(plan.g, e, before, s, s');
  }

  /** Counting e's edge d -> t: what changes for e, and for the counters. */
  lemma CountStep(plan: Plan, before: State, s: State, e: Exec, d: Task, t: Task, step: Step)
    requires plan.WellFormed() && Lawful(plan, s) && Undisturbed(plan.g, e, before, s)
    requires OwnCounting(step, e, d, t) && Enabled(plan.g, s, step) && Follows(plan, s, step)
    ensures plan.g.HasEdge(d, t)
    ensures var s', v := Apply(plan.g, s, step), View(plan.g, before, e);
            && Commits(plan, before, s', e, Counted(v, Edge(d, t), Granted(Completes(plan.g, s, d, t), t, HandsOn(step))).(
                       owing := v.owing + Late(plan.g, s, step)))
            && t !in v.claims
            && OnlyEdge(s, s', d, t) && s'.Phase(d, t).Settled? && !s.Phase(d, t).Settled? && s'.store == s.store
            && s'.sent == s.sent && s'.owed.Keys == s.owed.Keys + Late(plan.g, s, step)
  {
    hide Lawful, Done, View, Completes, Onward, Discipline, Granted, Plan.ListsOutEdges, Plan.AssignsBits, Follows, Late;
    LawfulDiscipline(plan, s);
    CountChanges(plan.g, s, e, d, t, step);
    var s' := Apply(plan.g, s, step);
    hide Apply, Enabled, Counted, OwnCounting;
    OwnerUsed(s', e, d);
    OwnCount(plan.g, s, e, d, t, step);
    CountsForOwner(step, e, d, t);
    OwnStepTaken(plan, s, e, step);
    OnwardCompose(plan.g, e, before, s, s');
  }

  lemma CountsForOwner(step: Step, e: Exec, d: Task, t: Task)
    requires OwnCounting(step, e, d, t)
    ensures step.Actor() == e && !step.Quit?
  {
  }

  lemma FullWhenCompleted(g: Graph, s: State, s': State, d: Task, t: Task)
    requires g.WellFormed() && g.HasEdge(d, t) && OnlyEdge(s, s', d, t) && s'.Phase(d, t).Settled?
    ensures Completes(g, s, d, t) <==> Done(g, s', t) == g.deps[t]
  {
    DoneGrows(g, s, s', d, t, t);
  }

  /** Counting an edge that e took by a peek: the counter is full afterwards. */
  lemma BookkeepStep(plan: Plan, before: State, s: State, e: Exec, d: Task, t: Task)
    requires plan.WellFormed() && Lawful(plan, s) && Undisturbed(plan.g, e, before, s)
    requires plan.g.HasEdge(d, t) && Enabled(plan.g, s, Bookkeep(e, d, t))
    ensures var s', v := Apply(plan.g, s, Bookkeep(e, d, t)), View(plan.g, before, e);
            && Commits(plan, before, s', e, v.(taken := v.taken - {Edge(d, t)}))
            && OnlyEdge(s, s', d, t) && s'.Phase(d, t).Settled? && !s.Phase(d, t).Settled? && s'.store == s.store
    ensures Completes(plan.g, s, d, t)
  {
    hide Lawful, Done, View, Completes, Onward, Discipline, Apply, Enabled, Plan.ListsOutEdges, Plan.AssignsBits;
    LawfulDiscipline(plan, s);
    BookkeepSettles(plan.g, s, e, d, t);
    TakenCompletes(plan.g, s, d, t);
    EdgeStepMovesOne(plan.g, s, Bookkeep(e, d, t));
    OwnerUsed(Apply(plan.g, s, Bookkeep(e, d, t)), e, d);
    OwnBookkeep(plan.g, s, e, d, t);
    OwnStepTaken(plan, s, e, Bookkeep(e, d, t));
    OnwardCompose(plan.g, e, before, s, Apply(plan.g, s, Bookkeep(e, d, t)));
  }

  lemma BookkeepSettles(g: Graph, s: State, e: Exec, d: Task, t: Task)
    requires g.WellFormed() && Enabled(g, s, Bookkeep(e, d, t))
    ensures Apply(g, s, Bookkeep(e, d, t)).Phase(d, t).Settled? && Apply(g, s, Bookkeep(e, d, t)).Owns(e, d)
    ensures s.Phase(d, t).Taken?
  {
  }

  lemma TakenCompletes(g: Graph, s: State, d: Task, t: Task)
    requires g.WellFormed() && Discipline(g, s) && g.HasEdge(d, t) && s.Phase(d, t).Taken?
    ensures Completes(g, s, d, t)
  {
    forall d' | d' in g.deps[t] && d' != d ensures d' in Done(g, s, t) {
      assert g.HasEdge(d', t);
    }
  }

  predicate CountsNothing(step: Step) {
    Quiet(step) || Parks(step) || step.Execute? || step.Invoke?
  }

  lemma UncountedSameCounted(g: Graph, s: State, step: Step)
    requires g.WellFormed() && Enabled(g, s, step) && CountsNothing(step)
    ensures SameCounted(g, s, Apply(g, s, step))
    ensures step.Put? || step.Pay? || step.ProxyPut? || Apply(g, s, step).store == s.store
  {
    hide Done, Apply, Enabled, CountsNothing, SameCounted;
    UncountedSameStore(g, s, step);
    if Parks(step) {
      ParkedSameCounted(g, s, step);
    } else {
      PhasesSame(g, s, step);
      SameEdgesSameCounted(g, s, Apply(g, s, step));
    }
  }

  lemma ParkedSameCounted(g: Graph, s: State, step: Step)
    requires g.WellFormed() && Enabled(g, s, step) && Parks(step)
    ensures SameCounted(g, s, Apply(g, s, step))
  {
    ParkApplied(g, s, step);
    hide Apply, Enabled, Done, SameCounted;
    SetPhaseMoves(s, step.d, step.t, ParkedPhase(s, step));
    MovingCountsNothing(g, s, Apply(g, s, step), step.d, step.t);
  }

  lemma UncountedSameStore(g: Graph, s: State, step: Step)
    requires g.WellFormed() && Enabled(g, s, step) && CountsNothing(step)
    ensures step.Put? || step.Pay? || step.ProxyPut? || Apply(g, s, step).store == s.store
  {
    if MovesEdge(step) {
      hide CountsNothing, Apply, Enabled;
      EdgeStepMovesOne(g, s, step);
    } else {
      OtherSameStore(g, s, step);
    }
  }

  lemma OtherSameStore(g: Graph, s: State, step: Step)
    requires g.WellFormed() && Enabled(g, s, step) && !MovesEdge(step)
    ensures step.Put? || step.Pay? || step.ProxyPut? || Apply(g, s, step).store == s.store
  {
    hide Graph.WellFormed, Inputs;
  }

  lemma PhasesSame(g: Graph, s: State, step: Step)
    requires g.WellFormed() && Enabled(g, s, step) && CountsNothing(step) && !Parks(step)
    ensures SameEdges(s, Apply(g, s, step))
  {
    SamePhaseOtherwise(g, s, step);
  }

  /** Steps of e that count nothing. */
  lemma UncountedStep(plan: Plan, before: State, s: State, e: Exec, step: Step)
    requires plan.WellFormed() && Lawful(plan, s) && Undisturbed(plan.g, e, before, s)
    requires Enabled(plan.g, s, step) && Follows(plan, s, step) && step.Actor() == e && CountsNothing(step)
    requires Apply(plan.g, s, step).Used(e) && !step.Quit?
    ensures var s' := Apply(plan.g, s, step);
            && Commits(plan, before, s', e, View(plan.g, s', e)) && SameCounted(plan.g, s, s')
            && (step.Put? || step.Pay? || step.ProxyPut? || s'.store == s.store)
  {
    hide Lawful, Done, View, Onward, Apply, Enabled, Follows, State.Used, SameCounted;
    UncountedSameCounted(plan.g, s, step);
    OwnStepTaken(plan, s, e, step);
    OnwardCompose(plan.g, e, before, s, Apply(plan.g, s, step));
  }

  /** Counting and incrementing stay in step, whichever encoding is used. */
  lemma CountStillAgrees(plan: Plan, counters: map<Task, nat>, bits: map<Task, seq<bool>>,
                         store: map<Task, Value>, s: State, s': State, d: Task, t: Task,
                         counters': map<Task, nat>, bits': map<Task, seq<bool>>)
    requires plan.WellFormed() && RedisAgrees(plan, counters, bits, store, s) && plan.g.HasEdge(d, t)
    requires OnlyEdge(s, s', d, t) && s'.Phase(d, t).Settled? && !s.Phase(d, t).Settled? && s'.store == s.store
    requires if plan.useBits then bits' == bits[t := SetBit(BitsOf(bits, t), plan.offset[t][d])]
             else t in counters && counters' == counters[t := counters[t] + 1]
    ensures RedisAgrees(plan, counters', bits', store, s')
  {
    hide CountersAgree, BitsAgree, OnlyEdge, SetBit;
    if plan.useBits {
      CountKeepsBits(plan, bits, s, s', d, t);
    } else {
      CountKeepsCounters(plan, counters, s, s', d, t);
    }
  }

  lemma OwingEnabled(plan: Plan, s: State, e: Exec, d: Task, t: Task)
    requires plan.WellFormed() && Lawful(plan, s) && Open(plan.g, s, e, d, t)
    ensures d in s.Cached(e) && d in s.made
  {
    hide Lawful, Plan.ListsOutEdges, Plan.AssignsBits, Discipline, WithinReach, ValuesRight;
    LawfulInv(plan, s);
    StillCached(plan.g, s, e, d, t);
    MadeIsRight(plan, s, d);
  }

  /** The value owed for an edge is the one that the store has or lacks. */
  lemma OwedIsRight(plan: Plan, s: State, edge: Edge)
    requires plan.WellFormed() && Lawful(plan, s) && edge in s.owed
    ensures edge.src in plan.g.tasks && s.owed[edge] == plan.g.Eval(edge.src)
  {
    hide Lawful, Plan.ListsOutEdges, Plan.AssignsBits, Discipline, WithinReach;
    LawfulInv(plan, s);
    assert OwedRight(plan.g, s, edge);
  }

  lemma MadeIsRight(plan: Plan, s: State, d: Task)
    requires plan.WellFormed() && Lawful(plan, s) && d in s.ranBy
    ensures d in s.made && d in plan.g.tasks && s.made[d] == plan.g.Eval(d)
  {
    hide Lawful, Plan.ListsOutEdges, Plan.AssignsBits, Discipline, WithinReach;
    LawfulInv(plan, s);
    assert MadeRight(plan.g, s, d);
  }

  lemma StoreIsRight(plan: Plan, s: State, d: Task)
    requires plan.WellFormed() && Lawful(plan, s) && d in s.store
    ensures d in plan.g.tasks && s.store[d] == plan.g.Eval(d)
  {
    hide Lawful, Plan.ListsOutEdges, Plan.AssignsBits, Discipline, WithinReach;
    LawfulInv(plan, s);
    assert StoreRight(plan.g, s, d);
  }

  lemma StepStaysUsed(g: Graph, s: State, step: Step)
    requires g.WellFormed() && Enabled(g, s, step) && s.Used(step.Actor())
    requires Quiet(step) || Parks(step)
    ensures Apply(g, s, step).Used(step.Actor())
  {
  }

  /** A dependency counter's answer to a counting check is right, in both encodings. */
  lemma CountAnswerExact(plan: Plan, counters: map<Task, nat>, bits: map<Task, seq<bool>>, s: State, d: Task, t: Task)
    requires plan.WellFormed() && plan.g.HasEdge(d, t) && !s.Phase(d, t).Settled?
    ensures CountersAgree(plan, counters, s) ==>
              (counters[t] + 1 == |plan.g.deps[t]| <==> Completes(plan.g, s, d, t))
    ensures BitsAgree(plan, bits, s) ==>
              (CountCheck(SetBit(BitsOf(bits, t), plan.offset[t][d]), |plan.g.deps[t]|) <==> Completes(plan.g, s, d, t))
  {
    var done := Done(plan.g, s, t);
    CounterExact(plan.g.deps[t], done, d);
    hide Represents, Image, CountCheck, SetBit, Done;
    if BitsAgree(plan, bits, s) {
      BitmapCounts(plan.offset[t], BitsOf(bits, t), done, d);
    }
  }

  /** What a check without counting says of the edge d -> t: whether d is t's only dependency
      not counted yet, but for the case that a bitmap misses. */
  ghost predicate LooksReady(plan: Plan, s: State, d: Task, t: Task)
    requires plan.WellFormed() && plan.g.HasEdge(d, t)
  {
    Done(plan.g, s, t) == plan.g.deps[t] - {d} && !plan.Missed(d, t)
  }

  /** The answer to a check without counting: exact for integer counters; for bitmaps
      right when true, and false in one case where all others are counted. */
  lemma PeekAnswerExact(plan: Plan, counters: map<Task, nat>, bits: map<Task, seq<bool>>, s: State, d: Task, t: Task)
    requires plan.WellFormed() && plan.g.HasEdge(d, t) && !s.Phase(d, t).Settled?
    ensures !plan.useBits && CountersAgree(plan, counters, s) ==>
              (counters[t] == |plan.g.deps[t]| - 1 <==> LooksReady(plan, s, d, t))
    ensures plan.useBits && BitsAgree(plan, bits, s) ==>
              (PeekCheck(BitsOf(bits, t), |plan.g.deps[t]|, plan.offset[t][d]) <==> LooksReady(plan, s, d, t))
  {
    hide Plan.ListsOutEdges;
    CounterExact(plan.g.deps[t], Done(plan.g, s, t), d);
    if plan.useBits && BitsAgree(plan, bits, s) { BitmapLooksReady(plan, bits, s, d, t); }
    hide Represents, Image, PeekCheck, Done, GoodOffsets;
  }

  lemma BitmapLooksReady(plan: Plan, bits: map<Task, seq<bool>>, s: State, d: Task, t: Task)
    requires plan.WellFormed() && plan.g.HasEdge(d, t) && !s.Phase(d, t).Settled? && BitsAgree(plan, bits, s)
    requires plan.useBits
    ensures PeekCheck(BitsOf(bits, t), |plan.g.deps[t]|, plan.offset[t][d]) <==> LooksReady(plan, s, d, t)
  {
    var done := Done(plan.g, s, t);
    assert done <= plan.g.deps[t] && d !in done;
    hide Represents, Image, PeekCheck, Done, GoodOffsets, Plan.ListsOutEdges;
    BitmapPeeks(plan.offset[t], BitsOf(bits, t), done, d);
  }

  /** The step that e's count of d -> t is. */
  ghost function StepOfCount(plan: Plan, s: State, e: Exec, d: Task, t: Task): Step {
    if d in s.store then Count(e, d, t, plan.Mobile(d, t))
    else if s.Phase(d, t).Held? then CountOwing(e, d, t)
    else CountSent(e, d, t)
  }

  /** When an executor counts d -> t: out of the delayed queue while giving up, with d's value
      stored, or with d's value sent to the proxy, which leaves only the edge to the task to
      become to it, and that only while none is chosen. */
  ghost predicate CountingTime(plan: Plan, s: State, v: Local, d: Task, t: Task) {
    || (Edge(d, t) in v.held && v.givingUp)
    || (!v.givingUp && d in s.store && !plan.FansOut(d) && !plan.Holdable(d, t))
    || (!v.givingUp && d in s.sent && plan.FansOut(d) && plan.BecomeEdge(d, t) && v.claims == map[])
  }

  lemma TimeToStep(plan: Plan, s: State, e: Exec, d: Task, t: Task)
    requires plan.g.WellFormed() && CountingTime(plan, s, View(plan.g, s, e), d, t) && Open(plan.g, s, e, d, t) && s.Active(e)
    requires s.Phase(d, t).Held? ==> plan.Holdable(d, t)
    requires Edge(d, t) in View(plan.g, s, e).held ==> s.Phase(d, t).Held?
    requires d in s.Cached(e) && (View(plan.g, s, e).givingUp <==> e in s.givingUp)
    requires View(plan.g, s, e).claims == map[] ==> NoClaims(s, e)
    ensures var step := StepOfCount(plan, s, e, d, t);
            OwnCounting(step, e, d, t) && Enabled(plan.g, s, step) && Follows(plan, s, step)
  {
    hide View, NoClaims, Graph.WellFormed;
  }

  class Cluster {
    const plan: Plan
    var counters: map<Task, nat>
    var bits: map<Task, seq<bool>>
    var store: map<Task, Value>
    ghost var st: State

    constructor (plan: Plan, ghost lambda: map<Task, Exec>)
      requires plan.WellFormed() && OwnLambdas(plan, lambda)
      ensures Valid() && this.plan == plan && st == Init(plan.g, lambda)
    {
      hide Lawful, Init, RedisAgrees, Plan.ListsOutEdges, Plan.AssignsBits, Graph.WellFormed;
      this.plan := plan;
      counters := map t | t in plan.g.tasks :: 0;
      bits := map[];
      store := map[];
      st := Init(plan.g, lambda);
      new;
      StartsValid(lambda);
    }

    lemma StartsValid(lambda: map<Task, Exec>)
      requires plan.WellFormed() && OwnLambdas(plan, lambda)
      requires st == Init(plan.g, lambda) && bits == map[] && store == map[]
      requires forall t :: t in plan.g.tasks ==> t in counters && counters[t] == 0
      ensures Valid()
    {
      LawfulStart(plan, lambda);
      InitAgrees(plan, lambda, counters);
      hide Lawful, CountersAgree, BitsAgree, Init;
    }

    /** Redis holds what the protocol state says, and that state is one that some
        interleaving of lawful steps leads to. */
    ghost predicate Valid()
      reads this
    {
      plan.WellFormed() && Lawful(plan, st) && RedisAgrees(plan, counters, bits, store, st)
    }

    ghost function Me(e: Exec): Local
      requires plan.WellFormed()
      reads this
    {
      View(plan.g, st, e)
    }

    /** Any number of steps of any processes other than e.  Callers see only the contract
        and so have to cope with all of them. */
    method Interfere(ghost e: Exec)
      requires Valid()
      modifies this
      ensures Valid() && OthersReach(plan.g, e, old(st), st)
    {
      ghost var none: seq<Step> := [];
      assert CanRun(plan.g, st, none) && RunFrom(plan.g, st, none) == st;
    }

    method Await(ghost e: Exec)
      requires Valid() && st.Active(e)
      modifies this
      ensures Valid() && Undisturbed(plan.g, e, old(st), st)
      ensures st.Active(e) && old(st.store).Keys <= st.store.Keys
    {
      hide Inv, Lawful, View, RedisAgrees, State.Active;
      LawfulInv(plan, st);
      ghost var before := st;
      Interfere(e);
      ghost var steps: seq<Step> :| CanRun(plan.g, before, steps) && RunFrom(plan.g, before, steps) == st
        && forall i :: 0 <= i < |steps| ==> steps[i].Actor() != e;
      OthersRunUndisturbed(plan.g, before, steps, e);
    }

    // ---- check_dependency_counter and check_dependency_counter_bits ----------

    /** One GET, and for a bitmap the comparison with the two masks. */
    method ReadAnswer(d: Task, t: Task) returns (ready: bool)
      requires Valid() && plan.g.HasEdge(d, t) && !st.Phase(d, t).Settled?
      ensures ready <==> LooksReady(plan, st, d, t)
    {
      PeekAnswerExact(plan, counters, bits, st, d, t);
      hide Lawful, BitsAgree, PeekCheck, Done, Plan.ListsOutEdges, LooksReady;
      var n := |plan.g.deps[t]|;
      if !plan.useBits {
        ready := counters[t] == n - 1;
      } else {
        ready := EqualsMaskWithoutOwn(BitsOf(bits, t), n, plan.offset[t][d]);
      }
    }

    /** The increment: INCR, or SETBIT and GET in one transaction. */
    method CountUp(d: Task, t: Task) returns (ready: bool)
      requires Valid() && plan.g.HasEdge(d, t) && !st.Phase(d, t).Settled?
      modifies this`counters, this`bits
      ensures ready <==> Completes(plan.g, st, d, t)
      ensures if plan.useBits then
                counters == old(counters) && bits == old(bits)[t := SetBit(BitsOf(old(bits), t), plan.offset[t][d])]
              else
                bits == old(bits) && t in old(counters) && counters == old(counters)[t := old(counters)[t] + 1]
    {
      hide Lawful, BitsAgree, CountCheck, Done, Completes, Plan.ListsOutEdges, SetBit, GoodOffsets;
      CountAnswerExact(plan, counters, bits, st, d, t);
      var n := |plan.g.deps[t]|;
      if !plan.useBits {
        counters := counters[t := counters[t] + 1];
        ready := counters[t] == n;
      } else {
        bits := bits[t := SetBit(BitsOf(bits, t), plan.offset[t][d])];
        ready := EqualsFullMask(BitsOf(bits, t), n);
      }
    }

    /** When e checks d -> t: in the first look at all out-edges of a big task, or later in its
        delayed queue; for a small task as long as no task to become is chosen. */
    ghost predicate MayCheck(e: Exec, d: Task, t: Task)
      requires plan.WellFormed()
      reads this
    {
      && plan.Peekable(d, t) && !Me(e).givingUp
      && if d in plan.big then Edge(d, t) in Me(e).waiting ==> d in st.store || Untried(plan.g, Me(e), d)
         else Me(e).claims == map[]
    }

    lemma MayPeek(before: State, e: Exec, d: Task, t: Task)
      requires plan.WellFormed() && Lawful(plan, st) && Undisturbed(plan.g, e, before, st) && plan.g.HasEdge(d, t)
      requires var v := View(plan.g, before, e);
               && plan.Peekable(d, t) && !plan.Missed(d, t) && !v.givingUp
               && if d in plan.big then Edge(d, t) in v.waiting ==> d in before.store || Untried(plan.g, v, d)
                  else v.claims == map[]
      requires st.Owns(e, d)
      ensures Follows(plan, st, Peek(e, d, t))
    {
      hide Lawful, View, Reaches, Unrun, Discipline, Untried, NoDependentRan, NoClaims, Plan.Missed, Plan.Peekable, NoneWaits,
        QueueStored, AllWritten, Plan.ListsOutEdges, Plan.AssignsBits;
      LawfulDiscipline(plan, st);
      ModeInView(plan, st, e);
      InView(plan.g, st, e, d, t);
      if Untried(plan.g, View(plan.g, st, e), d) { UntriedNotRun(plan.g, st, e, d); }
    }

    /** Without counting.  True means that e has claimed t. */
    method CheckWithoutCounting(ghost e: Exec, d: Task, t: Task) returns (ready: bool)
      requires Valid() && st.Active(e) && MayCheck(e, d, t)
      requires Edge(d, t) in Me(e).waiting || Edge(d, t) in Me(e).held
      modifies this
      ensures Valid() && Onward(plan.g, e, old(st), st)
      ensures Me(e) == if ready then Took(old(Me(e)), Edge(d, t)) else old(Me(e))
      ensures plan.g.HasEdge(d, t) && (ready <==> LooksReady(plan, st, d, t)) && Me(e).givingUp == old(Me(e)).givingUp
      ensures ready ==> t !in old(Me(e)).claims
    {
      hide Lawful, RedisAgrees, Done, View, Onward, Apply, Plan.ListsOutEdges, Plan.AssignsBits, Graph.WellFormed, State.Used;
      Await(e);
      InView(plan.g, st, e, d, t);
      ready := ReadAnswer(d, t);
      if ready {
        MayPeek(old(st), e, d, t);
        PeekStep(plan, counters, bits, store, old(st), st, e, d, t);
        st := Apply(plan.g, st, Peek(e, d, t));
      }
    }

    ghost predicate MayCount(e: Exec, d: Task, t: Task)
      requires plan.WellFormed()
      reads this
    {
      CountingTime(plan, st, Me(e), d, t)
    }

    /** With counting.  True means that e has claimed t; if not, and the edge was in the delayed
        queue, d's value is stored, or recorded as still to be written. */
    method CheckAndCount(ghost e: Exec, d: Task, t: Task) returns (ready: bool, ghost mobile: bool)
      requires Valid() && st.Active(e) && MayCount(e, d, t)
      requires Edge(d, t) in Me(e).waiting || Edge(d, t) in Me(e).held
      modifies this
      ensures Valid() && Onward(plan.g, e, old(st), st)
      ensures Me(e) == Counted(old(Me(e)), Edge(d, t), Granted(ready, t, mobile)).(owing := Me(e).owing)
      ensures old(Me(e)).owing <= Me(e).owing <= old(Me(e)).owing + {Edge(d, t)} && t !in old(Me(e)).claims
      ensures plan.g.HasEdge(d, t) && (ready <==> Done(plan.g, st, t) == plan.g.deps[t])
      ensures (d in old(st.store) ==> mobile == plan.Mobile(d, t)) && Me(e).givingUp == old(Me(e)).givingUp
      ensures ready || Edge(d, t) !in old(Me(e)).held ==> Me(e) == Counted(old(Me(e)), Edge(d, t), Granted(ready, t, mobile))
      ensures !ready && Edge(d, t) in old(Me(e)).held ==> StoredOrOwed(st, d, t)
    {
      hide Lawful, RedisAgrees, Done, Completes, View, Onward, Apply, Enabled, Follows, Plan.ListsOutEdges, Plan.AssignsBits,
        Graph.WellFormed, State.Used, State.Active, Granted, OnlyEdge, OwnCounting, HandsOn, Late, StepOfCount;
      InView(plan.g, st, e, d, t);
      Await(e);
      InView(plan.g, st, e, d, t);
      ghost var mid, counters0, bits0, step := st, counters, bits, StepOfCount(plan, st, e, d, t);
      MayTakeStep(old(st), e, d, t);
      CountStep(plan, old(st), mid, e, d, t, step);
      ready := CountUp(d, t);
      mobile := HandsOn(step);
      st := Apply(plan.g, mid, step);
      LateIs(mid, e, d, t);
      assert old(Me(e)).owing + {} == old(Me(e)).owing;
      FullWhenCompleted(plan.g, mid, st, d, t);
      CountStillAgrees(plan, counters0, bits0, store, mid, st, d, t, counters, bits);
    }

    lemma MayTakeStep(before: State, e: Exec, d: Task, t: Task)
      requires plan.WellFormed() && Lawful(plan, st) && st.Active(e) && Open(plan.g, st, e, d, t)
      requires Undisturbed(plan.g, e, before, st)
      requires CountingTime(plan, before, View(plan.g, before, e), d, t)
      ensures var step := StepOfCount(plan, st, e, d, t);
              OwnCounting(step, e, d, t) && Enabled(plan.g, st, step) && Follows(plan, st, step)
    {
      hide Lawful, Done, View, Reaches, Unrun, Completes, Discipline, ValuesRight, NoClaims, ProxyInPlace,
        EndedInOrder, NoneWaits, QueueStored, AllWritten, Plan.ListsOutEdges, Plan.AssignsBits;
      OwingEnabled(plan, st, e, d, t);
      InView(plan.g, st, e, d, t);
      ModeInView(plan, st, e);
      LawfulLawInv(plan, st);
      assert st.Phase(d, t).Held? ==> plan.Holdable(d, t);
      hide EdgesInPlace, Undisturbed;
      assert CountingTime(plan, st, View(plan.g, st, e), d, t) by { StillCountingTime(before, e, d, t); }
      TimeToStep(plan, st, e, d, t);
    }

    lemma StillCountingTime(before: State, e: Exec, d: Task, t: Task)
      requires plan.WellFormed() && Undisturbed(plan.g, e, before, st)
      requires CountingTime(plan, before, View(plan.g, before, e), d, t)
      ensures CountingTime(plan, st, View(plan.g, st, e), d, t)
    {
      hide View, Reaches, Unrun, Plan.WellFormed;
    }

    lemma LateIs(s: State, e: Exec, d: Task, t: Task)
      requires plan.WellFormed() && plan.g.HasEdge(d, t) && st.store == s.store
      requires st.owed.Keys == s.owed.Keys + Late(plan.g, s, StepOfCount(plan, s, e, d, t))
      ensures var step := StepOfCount(plan, s, e, d, t);
              && Late(plan.g, s, step) <= {Edge(d, t)}
              && (!s.Phase(d, t).Held? || Completes(plan.g, s, d, t) ==> Late(plan.g, s, step) == {})
              && (!Completes(plan.g, s, d, t) && s.Phase(d, t).Held? ==> StoredOrOwed(st, d, t))
              && (d in s.store ==> HandsOn(step) == plan.Mobile(d, t))
    {
      hide Completes;
    }

    /** The increment after a successful peek, for the books or by the proxy branch: the
        counter is full then. */
    method CountTaken(ghost e: Exec, d: Task, t: Task) returns (ready: bool)
      requires Valid() && st.Active(e) && Edge(d, t) in Me(e).taken
      modifies this
      ensures Valid() && Onward(plan.g, e, old(st), st)
      ensures Me(e) == old(Me(e)).(taken := old(Me(e)).taken - {Edge(d, t)})
      ensures ready
    {
      hide Lawful, RedisAgrees, Done, Completes, View, Onward, Apply, Plan.ListsOutEdges, Plan.AssignsBits,
        Graph.WellFormed, State.Used, OnlyEdge;
      Await(e);
      InView(plan.g, st, e, d, t);
      ghost var mid, counters0, bits0 := st, counters, bits;
      BookkeepStep(plan, old(st), mid, e, d, t);
      ready := CountUp(d, t);
      st := Apply(plan.g, mid, Bookkeep(e, d, t));
      CountStillAgrees(plan, counters0, bits0, store, mid, st, d, t, counters, bits);
    }

    // ---- Values --------------------------------------------------------------

    /** GET of a dependency's value, which e then caches. */
    method Get(ghost e: Exec, d: Task) returns (r: Option<Value>)
      requires Valid() && st.Active(e)
      modifies this
      ensures Valid() && Onward(plan.g, e, old(st), st)
      ensures r.Some? ==> d in plan.g.tasks && r.value == plan.g.Eval(d)
      ensures Me(e) == if r.Some? then old(Me(e)).(cache := old(Me(e)).cache[d := r.value]) else old(Me(e))
      ensures r.Some? <==> d in st.store
    {
      hide Lawful, BitsAgree, CountersAgree, Inv, View, Onward, Apply, Plan.ListsOutEdges, Plan.AssignsBits, Graph.WellFormed,
        State.Used, SameCounted;
      Await(e);
      if d in store {
        r := Some(store[d]);
        StoreIsRight(plan, st, d);
        ghost var mid := st;
        StepStaysUsed(plan.g, mid, Fetch(e, d));
        UncountedStep(plan, old(st), mid, e, Fetch(e, d));
        OwnCaching(plan.g, mid, e, d, Fetch(e, d));
        st := Apply(plan.g, mid, Fetch(e, d));
        SameCountedStillAgrees(plan, counters, bits, store, mid, st);
      } else {
        r := None;
      }
    }

    /** SET of a result of e. */
    method Set(ghost e: Exec, d: Task, v: Value)
      requires Valid() && st.Active(e)
      requires d in Me(e).ran && d in plan.g.tasks && v == plan.g.Eval(d)
      modifies this
      ensures Valid() && Onward(plan.g, e, old(st), st)
      ensures Me(e) == old(Me(e)) && d in st.store
    {
      hide Lawful, BitsAgree, CountersAgree, Inv, View, Onward, Plan.ListsOutEdges, Plan.AssignsBits, Graph.WellFormed,
        State.Used, SameCounted;
      Await(e);
      InView(plan.g, st, e, d, d);
      ghost var mid := st;
      MadeIsRight(plan, mid, d);
      StepStaysUsed(plan.g, mid, Put(e, d));
      UncountedStep(plan, old(st), mid, e, Put(e, d));
      OwnWrite(plan.g, mid, e, Put(e, d));
      st := Apply(plan.g, mid, Put(e, d));
      store := store[d := v];
      SameCountedStillAgrees(plan, counters, bits, mid.store, mid, st);
    }

    /** EXISTS of a task's value. */
    method Exists(ghost e: Exec, t: Task) returns (found: bool)
      requires Valid() && st.Active(e)
      modifies this
      ensures Valid() && Onward(plan.g, e, old(st), st) && Me(e) == old(Me(e))
      ensures found <==> t in st.store
    {
      hide Lawful, BitsAgree, CountersAgree, View, Onward, Plan.ListsOutEdges, Plan.AssignsBits, Graph.WellFormed, State.Used;
      Await(e);
      found := t in store;
    }

    /** store_value_in_redis with check_first, for an edge counted early: the value is
        written unless it is there already. */
    method SetIfMissing(ghost e: Exec, edge: Edge, v: Value)
      requires Valid() && st.Active(e) && edge.src in plan.g.tasks && v == plan.g.Eval(edge.src)
      requires StoredOrOwed(st, edge.src, edge.dst) && edge.src in Me(e).ran
      modifies this
      ensures Valid() && Onward(plan.g, e, old(st), st) && Me(e) == old(Me(e)).(owing := Me(e).owing)
      ensures Me(e).owing <= old(Me(e)).owing
      ensures edge.src in st.store
    {
      hide Lawful, BitsAgree, CountersAgree, Inv, View, Plan.ListsOutEdges, Plan.AssignsBits, Graph.WellFormed,
        State.Used, SameCounted, Reaches, Unrun;
      var found := Exists(e, edge.src);
      if !found {
        ghost var mid := st;
        Await(e);
        OnwardCompose(plan.g, e, old(st), mid, st);
        PayIfOwed(e, edge, v, old(st));
      }
    }

    method PayIfOwed(ghost e: Exec, edge: Edge, v: Value, ghost before: State)
      requires Valid() && st.Active(e) && edge.src in plan.g.tasks && v == plan.g.Eval(edge.src)
      requires StoredOrOwed(st, edge.src, edge.dst) && Undisturbed(plan.g, e, before, st) && edge.src in Me(e).ran
      modifies this
      ensures Valid() && Onward(plan.g, e, before, st) && Me(e) == old(Me(e)).(owing := Me(e).owing)
      ensures Me(e).owing <= old(Me(e)).owing
      ensures edge.src in st.store
    {
      hide Lawful, BitsAgree, CountersAgree, Inv, View, Plan.ListsOutEdges, Plan.AssignsBits, Graph.WellFormed,
        State.Used, SameCounted, Onward;
      ghost var mid := st;
      if edge in mid.owed {
        OwedIsRight(plan, mid, edge);
        InView(plan.g, mid, e, edge.src, edge.src);
        StepStaysUsed(plan.g, mid, Pay(e, edge));
        UncountedStep(plan, before, mid, e, Pay(e, edge));
        OwnPay(plan.g, mid, e, edge);
        st := Apply(plan.g, mid, Pay(e, edge));
      } else {
        StoreIsRight(plan, mid, edge.src);
      }
      store := store[edge.src := v];
      if edge in mid.owed {
        SameCountedStillAgrees(plan, counters, bits, mid.store, mid, st);
      }
    }

    // ---- Local actions -------------------------------------------------------

    /** Running a claimed task on its inputs. */
    method Run(ghost e: Exec, t: Task, inputs: map<Task, Value>) returns (v: Value)
      requires Valid() && st.Active(e) && e != PROXY && t in Me(e).claims && t in plan.g.tasks
      requires plan.g.deps[t] <= Me(e).cache.Keys
      requires inputs == map d | d in plan.g.deps[t] :: Me(e).cache[d]
      requires Me(e).givingUp ==> Me(e).held == map[]
      modifies this
      ensures Valid() && Onward(plan.g, e, old(st), st) && st.Active(e)
      ensures Me(e) == Ran(plan.g, old(Me(e)), t, v) && v == plan.g.Eval(t)
      ensures t in Unrun(plan.g, old(st)) && Unrun(plan.g, st) == Unrun(plan.g, old(st)) - {t}
      ensures t !in old(Me(e)).ran && plan.g.OutEdges(t) !! old(Me(e)).waiting
    {
      hide Lawful, BitsAgree, CountersAgree, View, Onward, Plan.ListsOutEdges, Plan.AssignsBits,
        State.Used, SameCounted, Apply, Discipline, ValuesRight, WithinReach, Ran, Graph.OutEdges, Unrun;
      ghost var mid, c := st, Claim(t, e, Me(e).claims[t]);
      StandingStill(plan.g, e, mid);
      LawfulInv(plan, mid);
      ClaimInView(plan.g, mid, e, t);
      CacheInView(plan.g, mid, e);
      ModeInView(plan, mid, e);
      assert inputs == Inputs(plan.g, mid, c);
      ExecutedValueRight(plan.g, mid, c);
      ExecuteChanges(plan.g, mid, c);
      OwnerUsed(Apply(plan.g, mid, Execute(c)), e, t);
      UncountedStep(plan, mid, mid, e, Execute(c));
      OwnExecute(plan.g, mid, c);
      v := plan.g.code[t](inputs);
      st := Apply(plan.g, mid, Execute(c));
      SameCountedStillAgrees(plan, counters, bits, mid.store, mid, st);
    }

    /** Putting an own edge into the delayed queue. */
    ghost method Hold(e: Exec, d: Task, t: Task)
      requires Valid() && st.Active(e) && Edge(d, t) in Me(e).waiting && plan.Holdable(d, t) && !Me(e).givingUp
      modifies this`st
      ensures Valid() && Onward(plan.g, e, old(st), st) && d in old(Me(e)).cache
      ensures Me(e) == old(Me(e)).(waiting := old(Me(e)).waiting - {Edge(d, t)},
                                   held := old(Me(e)).held[Edge(d, t) := old(Me(e)).cache[d]])
    {
      hide Lawful, BitsAgree, CountersAgree, View, Onward, Plan.ListsOutEdges, Plan.AssignsBits, Graph.WellFormed,
        State.Used, SameCounted;
      var mid := st;
      StandingStill(plan.g, e, mid);
      InView(plan.g, mid, e, d, t);
      CacheInView(plan.g, mid, e);
      OwingEnabled(plan, mid, e, d, t);
      ModeInView(plan, mid, e);
      StepStaysUsed(plan.g, mid, FanIn.Hold(e, d, t));
      UncountedStep(plan, mid, mid, e, FanIn.Hold(e, d, t));
      OwnHold(plan.g, mid, e, d, t);
      st := Apply(plan.g, mid, FanIn.Hold(e, d, t));
      SameCountedStillAgrees(plan, counters, bits, mid.store, mid, st);
    }

    /** Publishing an own result to the proxy. */
    ghost method Send(e: Exec, d: Task)
      requires Valid() && st.Active(e) && d in Me(e).ran && plan.FansOut(d)
      modifies this`st
      ensures Valid() && Onward(plan.g, e, old(st), st)
      ensures Me(e) == old(Me(e)) && st.sent.Keys == old(st.sent.Keys) + {d}
    {
      hide Lawful, BitsAgree, CountersAgree, View, Onward, Plan.ListsOutEdges, Plan.AssignsBits, Graph.WellFormed,
        State.Used, SameCounted;
      var mid := st;
      StandingStill(plan.g, e, mid);
      InView(plan.g, mid, e, d, d);
      MadeIsRight(plan, mid, d);
      StepStaysUsed(plan.g, mid, FanIn.Send(e, d));
      UncountedStep(plan, mid, mid, e, FanIn.Send(e, d));
      OwnWrite(plan.g, mid, e, FanIn.Send(e, d));
      st := Apply(plan.g, mid, FanIn.Send(e, d));
      SameCountedStillAgrees(plan, counters, bits, mid.store, mid, st);
    }

    /** Leaving an own edge to the proxy, or passing it over. */
    ghost method LetGo(e: Exec, d: Task, t: Task, toProxy: bool)
      requires Valid() && st.Active(e) && Edge(d, t) in Me(e).waiting && !Me(e).givingUp
      requires if toProxy then d in st.sent && plan.ToProxy(d, t)
               else plan.FansOut(d) && plan.BecomeEdge(d, t) && Me(e).claims != map[]
      modifies this`st
      ensures Valid() && Onward(plan.g, e, old(st), st)
      ensures Me(e) == old(Me(e)).(waiting := old(Me(e)).waiting - {Edge(d, t)}) && st.sent == old(st.sent)
    {
      hide Lawful, BitsAgree, CountersAgree, View, Onward, Plan.ListsOutEdges, Plan.AssignsBits, Graph.WellFormed,
        State.Used, SameCounted;
      var mid := st;
      StandingStill(plan.g, e, mid);
      InView(plan.g, mid, e, d, t);
      ModeInView(plan, mid, e);
      if !toProxy {
        var t' :| t' in Me(e).claims;
        LawfulDiscipline(plan, mid);
        ClaimInView(plan.g, mid, e, t');
      }
      hide Discipline;
      var step := if toProxy then FanIn.Delegate(e, d, t) else LeaveOut(e, d, t);
      StepStaysUsed(plan.g, mid, step);
      UncountedStep(plan, mid, mid, e, step);
      OwnDelegate(plan.g, mid, step);
      st := Apply(plan.g, mid, step);
      SameCountedStillAgrees(plan, counters, bits, mid.store, mid, st);
    }

    /** Giving up on a claimed task, an input of which was not there. */
    ghost method Drop(e: Exec, t: Task, d: Task)
      requires Valid() && st.Active(e) && e != PROXY && t in Me(e).claims
      requires plan.g.HasEdge(d, t) && d !in st.store && d !in Me(e).cache
      modifies this`st
      ensures Valid() && Onward(plan.g, e, old(st), st) && HasFailed(st, e) && st.store == old(st.store)
      ensures Me(e) == old(Me(e)).(claims := old(Me(e)).claims - {t})
    {
      hide Lawful, BitsAgree, CountersAgree, View, Onward, Plan.ListsOutEdges, Plan.AssignsBits, Graph.WellFormed,
        State.Used, SameCounted, Discipline;
      var mid, c := st, Claim(t, e, Me(e).claims[t]);
      StandingStill(plan.g, e, mid);
      LawfulDiscipline(plan, mid);
      ClaimInView(plan.g, mid, e, t);
      CacheInView(plan.g, mid, e);
      assert OutOfReach(mid, c, d);
      StepStaysUsed(plan.g, mid, FanIn.Drop(c));
      UncountedStep(plan, mid, mid, e, FanIn.Drop(c));
      OwnDrop(plan.g, mid, c);
      st := Apply(plan.g, mid, FanIn.Drop(c));
      assert c in st.failed;
      SameCountedStillAgrees(plan, counters, bits, mid.store, mid, st);
    }

    /** The executor ends: after a failure, or with nothing but edges in its delayed queue left,
        and with such only if it ran a final task that no big task has to pull down; its final
        results are stored, as far as its delayed queue did not interfere. */
    ghost method Quit(e: Exec)
      requires Valid() && st.Active(e) && e != PROXY
      requires || HasFailed(st, e)
               || (&& Me(e).claims == map[] && Me(e).waiting == {}
                   && (forall edge :: edge in Me(e).owing ==> edge.src in st.store)
                   && (Me(e).held == map[] || exists t :: EndOfPath(e, t)) && FinalsKept(e))
      modifies this`st
      ensures Valid() && st == old(st).(gone := old(st).gone + {e})
    {
      hide Lawful, BitsAgree, CountersAgree, Plan.ListsOutEdges, Plan.AssignsBits, SameCounted;
      var mid := st;
      if !HasFailed(st, e) { EndsInOrder(e); }
      hide AtEnd, HasFailed;
      LawfulStep(plan, mid, FanIn.Quit(e));
      UncountedSameCounted(plan.g, mid, FanIn.Quit(e));
      st := Apply(plan.g, mid, FanIn.Quit(e));
      SameCountedStillAgrees(plan, counters, bits, mid.store, mid, st);
    }

    /** A final task that e has run and stored; some executor may have come to it as to its
        current task. */
    ghost predicate EndOfPath(e: Exec, t: Task)
      requires plan.WellFormed()
      reads this
    {
      t in Me(e).ran && plan.g.Downstream(t) == {} && plan.NotOnlyPulledDown(t) && t in st.store
    }

    /** t is a task below a big one that e ran, and could have been in e's delayed queue. */
    ghost predicate Queueable(e: Exec, t: Task)
      requires plan.WellFormed()
      reads this
    {
      t in Me(e).ran && exists d :: plan.g.HasEdge(d, t) && d in Me(e).ran && plan.Holdable(d, t)
    }

    /** The final results of e are stored, except for a task run from the queue, or run as the
        current one when another was run from there. */
    ghost predicate FinalsKept(e: Exec)
      requires plan.WellFormed()
      reads this
    {
      forall t :: t in Me(e).ran && plan.g.Downstream(t) == {} ==>
        t in st.store || Queueable(e, t) || (plan.NotOnlyPulledDown(t) && exists q :: Queueable(e, q))
    }

    lemma FinalsInOrder(e: Exec)
      requires plan.WellFormed() && Inv(plan.g, st) && FinalsKept(e)
      ensures FinalsWritten(plan, st, e)
    {
      hide Supply, Discipline, Plan.Holdable, Plan.NotOnlyPulledDown, Plan.ListsOutEdges, Plan.AssignsBits;
      RanIsOwned(e);
      forall t | Queueable(e, t) ensures MayBeQueued(plan, st, e, t) {
      }
    }

    lemma RanIsOwned(e: Exec)
      requires plan.WellFormed()
      ensures forall t :: t in Me(e).ran <==> st.Owns(e, t)
    {
    }

    lemma EndsInOrder(e: Exec)
      requires plan.WellFormed() && Lawful(plan, st) && !HasFailed(st, e) && Me(e).claims == map[] && Me(e).waiting == {}
      requires forall edge :: edge in Me(e).owing ==> edge.src in st.store
      requires Me(e).held == map[] || exists t :: EndOfPath(e, t)
      requires FinalsKept(e)
      ensures AtEnd(plan, st, e)
    {
      hide Lawful, Discipline, ValuesRight, WithinReach, Plan.ListsOutEdges, Plan.AssignsBits;
      LawfulInv(plan, st);
      forall c | c in st.pending && c.exec == e ensures c.task in Me(e).claims {
        assert c !in st.failed;
      }
      RanInGraph(e);
      FinalsInOrder(e);
      hide FinalsKept, FinalsWritten;
      forall d, t | plan.g.HasEdge(d, t) && st.Owns(e, d)
        ensures !st.Phase(d, t).Waiting? && (Me(e).held == map[] ==> !st.Phase(d, t).Held?)
      {
        InView(plan.g, st, e, d, t);
      }
    }

    lemma RanInGraph(e: Exec)
      requires plan.WellFormed() && Inv(plan.g, st)
      ensures forall t :: t in Me(e).ran ==> st.Owns(e, t) && t in plan.g.tasks
    {
      hide Supply;
    }

    /** Beginning to give up on the delayed queue, with nothing else left to do. */
    ghost method BeginGiveUp(e: Exec)
      requires Valid() && st.Active(e) && e != PROXY && !Me(e).givingUp && Me(e).claims == map[] && Me(e).waiting == {}
      modifies this`st
      ensures Valid() && Onward(plan.g, e, old(st), st) && Me(e) == old(Me(e)).(givingUp := true) && st.store == old(st.store)
    {
      SwitchMode(e, FanIn.GiveUp(e));
    }

    /** Having given up: the queue is empty, what became ready has run, and what was owed is
        written. */
    ghost method EndGiveUp(e: Exec)
      requires Valid() && st.Active(e) && e != PROXY && Me(e).givingUp && Me(e).claims == map[] && Me(e).held == map[]
      requires forall edge :: edge in Me(e).owing ==> edge.src in st.store
      modifies this`st
      ensures Valid() && Onward(plan.g, e, old(st), st) && Me(e) == old(Me(e)).(givingUp := false) && st.store == old(st.store)
    {
      SwitchMode(e, FanIn.Resume(e));
    }

    ghost method SwitchMode(e: Exec, step: Step)
      requires Valid() && st.Active(e) && e != PROXY && Me(e).claims == map[] && (step == FanIn.GiveUp(e) || step == FanIn.Resume(e))
      requires if step.GiveUp? then !Me(e).givingUp && Me(e).waiting == {}
               else Me(e).givingUp && Me(e).held == map[] && forall edge :: edge in Me(e).owing ==> edge.src in st.store
      modifies this`st
      ensures Valid() && Onward(plan.g, e, old(st), st) && Me(e) == old(Me(e)).(givingUp := step.GiveUp?) && st.store == old(st.store)
    {
      hide Lawful, BitsAgree, CountersAgree, View, Onward, Plan.ListsOutEdges, Plan.AssignsBits, Graph.WellFormed,
        State.Used, SameCounted;
      var mid := st;
      StandingStill(plan.g, e, mid);
      ModeInView(plan, mid, e);
      StepStaysUsed(plan.g, mid, step);
      UncountedStep(plan, mid, mid, e, step);
      OwnMode(plan.g, mid, e, step);
      st := Apply(plan.g, mid, step);
      SameCountedStillAgrees(plan, counters, bits, mid.store, mid, st);
    }

    /** Dropping a cached value that every dependent has run without. */
    ghost method Evict(e: Exec, d: Task)
      requires Valid() && st.Active(e) && d in plan.g.tasks
      requires forall t :: t in plan.g.Downstream(d) ==> t in Me(e).ran || t in st.store
      modifies this`st
      ensures Valid() && Onward(plan.g, e, old(st), st)
      ensures Me(e) == old(Me(e)).(cache := old(Me(e)).cache - {d})
    {
      hide Lawful, BitsAgree, CountersAgree, View, Onward, Plan.ListsOutEdges, Plan.AssignsBits, Graph.WellFormed,
        State.Used, SameCounted;
      var mid := st;
      StandingStill(plan.g, e, mid);
      RanInView(plan.g, mid, e);
      StepStaysUsed(plan.g, mid, FanIn.Evict(e, d));
      UncountedStep(plan, mid, mid, e, FanIn.Evict(e, d));
      OwnCaching(plan.g, mid, e, d, FanIn.Evict(e, d));
      st := Apply(plan.g, mid, FanIn.Evict(e, d));
      SameCountedStillAgrees(plan, counters, bits, mid.store, mid, st);
    }

    /** Handing a claim, with some cached values, to a new Lambda, which starts from these. */
    method Invoke(ghost e: Exec, t: Task, data: map<Task, Value>)
      requires Valid() && st.Active(e) && t in Me(e).claims && Me(e).claims[t] && Me(e).ran != {}
      requires forall k :: k in data ==> k in Me(e).cache && data[k] == Me(e).cache[k]
      requires t in plan.g.tasks && data.Keys <= plan.g.deps[t]
      modifies this
      ensures Valid() && Onward(plan.g, e, old(st), st)
      ensures Me(e) == old(Me(e)).(claims := old(Me(e)).claims - {t})
      ensures exists e': Exec :: e' != e && Claim(t, e', true) in st.pending && st.Cached(e') == data
    {
      hide Lawful, BitsAgree, CountersAgree, View, Onward, Plan.ListsOutEdges, Plan.AssignsBits, Graph.WellFormed,
        State.Used, SameCounted, Discipline;
      Await(e);
      ghost var mid := st;
      ghost var fresh_ := FreshExec(mid);
      ghost var c := Claim(t, e, true);
      ghost var step := FanIn.Invoke(e, fresh_, c, data);
      LawfulDiscipline(plan, mid);
      ClaimInView(plan.g, mid, e, t);
      CacheInView(plan.g, mid, e);
      RanInView(plan.g, mid, e);
      ghost var d :| d in View(plan.g, mid, e).ran;
      st := Apply(plan.g, mid, step);
      assert mid.Used(e) && fresh_ != e;
      assert Claim(t, fresh_, true) in st.pending && st.Cached(fresh_) == data;
      OwnerUsed(st, e, d);
      UncountedStep(plan, old(st), mid, e, step);
      OwnInvoke(plan.g, mid, step);
      SameCountedStillAgrees(plan, counters, bits, mid.store, mid, st);
    }
  }
}
