/** The scheduler's lock extension: named locks, a queue of events per name, and wake-ups that
    the event loop delivers later.  Waits are without a timeout. */
module Locks {

  type Name = string
  type Id = nat
  type Event = nat

  /** A suspended acquire call: the lock it wants and for whom. */
  datatype Waiter = Waiter(name: Name, id: Id)

  datatype State = State(
    ids: map<Name, Id>,              // who holds each lock
    events: map<Name, seq<Event>>,   // the queue of each lock
    waiting: map<Event, Waiter>,     // suspended calls, by the event they wait for
    callbacks: multiset<Event>,      // scheduled on the loop: set this event
    isSet: set<Event>,               // events that have been set
    next: Event)                     // events from here on are new
  {
    function Queue(name: Name): seq<Event> { if name in events then events[name] else [] }
  }

  datatype Outcome = Granted | Suspended

  datatype Step =
    | Acquire(name: Name, id: Id)    // a new call
    | Release(name: Name, id: Id)    // by the holder
    | Deliver(event: Event)          // the loop runs a callback
    | Resume(event: Event)           // a suspended call goes on

  const INIT := State(map[], map[], map[], multiset{}, {}, 0)

  /** The call joins the queue with a new event. */
  function Enqueue(s: State, w: Waiter): State {
    s.(events := s.events[w.name := s.Queue(w.name) + [s.next]], waiting := s.waiting[s.next := w], next := s.next + 1)
  }

  function Enter(s: State, w: Waiter): State {
    if w.name in s.ids then Enqueue(s, w) else s.(ids := s.ids[w.name := w.id])
  }

  /** A release with an id that does not hold the lock is an error and is left out here. */
  predicate Enabled(s: State, step: Step) {
    match step
    case Acquire(_, _) => true
    case Release(name, id) => name in s.ids && s.ids[name] == id
    case Deliver(event) => event in s.callbacks
    case Resume(event) => event in s.waiting && event in s.isSet && s.Queue(s.waiting[event].name) != []
  }

  function Apply(s: State, step: Step): State
    requires Enabled(s, step)
  {
    match step
    case Acquire(name, id) => Enter(s, Waiter(name, id))
    case Release(name, id) =>
      var s' := s.(ids := s.ids - {name});
      if s.Queue(name) != [] then s'.(callbacks := s.callbacks + multiset{s.Queue(name)[0]})
      else s'.(events := s.events - {name})
    case Deliver(event) => s.(callbacks := s.callbacks - multiset{event}, isSet := s.isSet + {event})
    case Resume(event) =>
      var w := s.waiting[event];
      Enter(s.(events := s.events[w.name := s.Queue(w.name)[1..]], waiting := s.waiting - {event}), w)
  }

  // ---- What every step keeps -------------------------------------------------

  /** The queue of a name holds exactly the events of its suspended calls, each once. */
  ghost predicate QueueRight(s: State, name: Name) {
    && (forall e :: e in s.Queue(name) <==> e in s.waiting && s.waiting[e].name == name)
    && (forall i, j :: 0 <= i < j < |s.Queue(name)| ==> s.Queue(name)[i] != s.Queue(name)[j])
  }

  /** An event is pending: its setting is scheduled or has happened. */
  predicate Woken(s: State, e: Event) { e in s.callbacks || e in s.isSet }

  /** Only the head of a queue is ever woken. */
  ghost predicate OnlyHeadWoken(s: State, e: Event) {
    e in s.waiting && Woken(s, e) ==> s.Queue(s.waiting[e].name) != [] && s.Queue(s.waiting[e].name)[0] == e
  }

  /** A free lock with a queue has woken the head of the queue. */
  predicate NoLostWakeUp(s: State, name: Name) {
    name !in s.ids && s.Queue(name) != [] ==> Woken(s, s.Queue(name)[0])
  }

  /** Events in use are not new. */
  predicate Old(s: State, e: Event) { e in s.waiting || Woken(s, e) ==> e < s.next }

  ghost predicate Inv(s: State) {
    && (forall name {:trigger QueueRight(s, name)} :: QueueRight(s, name))
    && (forall e {:trigger OnlyHeadWoken(s, e)} :: OnlyHeadWoken(s, e))
    && (forall name {:trigger NoLostWakeUp(s, name)} :: NoLostWakeUp(s, name))
    && (forall e {:trigger Old(s, e)} :: Old(s, e))
  }

  lemma EnterKeepsInv(s: State, w: Waiter)
    requires forall name {:trigger QueueRight(s, name)} :: QueueRight(s, name)
    requires forall e {:trigger Old(s, e)} :: Old(s, e)
    requires forall e {:trigger OnlyHeadWoken(s, e)} :: OnlyHeadWoken(s, e)
    requires forall name {:trigger NoLostWakeUp(s, name)} :: name != w.name ==> NoLostWakeUp(s, name)
    ensures Inv(Enter(s, w))
  {
    var s' := Enter(s, w);
    assert Old(s, s.next);
    forall e ensures Old(s', e) { assert Old(s, e); }
    forall name ensures QueueRight(s', name) {
      assert QueueRight(s, name);
      assert forall i :: 0 <= i < |s.Queue(name)| ==> s.Queue(name)[i] in s.Queue(name);
    }
    forall e ensures OnlyHeadWoken(s', e) {
      assert OnlyHeadWoken(s, e) && Old(s, e);
      if e in s.waiting { assert QueueRight(s, s.waiting[e].name); }
    }
    forall name ensures NoLostWakeUp(s', name) {
      if name != w.name { assert NoLostWakeUp(s, name); }
    }
  }

  lemma ReleaseKeepsInv(s: State, name: Name, id: Id)
    requires Inv(s) && Enabled(s, Release(name, id))
    ensures Inv(Apply(s, Release(name, id)))
  {
    var s' := Apply(s, Release(name, id));
    forall n ensures QueueRight(s', n) { assert QueueRight(s, n); }
    forall e ensures OnlyHeadWoken(s', e) {
      assert OnlyHeadWoken(s, e) && QueueRight(s, name);
    }
    forall n ensures NoLostWakeUp(s', n) { assert NoLostWakeUp(s, n); }
    assert QueueRight(s, name);
    forall e ensures Old(s', e) {
      assert Old(s, e);
      if s.Queue(name) != [] && e == s.Queue(name)[0] { assert e in s.Queue(name); }
    }
  }

  lemma DeliverKeepsInv(s: State, event: Event)
    requires Inv(s) && Enabled(s, Deliver(event))
    ensures Inv(Apply(s, Deliver(event)))
  {
    var s' := Apply(s, Deliver(event));
    assert forall e :: Woken(s', e) <==> Woken(s, e);
    forall e ensures Old(s', e) { assert Old(s, e); }
    forall n ensures QueueRight(s', n) { assert QueueRight(s, n); }
    forall e ensures OnlyHeadWoken(s', e) { assert OnlyHeadWoken(s, e); }
    forall n ensures NoLostWakeUp(s', n) { assert NoLostWakeUp(s, n); }
  }

  /** A call that goes on pops its own event. */
  lemma PopsOwnEvent(s: State, event: Event)
    requires Inv(s) && Enabled(s, Resume(event))
    ensures s.Queue(s.waiting[event].name)[0] == event
  {
    assert OnlyHeadWoken(s, event);
  }

  lemma ResumeKeepsInv(s: State, event: Event)
    requires Inv(s) && Enabled(s, Resume(event))
    ensures Inv(Apply(s, Resume(event)))
  {
    PopsOwnEvent(s, event);
    var w := s.waiting[event];
    var s1 := s.(events := s.events[w.name := s.Queue(w.name)[1..]], waiting := s.waiting - {event});
    forall n ensures QueueRight(s1, n) {
      assert QueueRight(s, n);
      if n == w.name { assert s.Queue(n) == [event] + s1.Queue(n); }
    }
    forall e ensures OnlyHeadWoken(s1, e) {
      assert OnlyHeadWoken(s, e) && OnlyHeadWoken(s, event);
    }
    forall e ensures Old(s1, e) { assert Old(s, e); }
    forall n | n != w.name ensures NoLostWakeUp(s1, n) { assert NoLostWakeUp(s, n); }
    EnterKeepsInv(s1, w);
  }

  lemma StepKeepsInv(s: State, step: Step)
    requires Inv(s) && Enabled(s, step)
    ensures Inv(Apply(s, step))
  {
    match step
    case Acquire(name, id) => EnterKeepsInv(s, Waiter(name, id));
    case Release(name, id) => ReleaseKeepsInv(s, name, id);
    case Deliver(event) => DeliverKeepsInv(s, event);
    case Resume(event) => ResumeKeepsInv(s, event);
  }

  // ---- Runs ------------------------------------------------------------------

  predicate CanRun(s: State, steps: seq<Step>)
    decreases |steps|
  {
    steps == [] || (Enabled(s, steps[0]) && CanRun(Apply(s, steps[0]), steps[1..]))
  }

  function RunFrom(s: State, steps: seq<Step>): State
    requires CanRun(s, steps)
    decreases |steps|
  {
    if steps == [] then s else RunFrom(Apply(s, steps[0]), steps[1..])
  }

  ghost predicate Reachable(s: State) {
    exists steps :: CanRun(INIT, steps) && RunFrom(INIT, steps) == s
  }

  lemma {:induction false} RunKeepsInv(s: State, steps: seq<Step>)
    requires Inv(s) && CanRun(s, steps)
    ensures Inv(RunFrom(s, steps))
    decreases |steps|
  {
    hide Inv, Apply, Enabled;
    if steps != [] {
      StepKeepsInv(s, steps[0]);
      RunKeepsInv(Apply(s, steps[0]), steps[1..]);
    }
  }

  /** In every run: a call that goes on pops its own event, and a free lock that calls wait
      for has woken the first of them. */
  lemma WaitersAreSafe(s: State)
    requires Reachable(s)
    ensures forall event :: Enabled(s, Resume(event)) ==> s.Queue(s.waiting[event].name)[0] == event
    ensures forall name :: name !in s.ids && s.Queue(name) != [] ==> Woken(s, s.Queue(name)[0])
  {
    var steps :| CanRun(INIT, steps) && RunFrom(INIT, steps) == s;
    assert Inv(INIT);
    RunKeepsInv(INIT, steps);
    forall event | Enabled(s, Resume(event)) ensures s.Queue(s.waiting[event].name)[0] == event {
      PopsOwnEvent(s, event);
    }
    forall name | name !in s.ids && s.Queue(name) != [] ensures Woken(s, s.Queue(name)[0]) {
      assert NoLostWakeUp(s, name);
    }
  }

  /** Steps that grant the lock to the first in its queue, once the lock is free. */
  lemma HeadCanGoOn(s: State, name: Name) returns (s': State, steps: seq<Step>)
    requires Inv(s) && name !in s.ids && s.Queue(name) != []
    ensures CanRun(s, steps) && RunFrom(s, steps) == s' && Inv(s') && forall step :: step in steps ==> !step.Acquire?
    ensures var head := s.Queue(name)[0];
            head in s.waiting && name in s'.ids && s'.ids[name] == s.waiting[head].id && s'.Queue(name) == s.Queue(name)[1..]
  {
    var head := s.Queue(name)[0];
    assert QueueRight(s, name) && NoLostWakeUp(s, name) && head in s.Queue(name);
    var s1 := s;
    steps := [];
    if head !in s.isSet {
      OneStep(s, Deliver(head));
      s1 := Apply(s, Deliver(head));
      steps := [Deliver(head)];
      StepKeepsInv(s, Deliver(head));
    }
    PopsOwnEvent(s1, head);
    StepKeepsInv(s1, Resume(head));
    OneStep(s1, Resume(head));
    RunsCompose(s, steps, [Resume(head)]);
    s' := Apply(s1, Resume(head));
    steps := steps + [Resume(head)];
  }

  lemma OneStep(s: State, step: Step)
    requires Enabled(s, step)
    ensures CanRun(s, [step]) && RunFrom(s, [step]) == Apply(s, step)
  {
    hide Apply, Enabled;
    assert [step][1..] == [];
    assert RunFrom(Apply(s, step), []) == Apply(s, step);
  }

  lemma {:induction false} RunsCompose(s: State, steps: seq<Step>, more: seq<Step>)
    requires CanRun(s, steps) && CanRun(RunFrom(s, steps), more)
    ensures CanRun(s, steps + more) && RunFrom(s, steps + more) == RunFrom(RunFrom(s, steps), more)
    decreases |steps|
  {
    hide Apply, Enabled;
    if steps == [] {
      assert steps + more == more;
    } else {
      RunsCompose(Apply(s, steps[0]), steps[1..], more);
      assert (steps + more)[1..] == steps[1..] + more;
    }
  }

  /** No call waits for ever because of the queue: if holders release and no new call comes,
      every waiting call of a name is granted in turn. */
  lemma {:induction false} EveryWaiterCanBeServed(s: State, name: Name) returns (s': State, steps: seq<Step>)
    requires Inv(s)
    ensures CanRun(s, steps) && RunFrom(s, steps) == s' && Inv(s')
    ensures s'.Queue(name) == [] && name !in s'.ids
    ensures forall step :: step in steps ==> !step.Acquire?
    decreases |s.Queue(name)|, name in s.ids
  {
    hide Inv;
    if name in s.ids {
      var release := Release(name, s.ids[name]);
      StepKeepsInv(s, release);
      var s1 := Apply(s, release);
      assert s1.Queue(name) == s.Queue(name);
      var more;
      s', more := EveryWaiterCanBeServed(s1, name);
      steps := [release] + more;
      assert steps[1..] == more;
    } else if s.Queue(name) == [] {
      s', steps := s, [];
    } else {
      var s1, first := HeadCanGoOn(s, name);
      var more;
      s', more := EveryWaiterCanBeServed(s1, name);
      RunsCompose(s, first, more);
      steps := first + more;
    }
  }

  // ---- Who holds the lock ----------------------------------------------------

  /** The call that takes the lock or joins its queue in this step. */
  function Caller(s: State, step: Step): Waiter
    requires Enabled(s, step) && (step.Acquire? || step.Resume?)
  {
    match step
    case Acquire(name, id) => Waiter(name, id)
    case Resume(event) => s.waiting[event]
  }

  /** The lock is the caller's. */
  predicate Holds(s: State, w: Waiter) { w.name in s.ids && s.ids[w.name] == w.id }

  /** A new event, the last of those that waited before, stands for just this call. */
  predicate WaitsLast(s: State, s': State, w: Waiter, ahead: seq<Event>) {
    && s'.ids == s.ids && s'.next == s.next + 1
    && s.next in s'.waiting && s'.waiting[s.next] == w
    && s'.Queue(w.name) == ahead + [s.next]
  }

  /** The other locks, with their queues. */
  ghost predicate OthersSame(s: State, s': State, name: Name) {
    forall n :: n != name ==> (n in s'.ids <==> n in s.ids) && (n in s.ids ==> s'.ids[n] == s.ids[n]) && s'.Queue(n) == s.Queue(n)
  }

  /** A call that finds the lock free holds it, and any other waits behind the calls that are
      waiting already. */
  lemma CallerHoldsOrWaits(s: State, step: Step)
    requires Inv(s) && Enabled(s, step) && (step.Acquire? || step.Resume?)
    ensures var w, s' := Caller(s, step), Apply(s, step);
            && (if w.name in s.ids
                then WaitsLast(s, s', w, if step.Resume? then s.Queue(w.name)[1..] else s.Queue(w.name))
                else Holds(s', w))
            && OthersSame(s, s', w.name)
  {
    var w, s' := Caller(s, step), Apply(s, step);
    assert OthersSame(s, s', w.name);
  }

  /** Whatever happens, a lock stays with its holder until the holder releases it. */
  lemma {:induction false} HoldsUntilRelease(s: State, steps: seq<Step>, w: Waiter)
    requires CanRun(s, steps) && Holds(s, w) && Release(w.name, w.id) !in steps
    ensures Holds(RunFrom(s, steps), w)
    decreases |steps|
  {
    if steps != [] {
      assert steps[0] in steps && Holds(Apply(s, steps[0]), w);
      hide Apply, Enabled, Holds;
      HoldsUntilRelease(Apply(s, steps[0]), steps[1..], w);
    }
  }

  /** From its grant to its release, a call can release the lock, and nobody with another id
      can. */
  lemma GrantLasts(s: State, step: Step, steps: seq<Step>, id: Id)
    requires Enabled(s, step) && (step.Acquire? || step.Resume?) && Caller(s, step).name !in s.ids
    requires CanRun(Apply(s, step), steps) && Release(Caller(s, step).name, Caller(s, step).id) !in steps
    ensures Enabled(RunFrom(Apply(s, step), steps), Release(Caller(s, step).name, id)) <==> id == Caller(s, step).id
  {
    var w := Caller(s, step);
    assert Holds(Apply(s, step), w);
    HoldsUntilRelease(Apply(s, step), steps, w);
  }

  /** The holder's release frees the lock. */
  lemma ReleaseFrees(s: State, w: Waiter)
    requires Holds(s, w)
    ensures var s' := Apply(s, Release(w.name, w.id));
            && w.name !in s'.ids && s'.Queue(w.name) == s.Queue(w.name) && s'.waiting == s.waiting
            && OthersSame(s, s', w.name)
  {
    assert OthersSame(s, Apply(s, Release(w.name, w.id)), w.name);
  }

  // ---- The extension itself --------------------------------------------------

  datatype Result = Ok | NotAcquired

  /** The extension's two tables, and the event loop around it. */
  class LockExtension {
    var ids: map<Name, Id>
    var events: map<Name, seq<Event>>
    var waiting: map<Event, Waiter>
    var callbacks: multiset<Event>
    var isSet: set<Event>
    var next: Event

    constructor ()
      ensures Now() == INIT && Valid()
    {
      ids, events, waiting, callbacks, isSet, next := map[], map[], map[], multiset{}, {}, 0;
      new;
      assert CanRun(INIT, []) && RunFrom(INIT, []) == INIT;
    }

    function Now(): State
      reads this
    {
      State(ids, events, waiting, callbacks, isSet, next)
    }

    /** Some sequence of calls and wake-ups leads here. */
    ghost predicate Valid()
      reads this
    {
      Reachable(Now())
    }

    /** The part of acquire up to where it returns or waits. */
    method TakeOrWait(w: Waiter) returns (r: Outcome)
      modifies this
      ensures Now() == Enter(old(Now()), w)
      ensures r.Granted? <==> w.name !in old(ids)
      ensures if r.Granted? then Holds(Now(), w) && waiting == old(waiting)
              else && WaitsLast(old(Now()), Now(), w, old(Now()).Queue(w.name))
                   && waiting - {old(next)} == old(waiting) - {old(next)}
      ensures OthersSame(old(Now()), Now(), w.name)
    {
      if w.name !in ids {
        ids := ids[w.name := w.id];
        return Granted;
      }
      var event := next;
      next := next + 1;
      events := events[w.name := (if w.name in events then events[w.name] else []) + [event]];
      waiting := waiting[event := w];
      return Suspended;
    }

    method Acquire(name: Name, id: Id) returns (r: Outcome)
      requires Valid()
      modifies this
      ensures Valid() && Now() == Apply(old(Now()), Step.Acquire(name, id))
      ensures r.Granted? <==> name !in old(ids)
      ensures if r.Granted? then Holds(Now(), Waiter(name, id))
              else WaitsLast(old(Now()), Now(), Waiter(name, id), old(Now()).Queue(name))
      ensures OthersSame(old(Now()), Now(), name)
    {
      ReachesNext(Now(), Step.Acquire(name, id));
      r := TakeOrWait(Waiter(name, id));
    }

    /** After its event was set: pop the queue, and then take the lock or wait again. */
    method Resume(event: Event) returns (r: Outcome)
      requires Valid() && event in waiting && event in isSet
      modifies this
      ensures Valid() && Enabled(old(Now()), Step.Resume(event)) && Now() == Apply(old(Now()), Step.Resume(event))
      ensures r.Granted? <==> old(waiting)[event].name !in old(ids)
      ensures old(Now()).Queue(old(waiting)[event].name)[0] == event
      ensures if r.Granted? then Holds(Now(), old(waiting)[event])
              else WaitsLast(old(Now()), Now(), old(waiting)[event], old(Now()).Queue(old(waiting)[event].name)[1..])
      ensures OthersSame(old(Now()), Now(), old(waiting)[event].name)
    {
      QueuedWhileWaiting(Now(), event);
      WaitersAreSafe(Now());
      ReachesNext(Now(), Step.Resume(event));
      var w := waiting[event];
      var event2 := events[w.name][0];
      events := events[w.name := events[w.name][1..]];
      assert event2 == event;
      waiting := waiting - {event};
      r := TakeOrWait(w);
    }

    /** Gives the lock back, and schedules the waking of the first waiting call. */
    method Release(name: Name, id: Id) returns (r: Result)
      requires Valid()
      modifies this
      ensures Valid() && (r.Ok? <==> name in old(ids) && old(ids)[name] == id)
      ensures Now() == if r.Ok? then Apply(old(Now()), Step.Release(name, id)) else old(Now())
      ensures r.Ok? ==> name !in ids && waiting == old(waiting) && OthersSame(old(Now()), Now(), name)
      ensures r.Ok? ==> Now().Queue(name) == old(Now()).Queue(name)
    {
      if name !in ids || ids[name] != id {
        return NotAcquired;
      }
      ReachesNext(Now(), Step.Release(name, id));
      ids := ids - {name};
      if name in events && events[name] != [] {
        callbacks := callbacks + multiset{events[name][0]};
      } else {
        events := events - {name};
      }
      return Ok;
    }

    /** The event loop runs a scheduled callback. */
    method Deliver(event: Event)
      requires Valid() && event in callbacks
      modifies this
      ensures Valid() && Now() == Apply(old(Now()), Step.Deliver(event))
    {
      ReachesNext(Now(), Step.Deliver(event));
      callbacks := callbacks - multiset{event};
      isSet := isSet + {event};
    }
  }

  lemma ReachesNext(s: State, step: Step)
    requires Reachable(s) && Enabled(s, step)
    ensures Reachable(Apply(s, step))
  {
    hide Apply, Enabled;
    var steps :| CanRun(INIT, steps) && RunFrom(INIT, steps) == s;
    OneStep(s, step);
    RunsCompose(INIT, steps, [step]);
  }

  lemma ReachableInv(s: State)
    requires Reachable(s)
    ensures Inv(s)
  {
    var steps :| CanRun(INIT, steps) && RunFrom(INIT, steps) == s;
    assert Inv(INIT);
    hide Inv;
    RunKeepsInv(INIT, steps);
  }

  lemma QueuedWhileWaiting(s: State, event: Event)
    requires Reachable(s) && event in s.waiting
    ensures s.Queue(s.waiting[event].name) != []
  {
    ReachableInv(s);
    assert QueueRight(s, s.waiting[event].name);
  }
}
