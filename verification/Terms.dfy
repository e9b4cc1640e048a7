/** Nested task terms: merging known data into a term and then evaluating it, against
    evaluating the term in an environment. */
module Terms {

  /** Python objects as far as these functions can tell them apart: keys are byte or text
      strings, callables are told from other atoms, and sets stand for both set types. */
  datatype Term =
    | Key(name: string)
    | Callable(id: nat)
    | Atom(n: int)
    | Tuple(items: seq<Term>)
    | List(items: seq<Term>)
    | Set(elements: set<Term>)
    | Dict(entries: seq<Entry>)

  datatype Entry = Entry(key: Term, value: Term)

  type Env = map<string, Term>

  /** What calling a callable on evaluated arguments returns. */
  type Calls = (nat, seq<Term>) -> Term

  /** A tuple with a callable at its head. */
  predicate IsTask(t: Term) {
    t.Tuple? && t.items != [] && t.items[0].Callable?
  }

  /** pack_data: substitutes data for keys, everywhere except in the keys of a dict. */
  function Pack(o: Term, d: Env): Term
    decreases o
  {
    match o
    case Key(k) => if k in d then d[k] else o
    case Tuple(items) => Tuple(seq(|items|, i requires 0 <= i < |items| => Pack(items[i], d)))
    case List(items) => List(seq(|items|, i requires 0 <= i < |items| => Pack(items[i], d)))
    case Set(elements) => Set(set x | x in elements :: Pack(x, d))
    case Dict(entries) =>
      Dict(seq(|entries|, i requires 0 <= i < |entries| => Entry(entries[i].key, Pack(entries[i].value, d))))
    case _ => o
  }

  // ---- What substitution does, place by place --------------------------------

  /** One turn on the way down into a term. */
  datatype Turn = Item(index: nat) | Value(index: nat) | Element

  /** x is at the end of this way into t.  Into a set one may turn to any of its elements. */
  predicate At(t: Term, way: seq<Turn>, x: Term)
    decreases |way|
  {
    if way == [] then x == t
    else
      match way[0]
      case Item(i) => (t.Tuple? || t.List?) && i < |t.items| && At(t.items[i], way[1..], x)
      case Value(i) => t.Dict? && i < |t.entries| && At(t.entries[i].value, way[1..], x)
      case Element => t.Set? && exists e :: e in t.elements && At(e, way[1..], x)
  }

  /** The same kind of collection, with room for the same parts: as many items, or the same
      keys in the same order. */
  predicate SameShell(x: Term, y: Term) {
    match x
    case Tuple(items) => y.Tuple? && |y.items| == |items|
    case List(items) => y.List? && |y.items| == |items|
    case Set(elements) => y.Set? && (y.elements == {} <==> elements == {})
    case Dict(entries) =>
      y.Dict? && |y.entries| == |entries| && forall i :: 0 <= i < |entries| ==> y.entries[i].key == entries[i].key
    case _ => x == y
  }

  /** y may stand where x stood: the datum of a known key, or else the same shell or leaf. */
  predicate Replaces(x: Term, y: Term, d: Env) {
    if x.Key? && x.name in d then y == d[x.name] else SameShell(x, y)
  }

  lemma SetPacked(t: Term, d: Env)
    requires t.Set?
    ensures forall e :: e in t.elements ==> Pack(e, d) in Pack(t, d).elements
    ensures forall e' :: e' in Pack(t, d).elements ==> exists e :: e in t.elements && Pack(e, d) == e'
  {
  }

  /** Whatever is in a term has its replacement at the same place of the result. */
  lemma {:induction false} PackReplaces(t: Term, d: Env, way: seq<Turn>, x: Term) returns (y: Term)
    requires At(t, way, x)
    ensures At(Pack(t, d), way, y) && Replaces(x, y, d)
    decreases |way|
  {
    var p := Pack(t, d);
    if way == [] {
      y := p;
      if t.Set? { SetPacked(t, d); }
    } else {
      match way[0]
      case Item(i) => y := PackReplaces(t.items[i], d, way[1..], x);
      case Value(i) => y := PackReplaces(t.entries[i].value, d, way[1..], x);
      case Element =>
        var e :| e in t.elements && At(e, way[1..], x);
        y := PackReplaces(e, d, way[1..], x);
        SetPacked(t, d);
        assert Pack(e, d) in p.elements;
    }
  }

  /** Whatever is in the result replaces what was at that place of the term, or lies inside
      the datum of a known key. */
  lemma {:induction false} PackedComesFrom(t: Term, d: Env, way: seq<Turn>, y: Term) returns (n: nat, x: Term)
    requires At(Pack(t, d), way, y)
    ensures n <= |way| && At(t, way[..n], x)
    ensures if n == |way| then Replaces(x, y, d) else x.Key? && x.name in d && At(d[x.name], way[n..], y)
    decreases |way|
  {
    if way == [] {
      n, x := 0, t;
      if t.Set? { SetPacked(t, d); }
    } else if t.Key? {
      assert t.name in d;
      n, x := 0, t;
      assert way[0..] == way;
    } else {
      var part: Term;
      match way[0] {
        case Item(i) => part := t.items[i];
        case Value(i) => part := t.entries[i].value;
        case Element =>
          SetPacked(t, d);
          var e' :| e' in Pack(t, d).elements && At(e', way[1..], y);
          part :| part in t.elements && Pack(part, d) == e';
      }
      var m;
      m, x := PackedComesFrom(part, d, way[1..], y);
      n := m + 1;
      assert way[..n][1..] == way[1..][..m] && way[n..] == way[1..][m..];
    }
  }

  /** execute_task: calls what is at the head of a tuple on the evaluated rest, maps over
      lists, and leaves everything else as it is. */
  function Execute(calls: Calls, t: Term): Term
    decreases t
  {
    if IsTask(t) then
      calls(t.items[0].id, seq(|t.items| - 1, i requires 0 <= i < |t.items| - 1 => Execute(calls, t.items[i + 1])))
    else if t.List? then
      List(seq(|t.items|, i requires 0 <= i < |t.items| => Execute(calls, t.items[i])))
    else
      t
  }

  /** The meaning of a term in an environment: a known key stands for its datum, a task for
      the result of its call, and what is not evaluated is only substituted into. */
  function Eval(calls: Calls, t: Term, d: Env): Term
    decreases t
  {
    if t.Key? && t.name in d then
      d[t.name]
    else if IsTask(t) then
      calls(t.items[0].id, seq(|t.items| - 1, i requires 0 <= i < |t.items| - 1 => Eval(calls, t.items[i + 1], d)))
    else if t.List? then
      List(seq(|t.items|, i requires 0 <= i < |t.items| => Eval(calls, t.items[i], d)))
    else
      Pack(t, d)
  }

  /** Data that evaluation leaves alone: no task, and no task inside lists. */
  predicate Inert(v: Term)
    decreases v
  {
    !IsTask(v) && (v.List? ==> forall i :: 0 <= i < |v.items| ==> Inert(v.items[i]))
  }

  /** No datum is evaluated again, or called, when it has taken the place of its key. */
  predicate InertEnv(d: Env) {
    forall k :: k in d ==> Inert(d[k]) && !d[k].Callable?
  }

  lemma {:induction false} InertStays(calls: Calls, v: Term)
    requires Inert(v)
    ensures Execute(calls, v) == v
  {
    if v.List? {
      forall i | 0 <= i < |v.items| ensures Execute(calls, v.items[i]) == v.items[i] {
        InertStays(calls, v.items[i]);
      }
      assert Execute(calls, v).items == v.items;
    }
  }

  /** Substituting does not change what is a task, unless a datum is callable. */
  lemma PackKeepsTasks(t: Term, d: Env)
    requires InertEnv(d) && !t.Key?
    ensures IsTask(Pack(t, d)) <==> IsTask(t)
    ensures IsTask(t) ==> Pack(t, d).items[0] == t.items[0]
  {
    if t.Tuple? && t.items != [] {
      var head := t.items[0];
      assert Pack(t, d).items[0] == Pack(head, d);
    }
  }

  /** Merging and then evaluating is evaluating in the environment. */
  lemma {:induction false} PackThenExecute(calls: Calls, t: Term, d: Env)
    requires InertEnv(d)
    ensures Execute(calls, Pack(t, d)) == Eval(calls, t, d)
    decreases t
  {
    var p := Pack(t, d);
    if t.Key? {
      if t.name in d { InertStays(calls, d[t.name]); }
    } else {
      PackKeepsTasks(t, d);
      if IsTask(t) {
        var n := |t.items| - 1;
        forall i | 0 < i < |t.items| ensures Execute(calls, p.items[i]) == Eval(calls, t.items[i], d) {
          PackThenExecute(calls, t.items[i], d);
        }
        assert seq(n, i requires 0 <= i < n => Execute(calls, p.items[i + 1]))
            == seq(n, i requires 0 <= i < n => Eval(calls, t.items[i + 1], d));
      } else if t.List? {
        forall i | 0 <= i < |t.items| ensures Execute(calls, p.items[i]) == Eval(calls, t.items[i], d) {
          PackThenExecute(calls, t.items[i], d);
        }
        assert Execute(calls, p).items == Eval(calls, t, d).items;
      }
    }
  }

  /** A callable and the keys of its arguments: it is called on their data, in that order. */
  lemma CalledOnData(calls: Calls, id: nat, names: seq<string>, d: Env)
    requires InertEnv(d) && forall i :: 0 <= i < |names| ==> names[i] in d
    ensures var keys := seq(|names|, i requires 0 <= i < |names| => Key(names[i]));
            Execute(calls, Pack(Tuple([Callable(id)] + keys), d))
            == calls(id, seq(|names|, i requires 0 <= i < |names| && names[i] in d => d[names[i]]))
  {
    var n := |names|;
    var t := Tuple([Callable(id)] + seq(n, i requires 0 <= i < n => Key(names[i])));
    var p := Pack(t, d);
    PackKeepsTasks(t, d);
    forall i | 0 <= i < n ensures Execute(calls, p.items[i + 1]) == d[names[i]] {
      assert t.items[i + 1] == Key(names[i]);
      InertStays(calls, d[names[i]]);
    }
    assert seq(|p.items| - 1, i requires 0 <= i < |p.items| - 1 => Execute(calls, p.items[i + 1]))
        == seq(n, i requires 0 <= i < n && names[i] in d => d[names[i]]);
  }

  /** A datum that is not inert changes under some meaning of the callables. */
  lemma {:induction false} NotInertChanges(v: Term)
    requires !Inert(v)
    ensures Execute((id, args) => Atom(0), v) != v
  {
    var calls: Calls := (id, args) => Atom(0);
    if !IsTask(v) {
      var i :| 0 <= i < |v.items| && !Inert(v.items[i]);
      NotInertChanges(v.items[i]);
      assert Execute(calls, v).items[i] != v.items[i];
    }
  }

  /** The law for all terms and all meanings of the callables. */
  ghost predicate PackingIsSound(d: Env) {
    forall calls: Calls, t :: Execute(calls, Pack(t, d)) == Eval(calls, t, d)
  }

  /** It holds exactly for environments whose data are inert and not callable. */
  lemma SoundExactlyWhenInert(d: Env)
    ensures PackingIsSound(d) <==> InertEnv(d)
  {
    if InertEnv(d) {
      forall calls: Calls, t ensures Execute(calls, Pack(t, d)) == Eval(calls, t, d) {
        PackThenExecute(calls, t, d);
      }
    } else {
      var k :| k in d && !(Inert(d[k]) && !d[k].Callable?);
      var calls: Calls := (id, args) => Atom(0);
      if !Inert(d[k]) {
        NotInertChanges(d[k]);
        assert Execute(calls, Pack(Key(k), d)) != Eval(calls, Key(k), d);
      } else {
        var t := Tuple([Key(k)]);
        assert Pack(t, d).items == [d[k]];
        assert Execute(calls, Pack(t, d)) == Atom(0);
        assert Eval(calls, t, d) == Pack(t, d);
      }
    }
  }
}
