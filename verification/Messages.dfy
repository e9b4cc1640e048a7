/** Messages with payloads inside: the payloads are taken out before the message is packed,
    and put back, one path at a time, after it is unpacked. */
module Messages {
  import opened Frames

  datatype Kind = ListKind | TupleKind

  /** `Mark` is a payload: an object to serialize, one serialized before, or a large byte
      string; `Nil` is None. */
  datatype Msg =
    | Plain(id: int)
    | Mark(id: int)
    | Nil
    | Items(kind: Kind, items: seq<Msg>)
    | Dict(entries: map<string, Msg>)

  datatype Step = K(key: string) | I(index: nat)

  type Path = seq<Step>

  // ---- Paths -----------------------------------------------------------------

  predicate HasChild(x: Msg, s: Step) {
    match s
    case K(k) => x.Dict? && k in x.entries
    case I(i) => x.Items? && i < |x.items|
  }

  function Child(x: Msg, s: Step): Msg
    requires HasChild(x, s)
  {
    match s case K(k) => x.entries[k] case I(i) => x.items[i]
  }

  /** A slot that can be assigned: any key of a dict, an index within a list. */
  predicate HasSlot(x: Msg, s: Step) {
    match s
    case K(k) => x.Dict?
    case I(i) => x.Items? && i < |x.items|
  }

  function SetSlot(x: Msg, s: Step, v: Msg): Msg
    requires HasSlot(x, s)
  {
    match s
    case K(k) => Dict(x.entries[k := v])
    case I(i) => Items(x.kind, x.items[i := v])
  }

  /** path leads through existing containers, and its last step to a slot. */
  predicate Leads(x: Msg, path: Path)
    decreases |path|
  {
    path == [] ||
    if |path| == 1 then HasSlot(x, path[0]) else HasChild(x, path[0]) && Leads(Child(x, path[0]), path[1..])
  }

  /** get_in */
  function GetIn(x: Msg, path: Path): Msg
    requires Exists(x, path)
    decreases |path|
  {
    if path == [] then x else GetIn(Child(x, path[0]), path[1..])
  }

  predicate Exists(x: Msg, path: Path)
    decreases |path|
  {
    path == [] || (HasChild(x, path[0]) && Exists(Child(x, path[0]), path[1..]))
  }

  /** x with v at the end of path. */
  function Write(x: Msg, path: Path, v: Msg): Msg
    requires Leads(x, path)
    decreases |path|
  {
    if path == [] then v
    else if |path| == 1 then SetSlot(x, path[0], v)
    else SetSlot(x, path[0], Write(Child(x, path[0]), path[1..], v))
  }

  // ---- Payloads and where they are -------------------------------------------

  /** Containers that are searched for payloads: dicts and lists, but not tuples. */
  predicate Searched(x: Msg) { x.Dict? || (x.Items? && x.kind == ListKind) }

  /** p leads to a payload of x. */
  predicate IsMark(x: Msg, p: Path)
    decreases |p|
  {
    && p != [] && Searched(x) && HasChild(x, p[0])
    && if |p| == 1 then Child(x, p[0]).Mark? else IsMark(Child(x, p[0]), p[1..])
  }

  function MarkAt(x: Msg, p: Path): Msg
    requires IsMark(x, p)
    decreases |p|
  {
    if |p| == 1 then Child(x, p[0]) else MarkAt(Child(x, p[0]), p[1..])
  }

  function Tails(paths: set<Path>, s: Step): set<Path> {
    set p | p in paths && p != [] && p[0] == s :: p[1..]
  }

  /** x without its payloads, except for those at the paths in `kept`: a payload in a dict is
      missing, one in a list is replaced by None. */
  function StripBut(x: Msg, kept: set<Path>): Msg
    decreases x
  {
    if !Searched(x) then x
    else match x
      case Dict(entries) =>
        Dict(map k | k in entries && (!entries[k].Mark? || [K(k)] in kept) :: StripBut(entries[k], Tails(kept, K(k))))
      case Items(kind, items) =>
        Items(kind, seq(|items|, i requires 0 <= i < |items| =>
          if items[i].Mark? && [I(i)] !in kept then Nil else StripBut(items[i], Tails(kept, I(i)))))
      case _ => x
  }

  /** p leads through dicts and lists of x only. */
  predicate Reached(x: Msg, p: Path)
    decreases |p|
  {
    p == [] || ((x.Dict? || (x.Items? && x.kind == ListKind)) && HasChild(x, p[0]) && Reached(Child(x, p[0]), p[1..]))
  }

  lemma {:induction false} ReachedExists(x: Msg, p: Path)
    requires Reached(x, p)
    ensures Exists(x, p)
    decreases |p|
  {
    if p != [] { ReachedExists(Child(x, p[0]), p[1..]); }
  }

  /** The payloads are the marks that dicts and lists lead to, at any depth. */
  lemma {:induction false} MarksAre(x: Msg, p: Path)
    ensures IsMark(x, p) <==> p != [] && Reached(x, p) && (ReachedExists(x, p); GetIn(x, p).Mark?)
    decreases |p|
  {
    if p != [] && Searched(x) && HasChild(x, p[0]) {
      var c, rest := Child(x, p[0]), p[1..];
      MarksAre(c, rest);
      if |p| == 1 { assert rest == [] && Reached(c, rest); }
      if Reached(c, rest) {
        ReachedExists(c, rest);
        assert Reached(x, p);
        assert GetIn(x, p) == GetIn(c, rest);
      }
    }
  }

  /** None of them is left in what is packed. */
  lemma {:induction false} NoMarkLeft(x: Msg, p: Path)
    ensures !IsMark(StripBut(x, {}), p)
    decreases |p|
  {
    if p != [] && Searched(x) {
      StripSlot(x, {}, p[0]);
      if HasChild(StripBut(x, {}), p[0]) {
        assert Tails({}, p[0]) == {};
        NoMarkLeft(Child(x, p[0]), p[1..]);
      }
    }
  }

  // ---- Equality up to list and tuple -----------------------------------------

  /** What a message becomes on the wire: lists are unpacked as tuples. */
  function Wire(x: Msg): Msg
    decreases x
  {
    match x
    case Items(_, items) => Items(TupleKind, seq(|items|, i requires 0 <= i < |items| => Wire(items[i])))
    case Dict(entries) => Dict(map k | k in entries :: Wire(entries[k]))
    case _ => x
  }

  lemma WireChild(x: Msg, s: Step)
    ensures HasChild(Wire(x), s) <==> HasChild(x, s)
    ensures HasSlot(Wire(x), s) <==> HasSlot(x, s)
    ensures HasChild(x, s) ==> Child(Wire(x), s) == Wire(Child(x, s))
  {
  }

  lemma WireSetSlot(x: Msg, s: Step, v: Msg)
    requires HasSlot(x, s)
    ensures HasSlot(Wire(x), s) && Wire(SetSlot(x, s, v)) == SetSlot(Wire(x), s, Wire(v))
  {
    WireChild(x, s);
    if s.K? {
      assert Wire(SetSlot(x, s, v)).entries == SetSlot(Wire(x), s, Wire(v)).entries;
    } else {
      assert Wire(SetSlot(x, s, v)).items == SetSlot(Wire(x), s, Wire(v)).items;
    }
  }

  lemma {:induction false} WireWrite(x: Msg, path: Path, v: Msg)
    requires Leads(x, path)
    ensures Leads(Wire(x), path) && Wire(Write(x, path, v)) == Write(Wire(x), path, Wire(v))
    decreases |path|
  {
    if path != [] {
      WireChild(x, path[0]);
      if |path| == 1 {
        WireSetSlot(x, path[0], v);
      } else {
        var c := Child(x, path[0]);
        WireWrite(c, path[1..], v);
        WireSetSlot(x, path[0], Write(c, path[1..], v));
      }
    }
  }

  /** The same message, but for which of its sequences are lists and which tuples. */
  predicate Alike(x: Msg, y: Msg)
    decreases x
  {
    match x
    case Items(_, items) => y.Items? && |y.items| == |items| && forall i :: 0 <= i < |items| ==> Alike(items[i], y.items[i])
    case Dict(entries) =>
      y.Dict? && y.entries.Keys == entries.Keys && forall k :: k in entries ==> Alike(entries[k], y.entries[k])
    case _ => y == x
  }

  /** On the wire, messages are the same exactly if they differ in nothing but list and tuple. */
  lemma {:induction false} WireAlike(x: Msg, y: Msg)
    ensures Wire(x) == Wire(y) <==> Alike(x, y)
    decreases x
  {
    match x
    case Items(_, items) =>
      if y.Items? && |y.items| == |items| {
        forall i | 0 <= i < |items| ensures Wire(items[i]) == Wire(y.items[i]) <==> Alike(items[i], y.items[i]) {
          WireAlike(items[i], y.items[i]);
        }
        var a, b := Wire(x).items, Wire(y).items;
        assert a == b <==> forall i :: 0 <= i < |items| ==> a[i] == b[i];
        assert forall i :: 0 <= i < |items| ==> a[i] == Wire(items[i]) && b[i] == Wire(y.items[i]);
      } else if y.Items? {
        assert |Wire(x).items| != |Wire(y).items|;
      }
    case Dict(entries) =>
      if y.Dict? {
        assert Wire(x).entries.Keys == entries.Keys && Wire(y).entries.Keys == y.entries.Keys;
        forall k | k in entries && k in y.entries
          ensures Wire(entries[k]) == Wire(y.entries[k]) <==> Alike(entries[k], y.entries[k])
        {
          WireAlike(entries[k], y.entries[k]);
        }
        assert entries.Keys == y.entries.Keys ==>
            (Wire(x).entries == Wire(y).entries <==> forall k :: k in entries ==> Wire(x).entries[k] == Wire(y).entries[k]);
      }
    case _ =>
  }

  // ---- put_in ----------------------------------------------------------------

  lemma {:induction false} LeadsToHolder(x: Msg, path: Path)
    requires path != []
    ensures Leads(x, path) <==> Exists(x, path[..|path| - 1]) && HasSlot(GetIn(x, path[..|path| - 1]), path[|path| - 1])
    ensures Leads(x, path) ==> Leads(x, path[..|path| - 1])
    decreases |path|
  {
    var front := path[..|path| - 1];
    if |path| > 1 {
      assert front[0] == path[0] && front[1..] == path[1..][..|path| - 2];
      if HasChild(x, path[0]) {
        LeadsToHolder(Child(x, path[0]), path[1..]);
      }
    }
  }

  /** put_in: a tuple that has to be assigned into is replaced by a list, in its own holder. */
  function PutIn(path: Path, coll: Msg, v: Msg): Msg
    requires Leads(coll, path)
    decreases |path|
  {
    if path == [] then v
    else
      var front, last := path[..|path| - 1], path[|path| - 1];
      LeadsToHolder(coll, path);
      var holder := GetIn(coll, front);
      if holder.Items? && holder.kind == TupleKind then
        PutIn(front, coll, SetSlot(Items(ListKind, holder.items), last, v))
      else
        Write(coll, front, SetSlot(holder, last, v))
  }

  lemma {:induction false} WriteHolder(x: Msg, path: Path, v: Msg)
    requires path != [] && Leads(x, path)
    ensures var front, last := path[..|path| - 1], path[|path| - 1];
            && Exists(x, front) && HasSlot(GetIn(x, front), last) && Leads(x, front)
            && Write(x, path, v) == Write(x, front, SetSlot(GetIn(x, front), last, v))
    decreases |path|
  {
    LeadsToHolder(x, path);
    var front, last := path[..|path| - 1], path[|path| - 1];
    if |path| > 1 {
      assert front[0] == path[0] && front[1..] == path[1..][..|path| - 2];
      WriteHolder(Child(x, path[0]), path[1..], v);
    }
  }

  lemma {:induction false} SameWrite(x: Msg, path: Path, v: Msg, w: Msg)
    requires Leads(x, path) && Wire(v) == Wire(w)
    ensures Wire(Write(x, path, v)) == Wire(Write(x, path, w))
  {
    WireWrite(x, path, v);
    WireWrite(x, path, w);
  }

  /** Up to list and tuple, put_in writes the value at the path and changes nothing else. */
  lemma {:induction false} PutInWrites(path: Path, coll: Msg, v: Msg)
    requires Leads(coll, path)
    ensures Wire(PutIn(path, coll, v)) == Wire(Write(coll, path, v))
    decreases |path|
  {
    if path != [] {
      var front, last := path[..|path| - 1], path[|path| - 1];
      WriteHolder(coll, path, v);
      var holder := GetIn(coll, front);
      if holder.Items? && holder.kind == TupleKind {
        var list := Items(ListKind, holder.items);
        PutInWrites(front, coll, SetSlot(list, last, v));
        assert Wire(list) == Wire(holder);
        WireSetSlot(list, last, v);
        WireSetSlot(holder, last, v);
        SameWrite(coll, front, SetSlot(list, last, v), SetSlot(holder, last, v));
      }
    }
  }

  // ---- Taking payloads out and putting them back -----------------------------

  /** del for a key, None for an index. */
  function Remove(x: Msg, path: Path): Msg
    requires path != [] && Exists(x, path)
    decreases |path|
  {
    if |path| == 1 then
      match path[0] case K(k) => Dict(x.entries - {k}) case I(i) => Items(x.kind, x.items[i := Nil])
    else
      SetSlot(x, path[0], Remove(Child(x, path[0]), path[1..]))
  }

  lemma TailsAdd(kept: set<Path>, p: Path, s: Step)
    requires p != []
    ensures Tails(kept + {p}, s) == Tails(kept, s) + if p[0] == s then {p[1..]} else {}
  {
    if p[0] == s { assert p in kept + {p}; }
  }

  lemma TailsRemove(kept: set<Path>, p: Path, s: Step)
    requires p != []
    ensures Tails(kept - {p}, s) == Tails(kept, s) - if p[0] == s then {p[1..]} else {}
  {
    forall q | q in kept && q != [] && q[0] == s && q != p && p[0] == s ensures q[1..] != p[1..] {
      assert q == [q[0]] + q[1..] && p == [p[0]] + p[1..];
    }
    forall r | r in Tails(kept, s) && (p[0] != s || r != p[1..]) ensures r in Tails(kept - {p}, s) {
      var q :| q in kept && q != [] && q[0] == s && q[1..] == r;
      assert q in kept - {p};
    }
  }

  /** Containers are equal if they are of one shape and hold the same in every slot. */
  lemma SameChildren(y: Msg, z: Msg)
    requires (y.Dict? && z.Dict?) || (y.Items? && z.Items? && y.kind == z.kind && |y.items| == |z.items|)
    requires forall s: Step :: HasChild(y, s) <==> HasChild(z, s)
    requires forall s: Step :: HasChild(y, s) ==> Child(y, s) == Child(z, s)
    ensures y == z
  {
    if y.Dict? {
      forall k: string ensures k in y.entries <==> k in z.entries { assert HasChild(y, K(k)) <==> HasChild(z, K(k)); }
      forall k: string | k in y.entries ensures y.entries[k] == z.entries[k] { assert HasChild(y, K(k)); }
      assert y.entries == z.entries;
    } else {
      forall i | 0 <= i < |y.items| ensures y.items[i] == z.items[i] { assert HasChild(y, I(i)); }
      assert y.items == z.items;
    }
  }

  /** What StripBut leaves in each slot. */
  lemma StripSlot(x: Msg, kept: set<Path>, s: Step)
    requires Searched(x)
    ensures var y := StripBut(x, kept);
            && (HasChild(y, s) <==> HasChild(x, s) && (x.Items? || !Child(x, s).Mark? || [s] in kept))
            && (HasChild(y, s) ==>
                  Child(y, s) == if Child(x, s).Mark? then (if [s] in kept then Child(x, s) else Nil)
                                 else StripBut(Child(x, s), Tails(kept, s)))
            && HasSlot(y, s) == HasSlot(x, s)
  {
  }

  lemma StripShape(x: Msg, kept: set<Path>)
    requires Searched(x)
    ensures var y := StripBut(x, kept);
            (x.Dict? && y.Dict?) || (x.Items? && y.Items? && y.kind == x.kind && |y.items| == |x.items|)
  {
  }

  lemma SetSlotChild(y: Msg, s: Step, v: Msg, s': Step)
    requires HasSlot(y, s)
    ensures var z := SetSlot(y, s, v);
            && (HasChild(z, s') <==> s' == s || HasChild(y, s'))
            && (HasChild(z, s') ==> Child(z, s') == if s' == s then v else Child(y, s'))
            && ((y.Dict? && z.Dict?) || (y.Items? && z.Items? && y.kind == z.kind && |y.items| == |z.items|))
  {
  }

  lemma OtherKept(kept: set<Path>, p: Path, s: Step)
    requires p != [] && p[0] != s
    ensures [s] in kept + {p} <==> [s] in kept
    ensures [s] in kept - {p} <==> [s] in kept
    ensures Tails(kept + {p}, s) == Tails(kept, s) && Tails(kept - {p}, s) == Tails(kept, s)
  {
    TailsAdd(kept, p, s);
    TailsRemove(kept, p, s);
  }

  /** Writing a payload back is keeping it. */
  lemma {:induction false} WriteBack(x: Msg, kept: set<Path>, p: Path)
    requires IsMark(x, p)
    ensures Leads(StripBut(x, kept), p)
    ensures Write(StripBut(x, kept), p, MarkAt(x, p)) == StripBut(x, kept + {p})
    decreases |p|
  {
    hide StripBut, Tails, SetSlot;
    var s, y, z, c := p[0], StripBut(x, kept), StripBut(x, kept + {p}), Child(x, p[0]);
    StripSlot(x, kept, s);
    StripSlot(x, kept + {p}, s);
    TailsAdd(kept, p, s);
    if |p| > 1 { WriteBack(c, Tails(kept, s), p[1..]); }
    assert |p| == 1 ==> p == [s];
    var v := if |p| == 1 then c else StripBut(c, Tails(kept, s) + {p[1..]});
    var w := SetSlot(y, s, v);
    forall s': Step
      ensures HasChild(w, s') <==> HasChild(z, s')
      ensures HasChild(w, s') ==> Child(w, s') == Child(z, s')
    {
      SetSlotChild(y, s, v, s');
      StripSlot(x, kept, s');
      StripSlot(x, kept + {p}, s');
      if s' != s { OtherKept(kept, p, s'); }
    }
    SetSlotChild(y, s, v, s);
    StripShape(x, kept);
    StripShape(x, kept + {p});
    SameChildren(w, z);
  }

  lemma RemoveChild(y: Msg, s: Step, s': Step)
    requires HasChild(y, s)
    ensures var z := Remove(y, [s]);
            && (HasChild(z, s') <==> HasChild(y, s') && (s' != s || y.Items?))
            && (HasChild(z, s') ==> Child(z, s') == if s' == s then Nil else Child(y, s'))
            && ((y.Dict? && z.Dict?) || (y.Items? && z.Items? && y.kind == z.kind && |y.items| == |z.items|))
  {
  }

  /** Removing a payload is not keeping it. */
  lemma {:induction false} TakeOut(x: Msg, kept: set<Path>, p: Path)
    requires IsMark(x, p) && p in kept
    ensures Exists(StripBut(x, kept), p)
    ensures Remove(StripBut(x, kept), p) == StripBut(x, kept - {p})
    decreases |p|
  {
    hide StripBut, Tails, SetSlot;
    var s, y, z, c := p[0], StripBut(x, kept), StripBut(x, kept - {p}), Child(x, p[0]);
    StripSlot(x, kept, s);
    StripSlot(x, kept - {p}, s);
    TailsRemove(kept, p, s);
    assert |p| == 1 ==> p == [s];
    if |p| > 1 {
      InTails(kept, p);
      TakeOut(c, Tails(kept, s), p[1..]);
    }
    var v := StripBut(c, Tails(kept, s) - {p[1..]});
    var w := if |p| == 1 then Remove(y, [s]) else SetSlot(y, s, v);
    forall s': Step
      ensures HasChild(w, s') <==> HasChild(z, s')
      ensures HasChild(w, s') ==> Child(w, s') == Child(z, s')
    {
      if |p| == 1 { RemoveChild(y, s, s'); } else { SetSlotChild(y, s, v, s'); }
      StripSlot(x, kept, s');
      StripSlot(x, kept - {p}, s');
      if s' != s { OtherKept(kept, p, s'); }
    }
    if |p| == 1 { RemoveChild(y, s, s); } else { SetSlotChild(y, s, v, s); }
    StripShape(x, kept);
    StripShape(x, kept - {p});
    SameChildren(w, z);
  }

  lemma InTails(kept: set<Path>, p: Path)
    requires p in kept && p != []
    ensures p[1..] in Tails(kept, p[0])
  {
  }

  /** Keeping every payload is keeping the message. */
  lemma {:induction false} KeepAll(x: Msg, kept: set<Path>)
    requires forall p :: IsMark(x, p) ==> p in kept
    ensures StripBut(x, kept) == x
    decreases x
  {
    if Searched(x) {
      forall s: Step
        ensures HasChild(StripBut(x, kept), s) <==> HasChild(x, s)
        ensures HasChild(x, s) ==> Child(StripBut(x, kept), s) == Child(x, s)
      {
        StripSlot(x, kept, s);
        if HasChild(x, s) {
          if Child(x, s).Mark? {
            assert IsMark(x, [s]);
          } else {
            forall p | IsMark(Child(x, s), p) ensures p in Tails(kept, s) {
              assert IsMark(x, [s] + p) by { assert ([s] + p)[1..] == p; }
              InTails(kept, [s] + p);
              assert ([s] + p)[1..] == p;
            }
            ChildSmaller(x, s);
            KeepAll(Child(x, s), Tails(kept, s));
          }
        }
      }
      StripShape(x, kept);
      SameChildren(StripBut(x, kept), x);
    }
  }

  lemma ChildSmaller(x: Msg, s: Step)
    requires HasChild(x, s)
    ensures Child(x, s) < x
  {
  }

  // ---- Payloads below a path -------------------------------------------------

  /** q lies below path, and from there leads to a payload of x. */
  predicate Under(x: Msg, path: Path, q: Path) {
    path <= q && IsMark(x, q[|path|..])
  }

  lemma UnderChild(x: Msg, path: Path, s: Step, q: Path)
    requires Searched(x) && HasChild(x, s)
    ensures (Under(x, path, q) && q[|path|] == s) <==>
            (if Child(x, s).Mark? then q == path + [s] else Under(Child(x, s), path + [s], q))
    ensures Under(x, path, q) && q[|path|] == s && !Child(x, s).Mark? ==>
              MarkAt(x, q[|path|..]) == MarkAt(Child(x, s), q[|path| + 1..])
  {
    if path + [s] <= q {
      assert q[|path|] == (path + [s])[|path|] == s && q[..|path|] == (path + [s])[..|path|] == path;
    }
    if |q| > |path| && path <= q {
      var r := q[|path|..];
      assert r[1..] == q[|path| + 1..];
      if q[|path|] == s {
        assert q[..|path| + 1] == path + [s] && path + [s] <= q;
        assert q[|path + [s]|..] == r[1..] && r[0] == s;
        assert |r| == 1 <==> q == path + [s];
        assert IsMark(x, r) <==> if |r| == 1 then Child(x, s).Mark? else IsMark(Child(x, s), r[1..]);
        assert |r| == 1 ==> r[1..] == [];
        assert Child(x, s).Mark? ==> !IsMark(Child(x, s), r[1..]);
      }
    }
  }

  // ---- Frames for the payloads, and back -------------------------------------

  /** The frames of the listed payloads, block after block. */
  ghost function Blocks(keys: seq<Path>, ser: map<Path, Msg>, enc: Msg -> seq<Frame>): seq<Frame>
    requires forall p :: p in keys ==> p in ser
  {
    if keys == [] then [] else enc(ser[keys[0]]) + Blocks(keys[1..], ser, enc)
  }

  lemma {:induction false} BlocksAppend(keys: seq<Path>, p: Path, ser: map<Path, Msg>, enc: Msg -> seq<Frame>)
    requires p in ser && forall q :: q in keys ==> q in ser
    ensures forall q :: q in keys + [p] ==> q in ser
    ensures Blocks(keys + [p], ser, enc) == Blocks(keys, ser, enc) + enc(ser[p])
  {
    if keys == [] {
      assert [p][1..] == [];
    } else {
      BlocksAppend(keys[1..], p, ser, enc);
      assert (keys + [p])[1..] == keys[1..] + [p];
    }
  }

  ghost function PathsOf(keys: seq<Path>): set<Path> { set p | p in keys }

  /** The sender's loop: one key, one frame count and one block of frames for each payload. */
  method PackPayloads(ser: map<Path, Msg>, enc: Msg -> seq<Frame>)
    returns (keys: seq<Path>, counts: seq<nat>, frames: seq<Frame>)
    ensures PathsOf(keys) == ser.Keys && |counts| == |keys|
    ensures forall i, j :: 0 <= i < j < |keys| ==> keys[i] != keys[j]
    ensures forall i :: 0 <= i < |keys| ==> keys[i] in ser && counts[i] == |enc(ser[keys[i]])|
    ensures frames == Blocks(keys, ser, enc)
  {
    keys, counts, frames := [], [], [];
    var todo := ser.Keys;
    while todo != {}
      invariant todo <= ser.Keys && PathsOf(keys) == ser.Keys - todo && |counts| == |keys|
      invariant forall i, j :: 0 <= i < j < |keys| ==> keys[i] != keys[j]
      invariant forall i :: 0 <= i < |keys| ==> keys[i] in ser && counts[i] == |enc(ser[keys[i]])|
      invariant forall p :: p in keys ==> p in ser
      invariant frames == Blocks(keys, ser, enc)
    {
      var p :| p in todo;
      assert p !in PathsOf(keys);
      BlocksAppend(keys, p, ser, enc);
      assert PathsOf(keys + [p]) == PathsOf(keys) + {p};
      keys := keys + [p];
      counts := counts + [|enc(ser[p])|];
      frames := frames + enc(ser[p]);
      todo := todo - {p};
    }
  }

  lemma {:induction false} LeadsOnWire(x: Msg, path: Path)
    ensures Leads(Wire(x), path) <==> Leads(x, path)
    decreases |path|
  {
    if path != [] {
      WireChild(x, path[0]);
      if |path| > 1 && HasChild(x, path[0]) {
        LeadsOnWire(Child(x, path[0]), path[1..]);
      }
    }
  }

  /** Putting one payload back into a message that is, up to list and tuple, x with the
      payloads in `kept`. */
  lemma PutBack(x: Msg, kept: set<Path>, msg: Msg, p: Path)
    requires IsMark(x, p) && Wire(msg) == Wire(StripBut(x, kept))
    ensures Leads(msg, p) && Wire(PutIn(p, msg, MarkAt(x, p))) == Wire(StripBut(x, kept + {p}))
  {
    hide StripBut, Wire, PutIn, Write;
    WriteBack(x, kept, p);
    var y, v := StripBut(x, kept), MarkAt(x, p);
    LeadsOnWire(y, p);
    LeadsOnWire(msg, p);
    PutInWrites(p, msg, v);
    WireWrite(msg, p, v);
    WireWrite(y, p, v);
  }

  /** The last `count` frames of the stack, in their original order, and the rest. */
  lemma TopOfStack(stack: seq<Frame>, block: seq<Frame>, rest: seq<Frame>)
    requires stack == Reversed(block + rest)
    ensures |stack| >= |block|
    ensures Reversed(stack[|stack| - |block|..]) == block && stack[..|stack| - |block|] == Reversed(rest)
  {
  }

  /** loads: each key takes its block of frames off the stack, and its payload is put in.
      In whatever order the keys come, the result is the sent message up to list and tuple. */
  method Loads(small: Msg, keys: seq<Path>, counts: seq<nat>, frames: seq<Frame>, dec: seq<Frame> -> Msg,
               ghost x: Msg, ghost ser: map<Path, Msg>, ghost enc: Msg -> seq<Frame>)
    returns (msg: Msg)
    requires small == Wire(StripBut(x, {}))
    requires forall p :: p in keys <==> IsMark(x, p)
    requires forall p :: p in keys ==> p in ser && ser[p] == MarkAt(x, p)
    requires |counts| == |keys| && forall i :: 0 <= i < |keys| ==> counts[i] == |enc(ser[keys[i]])|
    requires frames == Blocks(keys, ser, enc) && forall m: Msg :: m.Mark? ==> dec(enc(m)) == m
    ensures Wire(msg) == Wire(x)
  {
    hide StripBut, Wire, PutIn;
    var stack := Reverse(frames);
    msg := small;
    WireTwice(StripBut(x, {}));
    assert keys[0..] == keys && PathsOf(keys[..0]) == {};
    for i := 0 to |keys|
      invariant stack == Reversed(Blocks(keys[i..], ser, enc))
      invariant Wire(msg) == Wire(StripBut(x, PathsOf(keys[..i])))
    {
      var key, count := keys[i], counts[i];
      assert key in keys && keys[i..][1..] == keys[i + 1..];
      TopOfStack(stack, enc(ser[key]), Blocks(keys[i + 1..], ser, enc));
      var fs := Reverse(stack[|stack| - count..]);
      stack := stack[..|stack| - count];
      MarkIsMark(x, key);
      var value := dec(fs);
      PutBack(x, PathsOf(keys[..i]), msg, key);
      msg := PutIn(key, msg, value);
      assert PathsOf(keys[..i + 1]) == PathsOf(keys[..i]) + {key} by {
        assert keys[..i + 1] == keys[..i] + [key];
      }
    }
    assert keys[..|keys|] == keys;
    KeepAll(x, PathsOf(keys));
  }

  lemma {:induction false} MarkIsMark(x: Msg, p: Path)
    requires IsMark(x, p)
    ensures MarkAt(x, p).Mark?
    decreases |p|
  {
    if |p| > 1 { MarkIsMark(Child(x, p[0]), p[1..]); }
  }

  lemma {:induction false} WireTwice(x: Msg)
    ensures Wire(Wire(x)) == Wire(x)
    decreases x
  {
    if x.Dict? {
      forall k | k in x.entries ensures Wire(Wire(x.entries[k])) == Wire(x.entries[k]) { WireTwice(x.entries[k]); }
      assert Wire(Wire(x)).entries == Wire(x).entries;
    } else if x.Items? {
      forall i | 0 <= i < |x.items| ensures Wire(Wire(x.items[i])) == Wire(x.items[i]) { WireTwice(x.items[i]); }
      assert Wire(Wire(x)).items == Wire(x).items;
    }
  }
}
