/** Messages as the mutable dicts and lists they are: finding the payloads, copying the
    containers, and deleting the payloads from the copy.  Nothing here has a modifies clause
    that reaches the caller's message, so that stays as it is. */
module MessageObjects {
  import opened Messages
  import opened Frames

  class PyDict {
    var entries: map<string, Item>

    constructor (entries: map<string, Item>)
      ensures this.entries == entries
    {
      this.entries := entries;
    }
  }

  class PyList {
    var items: seq<Item>

    constructor (items: seq<Item>)
      ensures this.items == items
    {
      this.items := items;
    }
  }

  /** A reference to a container, or a value without containers that are searched. */
  datatype Item = Value(msg: Msg) | AtDict(dict: PyDict) | AtList(list: PyList)

  /** x stands for t, using containers in `objects`; containers may be shared. */
  ghost predicate Holds(x: Item, t: Msg, objects: set<object>)
    reads objects
    decreases t
  {
    match x
    case Value(m) => m == t && !Searched(m)
    case AtDict(d) =>
      && d in objects && t.Dict? && d.entries.Keys == t.entries.Keys
      && forall k :: k in t.entries ==> Holds(d.entries[k], t.entries[k], objects)
    case AtList(l) =>
      && l in objects && t.Items? && t.kind == ListKind && |l.items| == |t.items|
      && forall i :: 0 <= i < |t.items| ==> Holds(l.items[i], t.items[i], objects)
  }

  /** The containers of a message that shares none, child by child. */
  datatype Footprint = Footprint(all: set<object>, kids: map<Step, Footprint>)

  /** y stands for t and its containers are all its own. */
  ghost predicate Owns(y: Item, t: Msg, f: Footprint)
    reads f.all
    decreases t
  {
    match y
    case Value(m) => m == t && !Searched(m)
    case AtDict(d) =>
      && d in f.all && t.Dict? && d.entries.Keys == t.entries.Keys
      && (forall k :: k in t.entries ==> K(k) in f.kids && f.kids[K(k)].all <= f.all - {d})
      && (forall k, k' :: k in t.entries && k' in t.entries && k != k' ==> f.kids[K(k)].all !! f.kids[K(k')].all)
      && forall k :: k in t.entries ==> Owns(d.entries[k], t.entries[k], f.kids[K(k)])
    case AtList(l) =>
      && l in f.all && t.Items? && t.kind == ListKind && |l.items| == |t.items|
      && (forall i :: 0 <= i < |t.items| ==> I(i) in f.kids && f.kids[I(i)].all <= f.all - {l})
      && (forall i, j :: 0 <= i < |t.items| && 0 <= j < |t.items| && i != j ==> f.kids[I(i)].all !! f.kids[I(j)].all)
      && forall i :: 0 <= i < |t.items| ==> Owns(l.items[i], t.items[i], f.kids[I(i)])
  }

  // ---- _extract_serialize ----------------------------------------------------

  /** What has been recorded when the slots in `seen` below path have been visited. */
  ghost predicate Recorded(x: Msg, path: Path, ser0: map<Path, Msg>, ser: map<Path, Msg>, seen: set<Step>) {
    && (forall q :: q in ser <==> q in ser0 || (Under(x, path, q) && q[|path|] in seen))
    && (forall q :: q in ser ==>
          ser[q] == if Under(x, path, q) && q[|path|] in seen then MarkAt(x, q[|path|..]) else ser0[q])
  }

  /** One more slot has been visited. */
  lemma SlotRecorded(x: Msg, path: Path, ser0: map<Path, Msg>, ser: map<Path, Msg>, seen: set<Step>, s: Step, ser': map<Path, Msg>)
    requires Searched(x) && HasChild(x, s) && s !in seen && Recorded(x, path, ser0, ser, seen)
    requires var c := Child(x, s);
             if c.Mark? then ser' == ser[path + [s] := c]
             else if Searched(c) then Recorded(c, path + [s], ser, ser', Slots(c))
             else ser' == ser
    ensures Recorded(x, path, ser0, ser', seen + {s})
  {
    var c := Child(x, s);
    forall q: Path
      ensures q in ser' <==> q in ser0 || (Under(x, path, q) && q[|path|] in seen + {s})
      ensures q in ser' ==>
                ser'[q] == if Under(x, path, q) && q[|path|] in seen + {s} then MarkAt(x, q[|path|..]) else ser0[q]
    {
      UnderChild(x, path, s, q);
      if Under(c, path + [s], q) {
        UnderSlots(c, path + [s], q);
        assert q[|path + [s]|..] == q[|path| + 1..];
      }
      if c.Mark? && q == path + [s] { assert q[|path|..] == [s]; }
    }
  }

  /** The slots of a container that can lead to payloads. */
  ghost function Slots(x: Msg): set<Step> {
    if x.Dict? then set k | k in x.entries :: K(k)
    else if x.Items? then set i | 0 <= i < |x.items| :: I(i)
    else {}
  }

  lemma UnderSlots(x: Msg, path: Path, q: Path)
    requires Under(x, path, q)
    ensures |q| > |path| && q[|path|] in Slots(x)
  {
    assert q[|path|..][0] == q[|path|];
  }

  lemma NothingRecorded(x: Msg, path: Path, ser: map<Path, Msg>)
    ensures Recorded(x, path, ser, ser, {})
  {
  }

  /** _extract_serialize: records every payload in dicts and lists under its path. */
  method ExtractMarks(x: Item, ser0: map<Path, Msg>, path: Path, ghost t: Msg, ghost objects: set<object>)
    returns (ser: map<Path, Msg>)
    requires Holds(x, t, objects) && Searched(t)
    ensures Recorded(t, path, ser0, ser, Slots(t))
    decreases t
  {
    hide Recorded, IsMark, Under;
    ser := ser0;
    NothingRecorded(t, path, ser);
    ghost var seen: set<Step> := {};
    if x.AtDict? {
      var todo := x.dict.entries.Keys;
      while todo != {}
        invariant todo <= x.dict.entries.Keys && Recorded(t, path, ser0, ser, seen)
        invariant seen == set k | k in t.entries && k !in todo :: K(k)
      {
        var k :| k in todo;
        var v := x.dict.entries[k];
        ghost var before := ser;
        if !v.Value? {
          ser := ExtractMarks(v, ser, path + [K(k)], t.entries[k], objects);
        } else if v.msg.Mark? {
          ser := ser[path + [K(k)] := v.msg];
        }
        SlotRecorded(t, path, ser0, before, seen, K(k), ser);
        seen := seen + {K(k)};
        todo := todo - {k};
      }
      assert seen == Slots(t);
    } else {
      for i := 0 to |x.list.items|
        invariant Recorded(t, path, ser0, ser, seen) && seen == set j | 0 <= j < i :: I(j)
      {
        var v := x.list.items[i];
        ghost var before := ser;
        if !v.Value? {
          ser := ExtractMarks(v, ser, path + [I(i)], t.items[i], objects);
        } else if v.msg.Mark? {
          ser := ser[path + [I(i)] := v.msg];
        }
        SlotRecorded(t, path, ser0, before, seen, I(i), ser);
        seen := seen + {I(i)};
      }
      assert seen == Slots(t);
    }
  }

  // ---- container_copy --------------------------------------------------------

  /** The copied entries own what their footprints say, each apart from the others. */
  ghost predicate EntriesOwn(copied: map<string, Item>, t: Msg, kids: map<Step, Footprint>, all: set<object>)
    requires t.Dict?
    reads all
  {
    && copied.Keys <= t.entries.Keys
    && (forall k :: k in copied ==> K(k) in kids && kids[K(k)].all <= all)
    && (forall k, k' :: k in copied && k' in copied && k != k' ==> kids[K(k)].all !! kids[K(k')].all)
    && forall k :: k in copied ==> Owns(copied[k], t.entries[k], kids[K(k)])
  }

  ghost predicate ItemsOwn(copied: seq<Item>, t: Msg, kids: map<Step, Footprint>, all: set<object>)
    requires t.Items?
    reads all
  {
    && |copied| <= |t.items|
    && (forall i :: 0 <= i < |copied| ==> I(i) in kids && kids[I(i)].all <= all)
    && (forall i, j :: 0 <= i < |copied| && 0 <= j < |copied| && i != j ==> kids[I(i)].all !! kids[I(j)].all)
    && forall i :: 0 <= i < |copied| ==> Owns(copied[i], t.items[i], kids[I(i)])
  }

  lemma EntryOwned(copied: map<string, Item>, t: Msg, kids: map<Step, Footprint>, all: set<object>, k: string, c: Item, g: Footprint)
    requires t.Dict? && EntriesOwn(copied, t, kids, all) && k in t.entries && k !in copied
    requires Owns(c, t.entries[k], g) && g.all !! all
    ensures EntriesOwn(copied[k := c], t, kids[K(k) := g], all + g.all)
  {
    hide Owns;
  }

  lemma ItemOwned(copied: seq<Item>, t: Msg, kids: map<Step, Footprint>, all: set<object>, c: Item, g: Footprint)
    requires t.Items? && ItemsOwn(copied, t, kids, all) && |copied| < |t.items|
    requires Owns(c, t.items[|copied|], g) && g.all !! all
    ensures ItemsOwn(copied + [c], t, kids[I(|copied|) := g], all + g.all)
  {
    hide Owns;
  }

  lemma DictOwns(d: PyDict, t: Msg, kids: map<Step, Footprint>, all: set<object>)
    requires t.Dict? && EntriesOwn(d.entries, t, kids, all) && d.entries.Keys == t.entries.Keys && d !in all
    ensures Owns(AtDict(d), t, Footprint(all + {d}, kids))
  {
  }

  lemma ListOwns(l: PyList, t: Msg, kids: map<Step, Footprint>, all: set<object>)
    requires t.Items? && t.kind == ListKind && ItemsOwn(l.items, t, kids, all) && |l.items| == |t.items| && l !in all
    ensures Owns(AtList(l), t, Footprint(all + {l}, kids))
  {
  }

  /** container_copy: new containers throughout, for the same message. */
  method ContainerCopy(x: Item, ghost t: Msg, ghost objects: set<object>) returns (y: Item, ghost f: Footprint)
    requires Holds(x, t, objects)
    ensures Owns(y, t, f) && fresh(f.all)
    decreases t
  {
    hide Owns, EntriesOwn, ItemsOwn;
    ghost var kids: map<Step, Footprint> := map[];
    ghost var all: set<object> := {};
    if x.Value? {
      y, f := x, Footprint({}, map[]);
      ValueOwns(x.msg, f);
    } else if x.AtDict? {
      var copied: map<string, Item> := map[];
      var todo := x.dict.entries.Keys;
      NoneOwned(t);
      while todo != {}
        invariant todo <= x.dict.entries.Keys && copied.Keys == x.dict.entries.Keys - todo && fresh(all)
        invariant EntriesOwn(copied, t, kids, all)
      {
        var k :| k in todo;
        var c;
        ghost var g;
        c, g := ContainerCopy(x.dict.entries[k], t.entries[k], objects);
        EntryOwned(copied, t, kids, all, k, c, g);
        copied := copied[k := c];
        kids := kids[K(k) := g];
        all := all + g.all;
        todo := todo - {k};
      }
      var d := new PyDict(copied);
      DictOwns(d, t, kids, all);
      y, f := AtDict(d), Footprint(all + {d}, kids);
    } else {
      var copied: seq<Item> := [];
      NoneOwned(t);
      for i := 0 to |x.list.items|
        invariant |copied| == i && fresh(all) && ItemsOwn(copied, t, kids, all)
      {
        var c;
        ghost var g;
        c, g := ContainerCopy(x.list.items[i], t.items[i], objects);
        ItemOwned(copied, t, kids, all, c, g);
        copied := copied + [c];
        kids := kids[I(i) := g];
        all := all + g.all;
      }
      var l := new PyList(copied);
      ListOwns(l, t, kids, all);
      y, f := AtList(l), Footprint(all + {l}, kids);
    }
  }

  lemma NoneOwned(t: Msg)
    ensures t.Dict? ==> EntriesOwn(map[], t, map[], {})
    ensures t.Items? ==> ItemsOwn([], t, map[], {})
  {
  }

  lemma ValueOwns(m: Msg, f: Footprint)
    requires !Searched(m)
    ensures Owns(Value(m), m, f)
  {
  }

  // ---- Deleting payloads from the copy ---------------------------------------

  /** del t[k] or t[i] = None at the end of path. */
  method RemoveAt(y: Item, path: Path, ghost t: Msg, ghost f: Footprint)
    requires Owns(y, t, f) && path != [] && Exists(t, path) && InSearched(t, path)
    modifies f.all
    ensures Owns(y, Remove(t, path), f)
    decreases |path|
  {
    if y.AtDict? {
      var k := path[0].key;
      if |path| == 1 {
        y.dict.entries := y.dict.entries - {k};
      } else {
        RemoveAt(y.dict.entries[k], path[1..], t.entries[k], f.kids[K(k)]);
      }
    } else {
      var i := path[0].index;
      if |path| == 1 {
        y.list.items := y.list.items[i := Value(Nil)];
      } else {
        RemoveAt(y.list.items[i], path[1..], t.items[i], f.kids[I(i)]);
      }
    }
  }

  /** All containers on the path are dicts and lists. */
  predicate InSearched(t: Msg, path: Path)
    requires Exists(t, path)
    decreases |path|
  {
    path == [] || (Searched(t) && InSearched(Child(t, path[0]), path[1..]))
  }

  lemma {:induction false} MarkInSearched(x: Msg, kept: set<Path>, p: Path)
    requires IsMark(x, p) && p in kept
    ensures Exists(StripBut(x, kept), p) && InSearched(StripBut(x, kept), p)
    decreases |p|
  {
    TakeOut(x, kept, p);
    StripSlot(x, kept, p[0]);
    StripShape(x, kept);
    if |p| > 1 {
      InTails(kept, p);
      MarkInSearched(Child(x, p[0]), Tails(kept, p[0]), p[1..]);
    }
  }

  lemma RecordedAll(t: Msg, ser: map<Path, Msg>)
    requires Recorded(t, [], map[], ser, Slots(t))
    ensures forall p :: p in ser <==> IsMark(t, p)
    ensures forall p :: p in ser ==> ser[p] == MarkAt(t, p)
  {
    forall p: Path ensures Under(t, [], p) <==> IsMark(t, p) { assert p[0..] == p; }
    forall p: Path | Under(t, [], p) ensures p[0] in Slots(t) { UnderSlots(t, [], p); }
    assert forall p: Path :: p[0..] == p;
  }

  /** extract_serialize: the payloads by path, and a message without them.  That message is
      a copy of the containers if there is any payload; the caller's containers still hold
      what they held. */
  method ExtractSerialize(x: Item, ghost t: Msg, ghost objects: set<object>)
    returns (y: Item, ser: map<Path, Msg>, ghost f: Footprint)
    requires Holds(x, t, objects)
    ensures Holds(x, t, objects)
    ensures forall p :: p in ser <==> IsMark(t, p)
    ensures forall p :: p in ser ==> ser[p] == MarkAt(t, p)
    ensures if ser == map[] then y == x && StripBut(t, {}) == t else Owns(y, StripBut(t, {}), f) && fresh(f.all)
  {
    hide Holds, Owns, StripBut, IsMark, Recorded;
    f := Footprint({}, map[]);
    ser := map[];
    NotSearchedNoMarks(x, t, objects);
    if !x.Value? {
      ser := ExtractMarks(x, map[], [], t, objects);
      RecordedAll(t, ser);
    }
    y := x;
    KeepAll(t, ser.Keys);
    if ser == map[] {
      assert ser.Keys == {};
    } else {
      y, f := ContainerCopy(x, t, objects);
      var todo := ser.Keys;
      while todo != {}
        invariant todo <= ser.Keys && Owns(y, StripBut(t, todo), f) && fresh(f.all)
        invariant Holds(x, t, objects)
      {
        var p :| p in todo;
        TakeOut(t, todo, p);
        MarkInSearched(t, todo, p);
        RemoveAt(y, p, StripBut(t, todo), f);
        todo := todo - {p};
      }
    }
  }

  lemma NotSearchedNoMarks(x: Item, t: Msg, objects: set<object>)
    requires Holds(x, t, objects)
    ensures x.Value? <==> !Searched(t)
    ensures forall p :: IsMark(t, p) ==> p != [] && Searched(t)
  {
  }

  // ---- Sending and loading ---------------------------------------------------

  /** A message that owns its containers is held in them. */
  lemma {:induction false} OwnsHolds(y: Item, t: Msg, f: Footprint, objects: set<object>)
    requires Owns(y, t, f) && f.all <= objects
    ensures Holds(y, t, objects)
    decreases t
  {
    if y.AtDict? {
      forall k | k in t.entries ensures Holds(y.dict.entries[k], t.entries[k], objects) {
        OwnsHolds(y.dict.entries[k], t.entries[k], f.kids[K(k)], objects);
      }
    } else if y.AtList? {
      forall i | 0 <= i < |t.items| ensures Holds(y.list.items[i], t.items[i], objects) {
        OwnsHolds(y.list.items[i], t.items[i], f.kids[I(i)], objects);
      }
    }
  }

  /** What is unpacked on the other side. */
  method OnTheWire(y: Item, ghost t: Msg, ghost objects: set<object>) returns (m: Msg)
    requires Holds(y, t, objects)
    ensures m == Wire(t)
    decreases t
  {
    if y.Value? {
      m := Wire(y.msg);
    } else if y.AtDict? {
      var entries: map<string, Msg> := map[];
      var todo := y.dict.entries.Keys;
      while todo != {}
        invariant todo <= y.dict.entries.Keys && entries.Keys == t.entries.Keys - todo
        invariant forall k :: k in entries ==> entries[k] == Wire(t.entries[k])
      {
        var k :| k in todo;
        var e := OnTheWire(y.dict.entries[k], t.entries[k], objects);
        entries := entries[k := e];
        todo := todo - {k};
      }
      m := Dict(entries);
    } else {
      var items: seq<Msg> := [];
      for i := 0 to |y.list.items|
        invariant |items| == i && forall j :: 0 <= j < i ==> items[j] == Wire(t.items[j])
      {
        var e := OnTheWire(y.list.items[i], t.items[i], objects);
        items := items + [e];
      }
      m := Items(TupleKind, items);
    }
  }

  /** From one side to the other: whatever the order in which the payloads are sent, the
      message arrives, up to list and tuple, and the sender's containers hold what they held. */
  method SendAndLoad(x: Item, enc: Msg -> seq<Frame>, dec: seq<Frame> -> Msg, ghost t: Msg, ghost objects: set<object>)
    returns (msg: Msg)
    requires Holds(x, t, objects) && forall m: Msg :: m.Mark? ==> dec(enc(m)) == m
    ensures Alike(t, msg) && Holds(x, t, objects)
  {
    hide Holds, Owns, StripBut, IsMark, Wire;
    var y, ser;
    ghost var f;
    y, ser, f := ExtractSerialize(x, t, objects);
    ghost var all := objects + f.all;
    if ser != map[] { OwnsHolds(y, StripBut(t, {}), f, f.all); }
    var small := OnTheWire(y, StripBut(t, {}), if ser == map[] then objects else f.all);
    var keys, counts, frames := PackPayloads(ser, enc);
    assert forall p :: p in keys <==> p in PathsOf(keys);
    msg := Loads(small, keys, counts, frames, dec, t, ser, enc);
    WireAlike(t, msg);
  }
}
