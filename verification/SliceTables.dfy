/** Objects as nested dictionaries, serialized into one list of frames with a table of slices
    at each level. */
module SliceTables {

  type Key = string
  type Frame = seq<bv8>

  /** `Plain` stands for strings, integers and floats, `Opaque` for everything that needs a
      serializer of its own. */
  datatype Obj = Plain(id: int) | Opaque(id: int) | Items(items: seq<Obj>) | Dict(entries: map<Key, Obj>)

  /** What the serializer of a leaf returns is left open. */
  datatype Header = Leaf(head: int) | Table(simple: map<Key, Obj>, complex: seq<Slot>)

  datatype Slot = Slot(key: Key, header: Header, start: nat, stop: nat)

  datatype Coded = Coded(header: Header, frames: seq<Frame>)

  /** The check whether msgpack can take a value.  For a dict it asks whether the dict's own
      type is str, once per key, so only the empty dict passes. */
  predicate Simple(v: Obj) {
    match v
    case Plain(_) => true
    case Opaque(_) => false
    case Items(items) => forall i :: 0 <= i < |items| ==> Simple(items[i])
    case Dict(entries) => entries == map[]
  }

  /** A value and everything inside it. */
  ghost function Parts(v: Obj): set<Obj>
    decreases v
  {
    {v} + match v
          case Items(items) => set i, x | 0 <= i < |items| && x in Parts(items[i]) :: x
          case Dict(entries) => set k, x | k in entries && x in Parts(entries[k]) :: x
          case _ => {}
  }

  /** msgpack gets a value exactly if nothing inside it, at any depth, needs a serializer or is
      a dict with entries. */
  lemma {:induction false} SimpleExactly(v: Obj)
    ensures Simple(v) <==> forall x :: x in Parts(v) ==> !x.Opaque? && (x.Dict? ==> x.entries == map[])
    decreases v
  {
    match v
    case Items(items) =>
      forall i | 0 <= i < |items|
        ensures Simple(items[i]) <==> forall x :: x in Parts(items[i]) ==> !x.Opaque? && (x.Dict? ==> x.entries == map[])
        ensures Parts(items[i]) <= Parts(v)
      {
        SimpleExactly(items[i]);
      }
    case Dict(entries) => assert v in Parts(v);
    case _ => assert v in Parts(v);
  }

  /** The slices follow one another from frame 0 up to frame n. */
  predicate Tiles(slots: seq<Slot>, n: nat) {
    && (forall i :: 0 <= i < |slots| ==> slots[i].start <= slots[i].stop)
    && (forall i :: 0 < i < |slots| ==> slots[i].start == slots[i - 1].stop)
    && (if slots == [] then n == 0 else slots[0].start == 0 && slots[|slots| - 1].stop == n)
  }

  lemma {:induction false} TilesWithin(slots: seq<Slot>, n: nat)
    requires Tiles(slots, n)
    ensures forall i :: 0 <= i < |slots| ==> slots[i].stop <= n
  {
    if slots != [] {
      var last := |slots| - 1;
      TilesWithin(slots[..last], slots[last].start);
      assert forall i :: 0 <= i < last ==> slots[i] == slots[..last][i];
    }
  }

  predicate Holds(slot: Slot, k: nat) { slot.start <= k < slot.stop }

  /** Every frame belongs to exactly one slice. */
  lemma {:induction false} TilesCover(slots: seq<Slot>, n: nat, k: nat)
    requires Tiles(slots, n) && k < n
    ensures exists i :: 0 <= i < |slots| && Holds(slots[i], k)
    ensures forall i, j | 0 <= i < |slots| && 0 <= j < |slots| ::
              Holds(slots[i], k) && Holds(slots[j], k) ==> i == j
    decreases |slots|
  {
    var last := |slots| - 1;
    var front := slots[..last];
    TilesWithin(front, slots[last].start);
    assert forall i :: 0 <= i < last ==> slots[i] == front[i];
    if k < slots[last].start {
      TilesCover(front, slots[last].start, k);
      var i :| 0 <= i < |front| && Holds(front[i], k);
      assert Holds(slots[i], k);
    } else {
      assert Holds(slots[last], k);
    }
  }

  /** The slice with these bounds, as far as it lies in the list. */
  function Slice(frames: seq<Frame>, start: nat, stop: nat): seq<Frame> {
    if start <= stop <= |frames| then frames[start..stop]
    else if start <= |frames| < stop then frames[start..]
    else []
  }

  /** header and frames describe v: by the leaf serializer, or by a table that has exactly the
      simple entries inline and one slice for each other entry. */
  ghost predicate Encodes(ser: Obj -> Coded, v: Obj, header: Header, frames: seq<Frame>)
    decreases v
  {
    if !v.Dict? then
      header.Leaf? && ser(v) == Coded(header, frames)
    else
      && header.Table?
      && (forall k :: k in header.simple <==> k in v.entries && Simple(v.entries[k]))
      && (forall k :: k in header.simple ==> header.simple[k] == v.entries[k])
      && SlotKeys(header.complex) == (set k | k in v.entries && !Simple(v.entries[k]))
      && (forall i, j :: 0 <= i < j < |header.complex| ==> header.complex[i].key != header.complex[j].key)
      && Tiles(header.complex, |frames|)
      && forall i :: 0 <= i < |header.complex| ==>
           var slot := header.complex[i];
           slot.key in v.entries
           && Encodes(ser, v.entries[slot.key], slot.header, Slice(frames, slot.start, slot.stop))
  }

  function SlotKeys(slots: seq<Slot>): set<Key> { set s | s in slots :: s.key }

  /** The leaf serializer marks its headers as such, and its deserializer inverts it. */
  ghost predicate Invertible(ser: Obj -> Coded, de: Coded -> Obj) {
    forall v: Obj :: !v.Dict? ==> ser(v).header.Leaf? && de(ser(v)) == v
  }

  /** Where an entry is found: inline, as it is, or in one slot, of which header and slice are
      what the leaf serializer returns or, for a dict, describe it in their turn. */
  ghost predicate Placed(ser: Obj -> Coded, entry: Obj, key: Key, table: Header, frames: seq<Frame>, inline: bool)
    requires table.Table?
  {
    if inline then
      key in table.simple && table.simple[key] == entry && forall i :: 0 <= i < |table.complex| ==> table.complex[i].key != key
    else
      key !in table.simple && exists i :: 0 <= i < |table.complex| && SlotOfEntry(ser, entry, key, table.complex, frames, i)
  }

  ghost predicate SlotOfEntry(ser: Obj -> Coded, entry: Obj, key: Key, slots: seq<Slot>, frames: seq<Frame>, i: nat)
    requires i < |slots|
  {
    var slot := slots[i];
    && slot.key == key && (forall j :: 0 <= j < |slots| && j != i ==> slots[j].key != key)
    && slot.start <= slot.stop <= |frames|
    && if entry.Dict? then Encodes(ser, entry, slot.header, frames[slot.start..slot.stop])
       else ser(entry) == Coded(slot.header, frames[slot.start..slot.stop])
  }

  /** Each entry of an encoded dict is inline exactly if nothing inside it needs a serializer
      or is a dict with entries. */
  lemma EntriesPlaced(ser: Obj -> Coded, v: Obj, header: Header, frames: seq<Frame>, k: Key)
    requires v.Dict? && Encodes(ser, v, header, frames) && k in v.entries
    ensures Placed(ser, v.entries[k], k, header, frames,
                   forall x :: x in Parts(v.entries[k]) ==> !x.Opaque? && (x.Dict? ==> x.entries == map[]))
  {
    var entry, slots := v.entries[k], header.complex;
    SimpleExactly(entry);
    hide Simple, Parts;
    if Simple(entry) {
      forall i | 0 <= i < |slots| ensures slots[i].key != k {
        assert slots[i].key in SlotKeys(slots);
      }
    } else {
      assert k in SlotKeys(slots);
      var i :| 0 <= i < |slots| && slots[i].key == k;
      TilesWithin(slots, |frames|);
      var slot := slots[i];
      assert Slice(frames, slot.start, slot.stop) == frames[slot.start..slot.stop];
      assert SlotOfEntry(ser, entry, k, slots, frames, i);
    }
  }

  // ---- serialize_object_with_dict --------------------------------------------

  /** What the loop has built when the keys in `seen` have been dealt with. */
  ghost predicate Built(ser: Obj -> Coded, v: Obj, seen: set<Key>, simple: map<Key, Obj>, complex: seq<Slot>, frames: seq<Frame>)
    requires v.Dict?
  {
    && seen <= v.entries.Keys
    && (forall k :: k in simple <==> k in seen && Simple(v.entries[k]))
    && (forall k :: k in simple ==> simple[k] == v.entries[k])
    && ComplexKeys(v, seen, complex)
    && Tiles(complex, |frames|)
    && SlotsEncode(ser, v, complex, frames)
  }

  /** One slot for each key seen whose value is not simple. */
  ghost predicate ComplexKeys(v: Obj, seen: set<Key>, complex: seq<Slot>)
    requires v.Dict? && seen <= v.entries.Keys
  {
    && SlotKeys(complex) == (set k | k in seen && !Simple(v.entries[k]))
    && (forall i, j :: 0 <= i < j < |complex| ==> complex[i].key != complex[j].key)
  }

  lemma KeyAdded(v: Obj, seen: set<Key>, complex: seq<Slot>, slot: Slot)
    requires v.Dict? && seen <= v.entries.Keys && ComplexKeys(v, seen, complex)
    requires slot.key in v.entries && slot.key !in seen && !Simple(v.entries[slot.key])
    ensures ComplexKeys(v, seen + {slot.key}, complex + [slot])
  {
    hide Simple;
    assert SlotKeys(complex + [slot]) == SlotKeys(complex) + {slot.key};
    forall i | 0 <= i < |complex| ensures complex[i].key != slot.key {
      assert complex[i].key in SlotKeys(complex);
    }
  }

  ghost predicate SlotsEncode(ser: Obj -> Coded, v: Obj, complex: seq<Slot>, frames: seq<Frame>)
    requires v.Dict?
  {
    forall i :: 0 <= i < |complex| ==>
      complex[i].key in v.entries
      && Encodes(ser, v.entries[complex[i].key], complex[i].header, Slice(frames, complex[i].start, complex[i].stop))
  }

  lemma BuiltIsEncoded(ser: Obj -> Coded, v: Obj, simple: map<Key, Obj>, complex: seq<Slot>, frames: seq<Frame>)
    requires v.Dict? && Built(ser, v, v.entries.Keys, simple, complex, frames)
    ensures Encodes(ser, v, Table(simple, complex), frames)
  {
    assert (set k | k in v.entries.Keys && !Simple(v.entries[k])) == (set k | k in v.entries && !Simple(v.entries[k]));
  }

  lemma SimpleAdded(ser: Obj -> Coded, v: Obj, seen: set<Key>, simple: map<Key, Obj>, complex: seq<Slot>, frames: seq<Frame>, k: Key)
    requires v.Dict? && Built(ser, v, seen, simple, complex, frames) && k in v.entries && k !in seen && Simple(v.entries[k])
    ensures Built(ser, v, seen + {k}, simple[k := v.entries[k]], complex, frames)
  {
    hide SlotsEncode, Tiles;
    assert (set x | x in seen + {k} && !Simple(v.entries[x])) == (set x | x in seen && !Simple(v.entries[x]));
  }

  lemma TilesAdded(slots: seq<Slot>, n: nat, key: Key, header: Header, m: nat)
    requires Tiles(slots, n)
    ensures Tiles(slots + [Slot(key, header, n, n + m)], n + m)
  {
  }

  lemma SliceKept(frames: seq<Frame>, more: seq<Frame>, start: nat, stop: nat)
    requires stop <= |frames|
    ensures Slice(frames + more, start, stop) == Slice(frames, start, stop)
  {
  }

  lemma SliceNew(frames: seq<Frame>, more: seq<Frame>)
    ensures Slice(frames + more, |frames|, |frames| + |more|) == more
  {
  }

  lemma SlotAdded(ser: Obj -> Coded, v: Obj, complex: seq<Slot>, frames: seq<Frame>, k: Key, h: Header, f: seq<Frame>)
    requires v.Dict? && SlotsEncode(ser, v, complex, frames) && Tiles(complex, |frames|)
    requires k in v.entries && Encodes(ser, v.entries[k], h, f)
    ensures SlotsEncode(ser, v, complex + [Slot(k, h, |frames|, |frames| + |f|)], frames + f)
  {
    hide Encodes, Slice;
    TilesWithin(complex, |frames|);
    hide Tiles;
    var complex', frames' := complex + [Slot(k, h, |frames|, |frames| + |f|)], frames + f;
    forall i | 0 <= i < |complex'|
      ensures complex'[i].key in v.entries
      ensures Encodes(ser, v.entries[complex'[i].key], complex'[i].header, Slice(frames', complex'[i].start, complex'[i].stop))
    {
      if i < |complex| {
        SliceKept(frames, f, complex[i].start, complex[i].stop);
      } else {
        SliceNew(frames, f);
      }
    }
  }

  lemma ComplexAdded(ser: Obj -> Coded, v: Obj, seen: set<Key>, simple: map<Key, Obj>, complex: seq<Slot>, frames: seq<Frame>,
                     k: Key, h: Header, f: seq<Frame>)
    requires v.Dict? && Built(ser, v, seen, simple, complex, frames) && k in v.entries && k !in seen && !Simple(v.entries[k])
    requires Encodes(ser, v.entries[k], h, f)
    ensures Built(ser, v, seen + {k}, simple, complex + [Slot(k, h, |frames|, |frames| + |f|)], frames + f)
  {
    hide SlotsEncode, Tiles, Encodes, ComplexKeys;
    TilesAdded(complex, |frames|, k, h, |f|);
    SlotAdded(ser, v, complex, frames, k, h, f);
    KeyAdded(v, seen, complex, Slot(k, h, |frames|, |frames| + |f|));
  }

  method SerializeObjectWithDict(ser: Obj -> Coded, est: Obj) returns (header: Header, frames: seq<Frame>)
    requires est.Dict? && forall v: Obj :: !v.Dict? ==> ser(v).header.Leaf?
    ensures Encodes(ser, est, header, frames) && header.Table?
    ensures forall k :: k in est.entries && est.entries[k].Opaque? ==> Placed(ser, est.entries[k], k, header, frames, false)
    ensures forall k :: k in est.entries && est.entries[k].Plain? ==> Placed(ser, est.entries[k], k, header, frames, true)
    decreases est
  {
    hide Built, Encodes, Tiles, Placed;
    var simple: map<Key, Obj> := map[];
    var complex: seq<Slot> := [];
    frames := [];
    var todo := est.entries.Keys;
    BuiltNothing(ser, est);
    while todo != {}
      invariant todo <= est.entries.Keys
      invariant Built(ser, est, est.entries.Keys - todo, simple, complex, frames)
    {
      var k :| k in todo;
      var v := est.entries[k];
      ghost var seen := est.entries.Keys - todo;
      todo := todo - {k};
      assert est.entries.Keys - todo == seen + {k};
      if Simple(v) {
        SimpleAdded(ser, est, seen, simple, complex, frames, k);
        simple := simple[k := v];
      } else {
        var h, f;
        if v.Dict? {
          h, f := SerializeObjectWithDict(ser, v);
        } else {
          var coded := ser(v);
          h, f := coded.header, coded.frames;
          LeafEncodes(ser, v);
        }
        ComplexAdded(ser, est, seen, simple, complex, frames, k, h, f);
        complex := complex + [Slot(k, h, |frames|, |frames| + |f|)];
        frames := frames + f;
      }
    }
    header := Table(simple, complex);
    assert est.entries.Keys - todo == est.entries.Keys;
    BuiltIsEncoded(ser, est, simple, complex, frames);
    forall k | k in est.entries && (est.entries[k].Opaque? || est.entries[k].Plain?)
      ensures Placed(ser, est.entries[k], k, header, frames, est.entries[k].Plain?)
    {
      LeafPlaced(ser, est, header, frames, k);
    }
  }

  lemma LeafPlaced(ser: Obj -> Coded, v: Obj, header: Header, frames: seq<Frame>, k: Key)
    requires v.Dict? && Encodes(ser, v, header, frames) && k in v.entries && (v.entries[k].Opaque? || v.entries[k].Plain?)
    ensures header.Table? && Placed(ser, v.entries[k], k, header, frames, v.entries[k].Plain?)
  {
    assert header.Table?;
    hide Placed, Encodes;
    EntriesPlaced(ser, v, header, frames, k);
    assert Parts(v.entries[k]) == {v.entries[k]};
  }

  lemma BuiltNothing(ser: Obj -> Coded, v: Obj)
    requires v.Dict?
    ensures Built(ser, v, v.entries.Keys - v.entries.Keys, map[], [], [])
  {
  }

  lemma LeafEncodes(ser: Obj -> Coded, v: Obj)
    requires !v.Dict? && ser(v).header.Leaf?
    ensures Encodes(ser, v, ser(v).header, ser(v).frames)
  {
  }

  // ---- deserialize_object_with_dict ------------------------------------------

  /** What a table says about its i-th slice. */
  lemma SlotOf(ser: Obj -> Coded, v: Obj, header: Header, frames: seq<Frame>, i: nat)
    requires v.Dict? && header.Table? && Encodes(ser, v, header, frames) && i < |header.complex|
    ensures var slot := header.complex[i];
            slot.key in v.entries && Encodes(ser, v.entries[slot.key], slot.header, Slice(frames, slot.start, slot.stop))
  {
  }

  /** What a table says about the keys. */
  lemma TableKeys(ser: Obj -> Coded, v: Obj, header: Header, frames: seq<Frame>)
    requires v.Dict? && header.Table? && Encodes(ser, v, header, frames)
    ensures header.simple.Keys + SlotKeys(header.complex) == v.entries.Keys
    ensures forall k :: k in header.simple ==> k in v.entries && header.simple[k] == v.entries[k]
  {
  }

  lemma NextKey(slots: seq<Slot>, i: nat)
    requires i < |slots|
    ensures SlotKeys(slots[..i + 1]) == SlotKeys(slots[..i]) + {slots[i].key}
  {
    assert slots[..i + 1] == slots[..i] + [slots[i]];
  }

  lemma LeafDecodes(ser: Obj -> Coded, de: Coded -> Obj, v: Obj, header: Header, frames: seq<Frame>)
    requires Invertible(ser, de) && Encodes(ser, v, header, frames)
    ensures header.Table? <==> v.Dict?
    ensures header.Leaf? ==> de(Coded(header, frames)) == v
  {
  }

  /** Simple entries from the table, then every slice decoded in its turn. */
  method DeserializeObjectWithDict(ser: Obj -> Coded, de: Coded -> Obj, header: Header, frames: seq<Frame>, ghost v: Obj)
    returns (obj: Obj)
    requires Invertible(ser, de) && header.Table? && v.Dict? && Encodes(ser, v, header, frames)
    ensures obj == v
    decreases header
  {
    hide Encodes, SlotKeys, Invertible;
    TableKeys(ser, v, header, frames);
    var dd := header.simple;
    assert header.complex[..0] == [];
    NoKeys();
    for i := 0 to |header.complex|
      invariant dd.Keys == header.simple.Keys + SlotKeys(header.complex[..i])
      invariant forall k :: k in dd ==> k in v.entries && dd[k] == v.entries[k]
    {
      var slot := header.complex[i];
      var f := Slice(frames, slot.start, slot.stop);
      SlotOf(ser, v, header, frames, i);
      ghost var w := v.entries[slot.key];
      LeafDecodes(ser, de, w, slot.header, f);
      var value;
      if slot.header.Table? {
        value := DeserializeObjectWithDict(ser, de, slot.header, f, w);
      } else {
        value := de(Coded(slot.header, f));
      }
      NextKey(header.complex, i);
      dd := dd[slot.key := value];
    }
    assert header.complex[..|header.complex|] == header.complex;
    assert dd == v.entries;
    obj := Dict(dd);
  }

  lemma NoKeys()
    ensures SlotKeys([]) == {}
  {
  }
}
