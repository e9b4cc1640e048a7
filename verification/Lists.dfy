/** Options, and lists without repetition. */
module Lists {

  datatype Option<+T> = None | Some(value: T)

  ghost function Elems<T>(ts: seq<T>): set<T> { set t | t in ts }

  ghost predicate Distinct<T>(ts: seq<T>) {
    forall i, j :: 0 <= i < j < |ts| ==> ts[i] != ts[j]
  }

  lemma InElems<T>(ts: seq<T>)
    ensures forall t :: t in Elems(ts) <==> t in ts
  {
  }

  lemma ElemsMore<T>(ts: seq<T>, t: T)
    ensures Elems(ts + [t]) == Elems(ts) + {t}
    ensures Distinct(ts) && t !in Elems(ts) ==> Distinct(ts + [t])
    ensures Elems<T>([]) == {}
  {
  }

  // ---- Lists of lists --------------------------------------------------------

  function Flatten<T>(xss: seq<seq<T>>): seq<T> {
    if xss == [] then [] else Flatten(xss[..|xss| - 1]) + xss[|xss| - 1]
  }

  lemma FlattenMore<T>(xss: seq<seq<T>>, xs: seq<T>)
    ensures Flatten(xss + [xs]) == Flatten(xss) + xs
  {
    assert (xss + [xs])[..|xss|] == xss;
  }

  lemma {:induction false} FlattenAppend<T>(a: seq<seq<T>>, b: seq<seq<T>>)
    ensures Flatten(a + b) == Flatten(a) + Flatten(b)
    decreases |b|
  {
    if b == [] {
      assert a + b == a;
    } else {
      var n, xs := |b| - 1, b[|b| - 1];
      FlattenAppend(a, b[..n]);
      assert b == b[..n] + [xs] && a + b == (a + b[..n]) + [xs];
      hide Flatten;
      FlattenMore(b[..n], xs);
      FlattenMore(a + b[..n], xs);
    }
  }

  lemma FlattenCons<T>(xs: seq<T>, rest: seq<seq<T>>)
    ensures Flatten([xs] + rest) == xs + Flatten(rest)
  {
    FlattenAppend([xs], rest);
    assert [xs][..0] == [] && Flatten([xs]) == [] + xs;
  }

  lemma FlattenNext<T>(xss: seq<seq<T>>, i: nat)
    requires i < |xss|
    ensures Flatten(xss[..i + 1]) == Flatten(xss[..i]) + xss[i]
  {
    assert xss[..i + 1] == xss[..i] + [xss[i]];
    FlattenMore(xss[..i], xss[i]);
  }
}
