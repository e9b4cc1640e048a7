/** Splitting byte frames into pieces of bounded size, and merging pieces back. */
module Frames {

  type Frame = seq<bv8>

  ghost function Concat(frames: seq<Frame>): Frame {
    if frames == [] then [] else frames[0] + Concat(frames[1..])
  }

  ghost function Sum(lengths: seq<nat>): nat {
    if lengths == [] then 0 else lengths[0] + Sum(lengths[1..])
  }

  function Lengths(frames: seq<Frame>): (ls: seq<nat>)
    ensures |ls| == |frames| && forall i :: 0 <= i < |ls| ==> ls[i] == |frames[i]|
  {
    seq(|frames|, i requires 0 <= i < |frames| => |frames[i]|)
  }

  /** One frame, in pieces of n bytes and a last one of what is left. */
  ghost function Pieces(frame: Frame, n: nat): seq<Frame>
    requires n >= 1
    decreases |frame|
  {
    if |frame| <= n then [frame] else [frame[..n]] + Pieces(frame[n..], n)
  }

  ghost function SplitAll(frames: seq<Frame>, n: nat): seq<Frame>
    requires n >= 1
  {
    if frames == [] then [] else Pieces(frames[0], n) + SplitAll(frames[1..], n)
  }

  /** Bytes cut into consecutive frames of the given lengths. */
  ghost function Cut(bytes: Frame, lengths: seq<nat>): seq<Frame>
    requires |bytes| == Sum(lengths)
    decreases |lengths|
  {
    if lengths == [] then [] else [bytes[..lengths[0]]] + Cut(bytes[lengths[0]..], lengths[1..])
  }

  // ---- Concatenation ---------------------------------------------------------

  lemma {:induction false} ConcatAppend(a: seq<Frame>, b: seq<Frame>)
    ensures Concat(a + b) == Concat(a) + Concat(b)
  {
    if a == [] {
      assert a + b == b;
    } else {
      ConcatAppend(a[1..], b);
      assert (a + b)[1..] == a[1..] + b;
    }
  }

  lemma ConcatOne(f: Frame)
    ensures Concat([f]) == f
  {
  }

  lemma {:induction false} TotalIsSum(frames: seq<Frame>)
    ensures |Concat(frames)| == Sum(Lengths(frames))
  {
    if frames != [] {
      TotalIsSum(frames[1..]);
      assert Lengths(frames)[1..] == Lengths(frames[1..]);
    }
  }

  // ---- Splitting -------------------------------------------------------------

  lemma {:induction false} PiecesWhole(frame: Frame, n: nat)
    requires n >= 1
    ensures Concat(Pieces(frame, n)) == frame && Pieces(frame, n) != []
    ensures forall p :: p in Pieces(frame, n) ==> |p| <= n
    decreases |frame|
  {
    if |frame| <= n {
      ConcatOne(frame);
    } else {
      var rest := Pieces(frame[n..], n);
      assert Pieces(frame, n) == [frame[..n]] + rest;
      PiecesWhole(frame[n..], n);
      hide Pieces, Concat;
      ConcatAppend([frame[..n]], rest);
      ConcatOne(frame[..n]);
      assert frame[..n] + frame[n..] == frame;
    }
  }

  /** All pieces but the last have n bytes, and only an empty frame has an empty piece. */
  lemma {:induction false} PieceSizes(frame: Frame, n: nat, i: nat)
    requires n >= 1 && i < |Pieces(frame, n)|
    ensures i + 1 < |Pieces(frame, n)| ==> |Pieces(frame, n)[i]| == n
    ensures frame != [] ==> Pieces(frame, n)[i] != []
    decreases |frame|
  {
    if |frame| > n && i > 0 { PieceSizes(frame[n..], n, i - 1); }
  }

  lemma {:induction false} SplitWhole(frames: seq<Frame>, n: nat)
    requires n >= 1
    ensures Concat(SplitAll(frames, n)) == Concat(frames)
    ensures forall p :: p in SplitAll(frames, n) ==> |p| <= n
    ensures frames != [] ==> SplitAll(frames, n) != []
  {
    if frames != [] {
      PiecesWhole(frames[0], n);
      SplitWhole(frames[1..], n);
      ConcatAppend(Pieces(frames[0], n), SplitAll(frames[1..], n));
    }
  }

  lemma {:induction false} SmallUnsplit(frames: seq<Frame>, n: nat)
    requires n >= 1 && forall f :: f in frames ==> |f| <= n
    ensures SplitAll(frames, n) == frames
  {
    if frames != [] {
      SmallUnsplit(frames[1..], n);
    }
  }

  lemma {:induction false} SplitAppend(a: seq<Frame>, b: seq<Frame>, n: nat)
    requires n >= 1
    ensures SplitAll(a + b, n) == SplitAll(a, n) + SplitAll(b, n)
  {
    if a == [] {
      assert a + b == b;
    } else {
      SplitAppend(a[1..], b, n);
      assert (a + b)[1..] == a[1..] + b;
    }
  }

  lemma SplitOne(f: Frame, n: nat)
    requires n >= 1
    ensures SplitAll([f], n) == Pieces(f, n)
  {
    assert [f][1..] == [];
  }

  function Min(a: nat, b: nat): nat { if a <= b then a else b }

  /** The pieces from position i on. */
  ghost function PiecesFrom(frame: Frame, n: nat, i: nat): seq<Frame>
    requires n >= 1
  {
    if i < |frame| then Pieces(frame[i..], n) else []
  }

  lemma NextPiece(frame: Frame, n: nat, i: nat)
    requires n >= 1 && i < |frame|
    ensures PiecesFrom(frame, n, i) == [frame[i..Min(i + n, |frame|)]] + PiecesFrom(frame, n, i + n)
  {
    if i + n < |frame| {
      assert frame[i..][..n] == frame[i..i + n] && frame[i..][n..] == frame[i + n..];
    } else {
      assert frame[i..] == frame[i..|frame|];
    }
  }

  /** A frame that is too long, piece by piece. */
  method SplitFrame(frame: Frame, n: nat) returns (out: seq<Frame>)
    requires n >= 1 && |frame| > n
    ensures out == Pieces(frame, n) && Concat(out) == frame
    ensures forall i :: 0 <= i < |out| ==> 1 <= |out[i]| <= n && (i + 1 < |out| ==> |out[i]| == n)
  {
    hide Pieces;
    out := [];
    var i := 0;
    assert frame[0..] == frame;
    while i < |frame|
      invariant out + PiecesFrom(frame, n, i) == Pieces(frame, n)
    {
      NextPiece(frame, n, i);
      assert out + ([frame[i..Min(i + n, |frame|)]] + PiecesFrom(frame, n, i + n))
          == out + [frame[i..Min(i + n, |frame|)]] + PiecesFrom(frame, n, i + n);
      out := out + [frame[i..Min(i + n, |frame|)]];
      i := i + n;
    }
    assert out + [] == out;
    PiecesWhole(frame, n);
    forall i | 0 <= i < |out| ensures 1 <= |out[i]| <= n && (i + 1 < |out| ==> |out[i]| == n) {
      assert out[i] in out;
      PieceSizes(frame, n, i);
    }
  }

  /** frame_split_size: pieces of at most n bytes. */
  method FrameSplitSize(frames: seq<Frame>, n: nat) returns (out: seq<Frame>)
    requires n >= 1
    ensures out == SplitAll(frames, n)
    ensures Concat(out) == Concat(frames) && forall p :: p in out ==> |p| <= n
  {
    SplitWhole(frames, n);
    var small := true;
    for k := 0 to |frames|
      invariant small <==> forall f :: f in frames[..k] ==> |f| <= n
    {
      if |frames[k]| > n { small := false; }
    }
    assert frames[..|frames|] == frames;
    if small {
      SmallUnsplit(frames, n);
      return frames;
    }
    out := [];
    for k := 0 to |frames|
      invariant out == SplitAll(frames[..k], n)
    {
      var frame := frames[k];
      assert frames[..k + 1] == frames[..k] + [frame];
      SplitAppend(frames[..k], [frame], n);
      SplitOne(frame, n);
      var pieces := [frame];
      if |frame| > n { pieces := SplitFrame(frame, n); }
      out := out + pieces;
    }
  }

  // ---- Merging ---------------------------------------------------------------

  /** Position by position, as far as both lists go, the lengths agree already. */
  predicate AlreadyFit(frames: seq<Frame>, lengths: seq<nat>) {
    forall i :: 0 <= i < Min(|frames|, |lengths|) ==> |frames[i]| == lengths[i]
  }

  /** What merge_frames returns. */
  ghost function Merged(lengths: seq<nat>, frames: seq<Frame>): seq<Frame>
    requires Sum(lengths) == |Concat(frames)|
  {
    if AlreadyFit(frames, lengths) then frames else Cut(Concat(frames), lengths)
  }

  lemma {:induction false} CutFits(bytes: Frame, lengths: seq<nat>)
    requires |bytes| == Sum(lengths)
    ensures Lengths(Cut(bytes, lengths)) == lengths && Concat(Cut(bytes, lengths)) == bytes
    decreases |lengths|
  {
    if lengths != [] {
      var rest := Cut(bytes[lengths[0]..], lengths[1..]);
      CutFits(bytes[lengths[0]..], lengths[1..]);
      assert Cut(bytes, lengths) == [bytes[..lengths[0]]] + rest;
      assert Lengths(Cut(bytes, lengths)) == [lengths[0]] + Lengths(rest);
    }
  }

  lemma {:induction false} CutUnique(frames: seq<Frame>)
    ensures |Concat(frames)| == Sum(Lengths(frames))
    ensures Cut(Concat(frames), Lengths(frames)) == frames
  {
    TotalIsSum(frames);
    if frames != [] {
      CutUnique(frames[1..]);
      assert Lengths(frames)[1..] == Lengths(frames[1..]);
      assert Concat(frames)[|frames[0]|..] == Concat(frames[1..]);
    }
  }

  /** Merging never changes the bytes, and gives frames of the asked lengths exactly unless
      the lengths fit already while the lists differ in size (by empty frames). */
  lemma MergedBytesAndLengths(lengths: seq<nat>, frames: seq<Frame>)
    requires Sum(lengths) == |Concat(frames)|
    ensures Concat(Merged(lengths, frames)) == Concat(frames)
    ensures Lengths(Merged(lengths, frames)) == lengths <==> !(AlreadyFit(frames, lengths) && |frames| != |lengths|)
  {
    if !AlreadyFit(frames, lengths) { CutFits(Concat(frames), lengths); }
  }

  /** Frame 0 fits and so do the others, or some piece is shorter than its frame. */
  lemma {:induction false} SplitFitsOnlyUnsplit(frames: seq<Frame>, n: nat)
    requires n >= 1 && AlreadyFit(SplitAll(frames, n), Lengths(frames))
    ensures SplitAll(frames, n) == frames
  {
    if frames != [] {
      var pieces, rest := Pieces(frames[0], n), SplitAll(frames[1..], n);
      var all := SplitAll(frames, n);
      PiecesWhole(frames[0], n);
      assert all[0] == pieces[0];
      assert |all[0]| == Lengths(frames)[0];
      assert pieces == [frames[0]];
      forall i | 0 <= i < Min(|rest|, |frames| - 1) ensures |rest[i]| == Lengths(frames[1..])[i] {
        assert rest[i] == all[i + 1] && Lengths(frames)[i + 1] == |frames[i + 1]|;
      }
      SplitFitsOnlyUnsplit(frames[1..], n);
    }
  }

  /** Merging with the original lengths undoes splitting, empty frames included. */
  lemma MergeUndoesSplit(frames: seq<Frame>, n: nat)
    requires n >= 1
    ensures Sum(Lengths(frames)) == |Concat(SplitAll(frames, n))|
    ensures Merged(Lengths(frames), SplitAll(frames, n)) == frames
  {
    SplitWhole(frames, n);
    CutUnique(frames);
    if AlreadyFit(SplitAll(frames, n), Lengths(frames)) {
      SplitFitsOnlyUnsplit(frames, n);
    }
  }

  ghost function Reversed<T>(s: seq<T>): (r: seq<T>)
    ensures |r| == |s| && forall i :: 0 <= i < |r| ==> r[i] == s[|s| - 1 - i]
  {
    seq(|s|, i requires 0 <= i < |s| => s[|s| - 1 - i])
  }

  method Reverse<T>(s: seq<T>) returns (r: seq<T>)
    ensures r == Reversed(s)
  {
    r := [];
    for i := 0 to |s|
      invariant r == Reversed(s[..i])
    {
      r := [s[i]] + r;
    }
    assert s[..|s|] == s;
  }

  /** One frame of length l, popped off the stack whose top-to-bottom order is `rest`. */
  method PopFrame(stack0: seq<Frame>, length: nat, ghost rest0: seq<Frame>)
    returns (joined: Frame, stack: seq<Frame>, ghost rest: seq<Frame>)
    requires stack0 == Reversed(rest0) && length <= |Concat(rest0)|
    ensures stack == Reversed(rest) && joined + Concat(rest) == Concat(rest0) && |joined| == length
  {
    stack, rest := stack0, rest0;
    var l := length;
    joined := [];
    while l > 0
      invariant stack == Reversed(rest) && joined + Concat(rest) == Concat(rest0)
      invariant 0 <= l && |joined| + l == length
      decreases l + |stack|
    {
      assert |rest| > 0;
      var frame := stack[|stack| - 1];
      assert frame == rest[0];
      stack := stack[..|stack| - 1];
      assert stack == Reversed(rest[1..]);
      if |frame| <= l {
        joined := joined + frame;
        l := l - |frame|;
        rest := rest[1..];
      } else {
        joined := joined + frame[..l];
        stack := stack + [frame[l..]];
        rest := [frame[l..]] + rest[1..];
        assert frame == frame[..l] + frame[l..];
        l := 0;
      }
    }
  }

  /** merge_frames.  The stack is never popped when it is empty. */
  method MergeFrames(lengths: seq<nat>, frames: seq<Frame>) returns (out: seq<Frame>)
    requires frames != [] ==> Sum(lengths) == |Concat(frames)|
    ensures frames == [] ==> out == []
    ensures frames != [] ==> out == Merged(lengths, frames)
  {
    if frames == [] {
      return frames;
    }
    if AlreadyFit(frames, lengths) {
      return frames;
    }
    var stack := Reverse(frames);
    var todo := Reverse(lengths);
    ghost var rest, left := frames, lengths;
    out := [];
    while todo != []
      invariant stack == Reversed(rest) && todo == Reversed(left) && Sum(left) == |Concat(rest)|
      invariant out + Cut(Concat(rest), left) == Cut(Concat(frames), lengths)
      decreases |todo|
    {
      var l := todo[|todo| - 1];
      assert l == left[0];
      todo := todo[..|todo| - 1];
      assert todo == Reversed(left[1..]);
      ghost var bytes := Concat(rest);
      var joined;
      joined, stack, rest := PopFrame(stack, l, rest);
      assert bytes[..l] == joined && bytes[l..] == Concat(rest);
      out := out + [joined];
      left := left[1..];
    }
    assert left == [];
  }
}
