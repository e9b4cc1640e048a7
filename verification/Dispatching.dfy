/** How the scheduler's batched invoker cuts a batch into chunks and hands them out: the first
    chunk to itself, the others to one invoker process each. */
module Dispatching {
  import opened Lists

  type Payload(==, !new)

  /** [payload[x : x + size] for x in range(0, len(payload), size)] */
  function Chunks(payload: seq<Payload>, size: nat): (chunks: seq<seq<Payload>>)
    requires size >= 1
    ensures payload != [] ==> chunks != [] && chunks[0] != []
    decreases |payload|
  {
    if payload == [] then []
    else if |payload| <= size then [payload]
    else [payload[..size]] + Chunks(payload[size..], size)
  }

  /** ceil(length / parts) */
  function CeilDiv(length: nat, parts: nat): nat
    requires parts >= 1
  {
    (length + parts - 1) / parts
  }

  // ---- Chunk arithmetic ------------------------------------------------------

  /** Nothing is lost, doubled or reordered by cutting. */
  lemma {:induction false} ChunksWhole(payload: seq<Payload>, size: nat)
    requires size >= 1
    ensures Flatten(Chunks(payload, size)) == payload
    decreases |payload|
  {
    if payload != [] {
      if |payload| <= size {
        FlattenCons(payload, []);
        assert [payload] + [] == [payload];
      } else {
        ChunksWhole(payload[size..], size);
        FlattenCons(payload[..size], Chunks(payload[size..], size));
      }
    }
  }

  /** All chunks but the last are full. */
  lemma {:induction false} ChunkSizes(payload: seq<Payload>, size: nat, i: nat)
    requires size >= 1 && i < |Chunks(payload, size)|
    ensures 1 <= |Chunks(payload, size)[i]| <= size
    ensures i + 1 < |Chunks(payload, size)| ==> |Chunks(payload, size)[i]| == size
    decreases |payload|
  {
    if |payload| > size && i > 0 {
      ChunkSizes(payload[size..], size, i - 1);
    }
  }

  lemma {:induction false} ChunkCount(payload: seq<Payload>, size: nat, parts: nat)
    requires size >= 1 && |payload| <= size * parts
    ensures |Chunks(payload, size)| <= parts
    decreases |payload|
  {
    if payload != [] {
      if parts > 0 && |payload| > size {
        assert size * parts == size + size * (parts - 1);
        ChunkCount(payload[size..], size, parts - 1);
      }
    }
  }

  lemma CeilCovers(length: nat, parts: nat)
    requires parts >= 1
    ensures length <= CeilDiv(length, parts) * parts
    ensures length >= 1 ==> CeilDiv(length, parts) >= 1
  {
    var n := length + parts - 1;
    assert n == parts * (n / parts) + n % parts;
  }

  /** Every chunk has `size` payloads, but the last may have fewer. */
  predicate EvenChunks(chunks: seq<seq<Payload>>, size: nat) {
    forall i :: 0 <= i < |chunks| ==> 1 <= |chunks[i]| <= size && (i + 1 < |chunks| ==> |chunks[i]| == size)
  }

  lemma CutEvenly(payload: seq<Payload>, size: nat)
    requires size >= 1
    ensures EvenChunks(Chunks(payload, size), size)
  {
    forall i | 0 <= i < |Chunks(payload, size)|
      ensures 1 <= |Chunks(payload, size)[i]| <= size
      ensures i + 1 < |Chunks(payload, size)| ==> |Chunks(payload, size)[i]| == size
    {
      ChunkSizes(payload, size, i);
    }
  }

  /** At most one chunk for the scheduler and one for each invoker. */
  lemma ChunksFitInvokers(payload: seq<Payload>, invokers: nat)
    requires payload != []
    ensures CeilDiv(|payload|, invokers + 1) >= 1
    ensures 1 <= |Chunks(payload, CeilDiv(|payload|, invokers + 1))| <= invokers + 1
  {
    CeilCovers(|payload|, invokers + 1);
    ChunkCount(payload, CeilDiv(|payload|, invokers + 1), invokers + 1);
  }

  // ---- Dispatch --------------------------------------------------------------

  datatype PipeMessage = PipeMessage(payload: seq<Payload>, useInvokerLambdas: bool)

  /** One call of the Lambda service: an executor with one payload, or an invoker with many. */
  datatype Invocation = Executor(payload: Payload) | Invoker(payloads: seq<Payload>)

  const INVOKER_CHUNK := 50

  function Carried(calls: seq<Invocation>): seq<Payload> {
    if calls == [] then []
    else Carried(calls[..|calls| - 1]) +
         match calls[|calls| - 1] { case Executor(p) => [p] case Invoker(ps) => ps }
  }

  lemma {:induction false} CarriedAppend(a: seq<Invocation>, b: seq<Invocation>)
    ensures Carried(a + b) == Carried(a) + Carried(b)
  {
    if b == [] {
      assert a + b == a;
    } else {
      var n, c := |b| - 1, b[|b| - 1];
      CarriedAppend(a, b[..n]);
      assert b == b[..n] + [c] && a + b == (a + b[..n]) + [c];
      hide Carried;
      CarriedNext(b[..n], c);
      CarriedNext(a + b[..n], c);
    }
  }

  /** The calls for one chunk: one for each payload, or as few invokers as can be, all full but
      the last. */
  predicate RightCalls(calls: seq<Invocation>, useInvokerLambdas: bool) {
    forall i :: 0 <= i < |calls| ==>
      if useInvokerLambdas then
        calls[i].Invoker? && 1 <= |calls[i].payloads| <= INVOKER_CHUNK
        && (i + 1 < |calls| ==> |calls[i].payloads| == INVOKER_CHUNK)
      else
        calls[i].Executor?
  }

  lemma CarriedNext(calls: seq<Invocation>, c: Invocation)
    ensures Carried(calls + [c]) == Carried(calls) + match c { case Executor(p) => [p] case Invoker(ps) => ps }
  {
    assert (calls + [c])[..|calls|] == calls;
  }

  /** One invoker Lambda for each fifty payloads. */
  method InvokeInvokers(chunk: seq<Payload>) returns (calls: seq<Invocation>)
    ensures Carried(calls) == chunk && RightCalls(calls, true)
  {
    hide Carried, Flatten, Chunks;
    calls := [];
    var batches := Chunks(chunk, INVOKER_CHUNK);
    ChunksWhole(chunk, INVOKER_CHUNK);
    NothingYet();
    for i := 0 to |batches|
      invariant Carried(calls) == Flatten(batches[..i]) && |calls| == i
      invariant forall j :: 0 <= j < i ==>
                  calls[j].Invoker? && 1 <= |calls[j].payloads| <= INVOKER_CHUNK
                  && (j + 1 < |batches| ==> |calls[j].payloads| == INVOKER_CHUNK)
    {
      ChunkSizes(chunk, INVOKER_CHUNK, i);
      FlattenNext(batches, i);
      CarriedNext(calls, Invoker(batches[i]));
      calls := calls + [Invoker(batches[i])];
    }
    assert batches[..|batches|] == batches;
  }

  lemma NothingYet()
    ensures Carried([]) == [] && Flatten<Payload>([]) == []
  {
  }

  /** The calls for a chunk: one for each payload, or one invoker for each fifty. */
  method InvokeChunk(chunk: seq<Payload>, useInvokerLambdas: bool) returns (calls: seq<Invocation>)
    ensures Carried(calls) == chunk && RightCalls(calls, useInvokerLambdas)
  {
    if useInvokerLambdas {
      calls := InvokeInvokers(chunk);
    } else {
      hide Carried;
      calls := [];
      NothingYet();
      for i := 0 to |chunk|
        invariant Carried(calls) == chunk[..i] && RightCalls(calls, false)
      {
        CarriedNext(calls, Executor(chunk[i]));
        calls := calls + [Executor(chunk[i])];
      }
    }
  }

  class BatchedLambdaInvoker {
    const numInvokers: nat
    const threshold: nat
    const forceInvokerLambdas: bool
    var lambdaPipes: array<seq<PipeMessage>>   // what was sent to each invoker process
    var calls: seq<Invocation>                 // what the scheduler invoked itself
    var totalLambdasInvoked: nat
    var batchCount: nat

    constructor (numInvokers: nat, threshold: nat, force: bool)
      ensures Valid() && calls == [] && totalLambdasInvoked == 0 && fresh(lambdaPipes)
      ensures this.numInvokers == numInvokers && forall i :: 0 <= i < lambdaPipes.Length ==> lambdaPipes[i] == []
    {
      this.numInvokers := numInvokers;
      this.threshold := threshold;
      this.forceInvokerLambdas := force;
      lambdaPipes := new seq<PipeMessage>[numInvokers](_ => []);
      calls, totalLambdasInvoked, batchCount := [], 0, 0;
    }

    ghost predicate Valid()
      reads this, lambdaPipes
    {
      lambdaPipes.Length == numInvokers && totalLambdasInvoked == |Carried(calls)|
    }

    /** Chunk i + 1 goes to pipe i; pipes for which there is no chunk get nothing. */
    ghost predicate PipesGot(before: seq<seq<PipeMessage>>, after: seq<seq<PipeMessage>>, chunks: seq<seq<Payload>>, use: bool) {
      && |after| == |before|
      && forall i :: 0 <= i < |before| ==>
           after[i] == before[i] + if i + 1 < |chunks| then [PipeMessage(chunks[i + 1], use)] else []
    }

    /** Sends each invoker its chunk, walking through the pipes with an index of its own. */
    method SendChunks(payloads: seq<seq<Payload>>, useInvokerLambdas: bool)
      requires payloads != [] && |payloads| <= lambdaPipes.Length + 1
      modifies lambdaPipes
      ensures PipesGot(old(lambdaPipes[..]), lambdaPipes[..], payloads, useInvokerLambdas)
    {
      var invokerIndex := 0;
      for i := 1 to |payloads|
        invariant invokerIndex == i - 1
        invariant forall j :: i - 1 <= j < lambdaPipes.Length ==> lambdaPipes[j] == old(lambdaPipes[j])
        invariant forall j :: 0 <= j < i - 1 ==>
                    lambdaPipes[j] == old(lambdaPipes[j]) + [PipeMessage(payloads[j + 1], useInvokerLambdas)]
      {
        lambdaPipes[invokerIndex] := lambdaPipes[invokerIndex] + [PipeMessage(payloads[i], useInvokerLambdas)];
        invokerIndex := invokerIndex + 1;
      }
      assert forall j :: |payloads| - 1 <= j < lambdaPipes.Length ==> lambdaPipes[j] == old(lambdaPipes[j]) + [];
    }

    /** One batch: every payload goes out once, the scheduler's chunk first and the others in
        the order of the pipes. */
    method Dispatch(payload: seq<Payload>) returns (ghost chunks: seq<seq<Payload>>, ghost own: seq<Invocation>)
      requires Valid() && payload != []
      modifies this`batchCount, this`calls, this`totalLambdasInvoked, lambdaPipes
      ensures Valid() && batchCount == old(batchCount) + 1
      ensures chunks != [] && |chunks| <= numInvokers + 1 && Flatten(chunks) == payload
      ensures EvenChunks(chunks, CeilDiv(|payload|, numInvokers + 1))
      ensures PipesGot(old(lambdaPipes[..]), lambdaPipes[..], chunks, |payload| > threshold || forceInvokerLambdas)
      ensures calls == old(calls) + own && Carried(own) == chunks[0]
      ensures RightCalls(own, |payload| > threshold || forceInvokerLambdas)
      ensures totalLambdasInvoked == old(totalLambdasInvoked) + |chunks[0]|
    {
      hide Chunks, Carried, Flatten, CeilDiv, PipesGot, RightCalls, EvenChunks;
      batchCount := batchCount + 1;
      ChunksFitInvokers(payload, numInvokers);
      var chunkSize := CeilDiv(|payload|, numInvokers + 1);
      var payloads := Chunks(payload, chunkSize);
      ChunksWhole(payload, chunkSize);
      CutEvenly(payload, chunkSize);
      chunks := payloads;
      var useInvokerLambdas := |payload| > threshold || forceInvokerLambdas;
      SendChunks(payloads, useInvokerLambdas);
      var made := InvokeChunk(payloads[0], useInvokerLambdas);
      own := made;
      CarriedAppend(calls, made);
      calls := calls + made;
      totalLambdasInvoked := totalLambdasInvoked + |payloads[0]|;
    }
  }

  /** What an invoker process does with a message from its pipe. */
  method InvokerProcess(msg: PipeMessage) returns (calls: seq<Invocation>)
    ensures Carried(calls) == msg.payload && RightCalls(calls, msg.useInvokerLambdas)
  {
    calls := InvokeChunk(msg.payload, msg.useInvokerLambdas);
  }

  // ---- From the payload to the calls -----------------------------------------

  /** The payloads that wait in a pipe. */
  function Queued(pipe: seq<PipeMessage>): seq<Payload> {
    if pipe == [] then [] else Queued(pipe[..|pipe| - 1]) + pipe[|pipe| - 1].payload
  }

  /** The payloads that wait in all pipes, pipe by pipe. */
  function Backlog(pipes: seq<seq<PipeMessage>>): seq<Payload> {
    if pipes == [] then [] else Backlog(pipes[..|pipes| - 1]) + Queued(pipes[|pipes| - 1])
  }

  lemma QueuedMore(pipe: seq<PipeMessage>, msg: PipeMessage)
    ensures Queued(pipe + [msg]) == Queued(pipe) + msg.payload
  {
    assert (pipe + [msg])[..|pipe|] == pipe;
  }

  lemma BacklogNext(pipes: seq<seq<PipeMessage>>, i: nat)
    requires i < |pipes|
    ensures Backlog(pipes[..i + 1]) == Backlog(pipes[..i]) + Queued(pipes[i])
  {
    assert pipes[..i + 1][..i] == pipes[..i];
  }

  /** An invoker process takes what is in its pipe, message by message. */
  method InvokerLoop(pipe: seq<PipeMessage>) returns (calls: seq<Invocation>)
    ensures Carried(calls) == Queued(pipe)
  {
    hide Carried, Queued;
    calls := [];
    NothingYet();
    NothingQueued();
    for i := 0 to |pipe|
      invariant Carried(calls) == Queued(pipe[..i])
    {
      var more := InvokerProcess(pipe[i]);
      CarriedAppend(calls, more);
      assert pipe[..i + 1] == pipe[..i] + [pipe[i]];
      QueuedMore(pipe[..i], pipe[i]);
      calls := calls + more;
    }
    assert pipe[..|pipe|] == pipe;
  }

  lemma NothingQueued()
    ensures Queued([]) == [] && Backlog([]) == []
  {
  }

  /** A batch adds its chunks, but the first, to what waits in the pipes. */
  lemma {:induction false} DispatchedInto(before: seq<seq<PipeMessage>>, after: seq<seq<PipeMessage>>, chunks: seq<seq<Payload>>, use: bool, n: nat)
    requires |after| == |before| && n <= |before| && chunks != []
    requires forall i :: 0 <= i < |before| ==>
               after[i] == before[i] + if i + 1 < |chunks| then [PipeMessage(chunks[i + 1], use)] else []
    ensures var newer := Flatten(chunks[1..if n + 1 < |chunks| then n + 1 else |chunks|]);
            && multiset(Backlog(after[..n])) == multiset(Backlog(before[..n])) + multiset(newer)
            && ((forall i :: 0 <= i < n ==> before[i] == []) ==> Backlog(after[..n]) == newer)
    decreases n
  {
    hide Flatten, Queued, Backlog;
    NothingQueued();
    if n == 0 {
      NothingYet();
      assert chunks[1..1] == [] && after[..0] == [] && before[..0] == [];
    } else {
      var i := n - 1;
      DispatchedInto(before, after, chunks, use, i);
      BacklogNext(before, i);
      BacklogNext(after, i);
      if n < |chunks| {
        QueuedMore(before[i], PipeMessage(chunks[n], use));
        assert chunks[1..n + 1] == chunks[1..n] + [chunks[n]];
        FlattenMore(chunks[1..n], chunks[n]);
      } else {
        assert after[i] == before[i];
      }
    }
  }

  /** One batch from the payload to the calls: the scheduler dispatches it, and every invoker
      process empties its pipe.  Each payload of the batch, and each that was still waiting in
      a pipe, is called once; without a backlog the calls carry the batch in its order. */
  method RunBatch(invoker: BatchedLambdaInvoker, payload: seq<Payload>) returns (made: seq<Invocation>)
    requires invoker.Valid() && payload != []
    modifies invoker`batchCount, invoker`calls, invoker`totalLambdasInvoked, invoker.lambdaPipes
    ensures invoker.Valid() && forall i :: 0 <= i < invoker.lambdaPipes.Length ==> invoker.lambdaPipes[i] == []
    ensures multiset(Carried(made)) == multiset(Backlog(old(invoker.lambdaPipes[..]))) + multiset(payload)
    ensures (forall i :: 0 <= i < invoker.lambdaPipes.Length ==> old(invoker.lambdaPipes[i]) == []) ==> Carried(made) == payload
  {
    hide Carried, Flatten, Queued, Backlog, EvenChunks, RightCalls, CeilDiv;
    ghost var before := invoker.lambdaPipes[..];
    ghost var chunks;
    var pipes := invoker.lambdaPipes;
    ghost var own;
    var callsBefore := |invoker.calls|;
    chunks, own := invoker.Dispatch(payload);
    made := invoker.calls[callsBefore..];
    assert made == own;
    ghost var after := pipes[..];
    NothingQueued();
    for i := 0 to pipes.Length
      invariant invoker.Valid() && pipes == invoker.lambdaPipes
      invariant forall j :: 0 <= j < i ==> pipes[j] == []
      invariant forall j :: i <= j < pipes.Length ==> pipes[j] == after[j]
      invariant Carried(made) == chunks[0] + Backlog(after[..i])
    {
      var more := InvokerLoop(pipes[i]);
      pipes[i] := [];
      CarriedAppend(made, more);
      BacklogNext(after, i);
      made := made + more;
    }
    CarriedWhole(before, after, chunks, |payload| > invoker.threshold || invoker.forceInvokerLambdas);
    assert after[..|after|] == after;
  }

  lemma CarriedWhole(before: seq<seq<PipeMessage>>, after: seq<seq<PipeMessage>>, chunks: seq<seq<Payload>>, use: bool)
    requires |after| == |before| && chunks != [] && |chunks| <= |before| + 1
    requires forall i :: 0 <= i < |before| ==>
               after[i] == before[i] + if i + 1 < |chunks| then [PipeMessage(chunks[i + 1], use)] else []
    ensures multiset(chunks[0] + Backlog(after)) == multiset(Backlog(before)) + multiset(Flatten(chunks))
    ensures (forall i :: 0 <= i < |before| ==> before[i] == []) ==> chunks[0] + Backlog(after) == Flatten(chunks)
  {
    hide Flatten, Backlog, Queued;
    DispatchedInto(before, after, chunks, use, |before|);
    assert after[..|before|] == after && before[..|before|] == before && chunks[1..|chunks|] == chunks[1..];
    var rest := Flatten(chunks[1..]);
    assert Flatten(chunks) == chunks[0] + rest by {
      assert chunks == [chunks[0]] + chunks[1..];
      FlattenCons(chunks[0], chunks[1..]);
    }
    MultisetOfSum(chunks[0], Backlog(after));
    MultisetOfSum(chunks[0], rest);
  }

  lemma MultisetOfSum(a: seq<Payload>, b: seq<Payload>)
    ensures multiset(a + b) == multiset(a) + multiset(b)
  {
  }
}
