/**
 * The model-call port. Every call to a model, by invocation or by stream,
 * goes through the provider registry and ends in a vendor adapter; here the
 * whole round trip is a script of replies indexed by call number. A run makes
 * its calls one after another and each call's request depends only on the
 * replies before it, so every way the real port could answer a run is some
 * script. A port object numbers and records the calls as they are made.
 */
module Port {
  import opened Results

  /** The reply to one invocation: its content, or the error reported. */
  datatype Reply = Reply(content: string) | CallFailed(err: string)

  /** provider.StreamChunk: a piece of content, a done marker, or an error. */
  datatype StreamChunk = StreamChunk(content: string, done: bool, error: Option<string>)

  /** Opening a stream yields the chunks it will deliver, or an error. */
  datatype StreamReply = StreamOpened(chunks: seq<StreamChunk>) | StreamFailed(err: string)

  /** The reply to the n-th call of a run. */
  type Oracle = nat -> Reply
  /** What opening the n-th call of a run as a stream yields. */
  type StreamOracle = nat -> StreamReply

  /**
   * Requests are recorded by what they carry (`Q`), not by the wording of a
   * prompt.
   */
  class ModelPort<Q> {
    const invoke: Oracle
    const stream: StreamOracle
    /** The calls so far, in order, as (AI ID, request); invocations and streams share the numbering. */
    var calls: seq<(string, Q)>

    constructor (invoke: Oracle, stream: StreamOracle)
      ensures this.invoke == invoke && this.stream == stream && calls == []
    {
      this.invoke := invoke;
      this.stream := stream;
      calls := [];
    }

    /** registry.Invoke: the next call, answered by the oracle. */
    method Invoke(aiId: string, q: Q) returns (r: Reply)
      modifies this
      ensures calls == old(calls) + [(aiId, q)]
      ensures r == invoke(|old(calls)|)
    {
      r := invoke(|calls|);
      calls := calls + [(aiId, q)];
    }

    /** registry.Stream: the next call, answered by the stream oracle. */
    method Stream(aiId: string, q: Q) returns (r: StreamReply)
      modifies this
      ensures calls == old(calls) + [(aiId, q)]
      ensures r == stream(|old(calls)|)
    {
      r := stream(|calls|);
      calls := calls + [(aiId, q)];
    }
  }

  /** Calls recorded in three stretches read the same however the stretches are grouped. */
  lemma AppendAssoc<T>(a: seq<T>, b: seq<T>, c: seq<T>)
    ensures (a + b) + c == a + (b + c)
  {
  }

  /** A call log that starts with a stretch `a` has `a` as its prefix. */
  lemma PrefixOf<T>(a: seq<T>, b: seq<T>, c: seq<T>, d: seq<T>)
    ensures |a + b + c + d| >= |a| && (a + b + c + d)[..|a|] == a
  {
    assert a + b + c + d == a + (b + c + d);
  }

  /** The calls recorded after a stretch `a` are read back from where `a` ends. */
  lemma SliceAfter<T>(a: seq<T>, b: seq<T>, n: nat)
    requires n <= |b|
    ensures (a + b)[|a|..|a| + n] == b[..n]
  {
    assert forall i | 0 <= i < n :: (a + b)[|a| + i] == b[i];
  }
}
