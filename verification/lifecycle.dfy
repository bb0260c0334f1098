/** Arbitrary interleavings of the batcher's transitions. A run is a list of
    events: callers' `Do`, explicit or timer-fired `Flush` (the timer's
    callback is `Flush` itself), `Stop`, and the goroutine started by
    `execCallback` for a retired generation getting to run. */
module Lifecycle {
  import opened Buffers
  import opened Batches

  datatype Event<K> =
    | Submit(key: K)
    | FlushEvent
    | StopEvent(order: seq<K>)
    | Callback(generation: nat, order: seq<K>)

  /** Whether event `e` can happen in state `b`: a callback exists only for a
      retired generation, and a key order must list the keys the bulk function
      will be given. */
  predicate Enabled<K(==), V, E>(b: Batcher<K, V, E>, e: Event<K>) {
    match e
    case Submit(_) => true
    case FlushEvent => true
    case StopEvent(order) => CallsBulk(b.buffer) ==> IsEnumeration(order, b.buffer.values.Keys)
    case Callback(g, order) =>
      g < |b.retired| && (CallsBulk(b.retired[g]) ==> IsEnumeration(order, b.retired[g].values.Keys))
  }

  function Step<K(==), V, E>(b: Batcher<K, V, E>, e: Event<K>): (r: Batcher<K, V, E>)
    requires Enabled(b, e)
    ensures SameSettings(b, r)
    ensures |b.retired| <= |r.retired|
    ensures Valid(b) ==> Valid(r)
  {
    match e
    case Submit(key) => DoPreservesValidIf(b, key); Do(b, key).next
    case FlushEvent => FlushPreservesValidIf(b); Flush(b)
    case StopEvent(order) => StopPreservesValidIf(b, order); Stop(b, order)
    case Callback(g, order) => ExecCallbackPreservesValidIf(b, g, order); ExecCallback(b, g, order)
  }

  lemma DoPreservesValidIf<K, V, E>(b: Batcher<K, V, E>, key: K)
    ensures Valid(b) ==> Valid(Do(b, key).next)
  {
    if Valid(b) { DoPreservesValid(b, key); }
  }

  lemma FlushPreservesValidIf<K, V, E>(b: Batcher<K, V, E>)
    ensures Valid(b) ==> Valid(Flush(b))
  {
    if Valid(b) { FlushPreservesValid(b); }
  }

  lemma StopPreservesValidIf<K, V, E>(b: Batcher<K, V, E>, order: seq<K>)
    requires CallsBulk(b.buffer) ==> IsEnumeration(order, b.buffer.values.Keys)
    ensures Valid(b) ==> Valid(Stop(b, order))
  {
    if Valid(b) { StopPreservesValid(b, order); }
  }

  lemma ExecCallbackPreservesValidIf<K, V, E>(b: Batcher<K, V, E>, g: nat, order: seq<K>)
    requires g < |b.retired|
    requires CallsBulk(b.retired[g]) ==> IsEnumeration(order, b.retired[g].values.Keys)
    ensures Valid(b) ==> Valid(ExecCallback(b, g, order))
  {
    if Valid(b) { ExecCallbackPreservesValid(b, g, order); }
  }

  /** Every event of `es` is enabled in the state it meets. */
  predicate Runs<K(==), V, E>(b: Batcher<K, V, E>, es: seq<Event<K>>)
    decreases |es|
  {
    |es| == 0 || (Enabled(b, es[0]) && Runs(Step(b, es[0]), es[1..]))
  }

  /** The state after the events `es`: the settings never change, and the
      invariant holds throughout. */
  function Run<K(==), V, E>(b: Batcher<K, V, E>, es: seq<Event<K>>): (r: Batcher<K, V, E>)
    requires Runs(b, es)
    ensures SameSettings(b, r)
    ensures |b.retired| <= |r.retired|
    ensures Valid(b) ==> Valid(r)
    decreases |es|
  {
    if |es| == 0 then b else Run(Step(b, es[0]), es[1..])
  }

  lemma StepKeepsTracks<K, V, E>(b: Batcher<K, V, E>, e: Event<K>, g: nat, k: K)
    requires Valid(b) && Enabled(b, e) && Tracks(b, g, k)
    ensures Tracks(Step(b, e), g, k)
  {
    match e
    case Submit(key) => DoKeepsTracks(b, key, g, k);
    case FlushEvent => FlushKeepsTracks(b, g, k);
    case StopEvent(order) => StopKeepsTracks(b, order, g, k);
    case Callback(h, order) =>
      if g < |b.retired| && b.retired[g].completion == Pending {
        assert Accumulating(b.retired[g]);
      }
      ExecCallbackKeepsTracks(b, h, order, g, k);
  }

  lemma {:induction false} RunKeepsTracks<K, V, E>(b: Batcher<K, V, E>, es: seq<Event<K>>, g: nat, k: K)
    requires Valid(b) && Runs(b, es) && Tracks(b, g, k)
    ensures Tracks(Run(b, es), g, k)
    decreases |es|
  {
    if |es| > 0 {
      StepKeepsTracks(b, es[0], g, k);
      RunKeepsTracks(Step(b, es[0]), es[1..], g, k);
    }
  }

  /** The end-to-end promise of `Do`: whatever happens after a caller submits
      `key`, once the caller's generation is released the caller receives its
      entry in the result of the single bulk call of that generation (the zero
      value when the key is missing from it), together with that call's error,
      and that call was given `key`. */
  lemma CallerReceivesBulkResult<K, V, E>(b: Batcher<K, V, E>, key: K, es: seq<Event<K>>) returns (i: nat)
    requires Valid(b)
    requires Runs(Do(b, key).next, es)
    requires var s := Do(b, key);
      Generation(Run(s.next, es), s.ticket).completion == Done
    ensures var s := Do(b, key); var f := Run(s.next, es);
      && i < |f.calls| && f.calls[i].generation == s.ticket && key in f.calls[i].keys
      && var res := b.do(f.calls[i].keys);
         Answer(f, s.ticket, key) == (if key in res.values then res.values[key] else b.zero, res.err)
  {
    var s := Do(b, key);
    DoTracksCaller(b, key);
    DoPreservesValid(b, key);
    RunKeepsTracks(s.next, es, s.ticket, key);
    var f := Run(s.next, es);
    assert f.do == b.do && f.zero == b.zero;
    i := AnswerFromBulkCall(f, s.ticket, key);
  }
}
