/** The single batcher of batch.go as a sequential state machine.

    A `Batcher` owns the current buffer, its fixed settings (`bufferSize`,
    `ttl`, the bulk function `do`, and the zero value Go uses as a placeholder
    and for missing results) and its timer. Buffers it has rotated out stay
    behind as `retired` generations, so that generation `g` of a batcher is
    `retired[g]` while `g < |retired|` and the current buffer when
    `g == |retired|`; a generation keeps its index when it is retired.
    Every invocation of the bulk function is recorded in `calls`.

    The goroutine that `execCallback` starts is a separate step,
    `ExecCallback`, which the environment may take at any time; `Stop`
    waits for its own callback and so resolves the buffer it retires. */
module Batches {
  import opened Wrappers
  import opened Buffers

  /** The batcher's `*time.Timer`: nil, or armed to call `Flush` after `ttl`. */
  datatype Timer = NoTimer | Armed

  /** One invocation of the bulk function: the generation it resolved and the
      list of keys it was given. */
  datatype BulkCall<K> = BulkCall(generation: nat, keys: seq<K>)

  datatype Batcher<!K, V, E> = Batcher(
    bufferSize: int,
    ttl: int,
    do: BulkFn<K, V, E>,
    zero: V,
    timer: Timer,
    buffer: Buffer<K, V, E>,
    retired: seq<Buffer<K, V, E>>,
    calls: seq<BulkCall<K>>)

  /** The read-only settings of `r` are those of `b`. */
  ghost predicate SameSettings<K, V, E>(b: Batcher<K, V, E>, r: Batcher<K, V, E>) {
    && r.bufferSize == b.bufferSize
    && r.ttl == b.ttl
    && r.do == b.do
    && r.zero == b.zero
  }

  /** Generation `g`: a retired buffer, or the current one. */
  function Generation<K, V, E>(b: Batcher<K, V, E>, g: nat): Buffer<K, V, E>
    requires g <= |b.retired|
  {
    if g < |b.retired| then b.retired[g] else b.buffer
  }

  /** `resetTimer`: nothing when `ttl` is zero; otherwise the timer is (re)armed,
      whether it existed before or not. */
  function ResetTimer<K, V, E>(b: Batcher<K, V, E>): (r: Timer)
    ensures b.ttl == 0 ==> r == b.timer
    ensures b.ttl != 0 ==> r == Armed
    ensures TimerMatchesTtl(b) ==> TimerMatchesTtl(b.(timer := r))
  {
    if b.ttl == 0 then b.timer else Armed
  }

  /** The batcher has a timer exactly when its `ttl` is not zero. */
  predicate TimerMatchesTtl<K, V, E>(b: Batcher<K, V, E>) {
    b.timer == Armed <==> b.ttl != 0
  }

  /** Rotation: the current buffer becomes the newest retired generation and an
      empty buffer takes its place. */
  function Retire<K(==), V, E>(b: Batcher<K, V, E>): (r: Batcher<K, V, E>)
    ensures SameSettings(b, r) && r.timer == b.timer && r.calls == b.calls
    ensures r.retired == b.retired + [b.buffer]
    ensures r.buffer == NewBuffer(b.bufferSize)
  {
    b.(retired := b.retired + [b.buffer], buffer := NewBuffer(b.bufferSize))
  }

  /** Every recorded bulk call resolved its generation with exactly what the
      bulk function returned for its keys, and was given a non-empty,
      duplicate-free list. */
  ghost predicate CallRecorded<K, V, E>(b: Batcher<K, V, E>, i: nat)
    requires i < |b.calls|
  {
    var c := b.calls[i];
    && c.generation < |b.retired|
    && b.retired[c.generation].completion == Done
    && b.retired[c.generation].values == b.do(c.keys).values
    && b.retired[c.generation].err == b.do(c.keys).err
    && |c.keys| > 0
    && Distinct(c.keys)
  }

  /** The invariant of a batcher between transitions. */
  ghost predicate Valid<K, V, E>(b: Batcher<K, V, E>) {
    && b.bufferSize >= 1
    // the current buffer counts its distinct keys and is below capacity
    && Accumulating(b.buffer)
    && b.buffer.size < b.bufferSize
    // a retired generation still pending is non-empty and counts its keys
    && (forall g | 0 <= g < |b.retired| && b.retired[g].completion == Pending ::
          Accumulating(b.retired[g]) && b.retired[g].size > 0)
    && (forall i | 0 <= i < |b.calls| :: CallRecorded(b, i))
    // the bulk function ran at most once per generation
    && (forall i, j | 0 <= i < j < |b.calls| :: b.calls[i].generation != b.calls[j].generation)
  }

  /** `newBatch`: an empty current buffer, no history, and a timer exactly when
      `ttl` is not zero. */
  function NewBatch<K(==), V, E>(bufferSize: int, ttl: int, do: BulkFn<K, V, E>, zero: V): (r: Batcher<K, V, E>)
    ensures r.bufferSize == bufferSize && r.ttl == ttl && r.do == do && r.zero == zero
    ensures r.buffer == NewBuffer(bufferSize) && r.retired == [] && r.calls == []
    ensures TimerMatchesTtl(r)
    ensures bufferSize >= 1 ==> Valid(r)
  {
    var b := Batcher(bufferSize, ttl, do, zero, NoTimer, NewBuffer(bufferSize), [], []);
    b.(timer := ResetTimer(b))
  }

  /** The outcome of `Do` for its caller: the new state, the generation the
      caller waits on, and whether this call filled the buffer. */
  datatype Submission<!K, V, E> = Submission(next: Batcher<K, V, E>, ticket: nat, full: bool)

  /** `Do` up to the point where the caller waits: dedup-insert `key` into the
      current buffer and rotate when its `size` reaches `bufferSize`. */
  function Do<K(==), V, E>(b: Batcher<K, V, E>, key: K): (r: Submission<K, V, E>)
    ensures SameSettings(b, r.next) && r.next.calls == b.calls
    ensures r.ticket == |b.retired| <= |r.next.retired|
    ensures r.next.retired[..|b.retired|] == b.retired
    ensures Generation(r.next, r.ticket) == Insert(b.buffer, key, b.zero)
    ensures r.full <==> Generation(r.next, r.ticket).size == b.bufferSize
    ensures r.full ==> r.next.buffer == NewBuffer(b.bufferSize) && |r.next.retired| == |b.retired| + 1
    ensures r.full ==> r.next.timer == ResetTimer(b)
    ensures !r.full ==> r.next.retired == b.retired && r.next.timer == b.timer
  {
    var inserted := b.(buffer := Insert(b.buffer, key, b.zero));
    var full := inserted.buffer.size == b.bufferSize;
    var next := if full then Retire(inserted).(timer := ResetTimer(b)) else inserted;
    Submission(next, |b.retired|, full)
  }

  /** `Flush`: nothing but a timer reset when the current buffer is empty;
      otherwise the buffer is retired (its callback is left to `ExecCallback`). */
  function Flush<K(==), V, E>(b: Batcher<K, V, E>): (r: Batcher<K, V, E>)
    ensures SameSettings(b, r) && r.calls == b.calls
    ensures r.timer == ResetTimer(b)
    ensures b.buffer.size == 0 ==> r.buffer == b.buffer && r.retired == b.retired
    ensures b.buffer.size != 0 ==> r.retired == b.retired + [b.buffer] && r.buffer == NewBuffer(b.bufferSize)
  {
    if b.buffer.size == 0 then b.(timer := ResetTimer(b))
    else Retire(b).(timer := ResetTimer(b))
  }

  /** The callback of generation `g`, under its once-guard: a no-op if the
      generation was already released; otherwise it is resolved, and the bulk
      function is called (and recorded) only if the generation holds keys. */
  function ExecCallback<K(==), V, E>(b: Batcher<K, V, E>, g: nat, order: seq<K>): (r: Batcher<K, V, E>)
    requires g < |b.retired|
    requires CallsBulk(b.retired[g]) ==> IsEnumeration(order, b.retired[g].values.Keys)
    ensures SameSettings(b, r) && r.timer == b.timer && r.buffer == b.buffer
    ensures r.retired == b.retired[g := Resolve(b.retired[g], b.do, order)]
    ensures CallsBulk(b.retired[g]) ==> r.calls == b.calls + [BulkCall(g, order)]
    ensures !CallsBulk(b.retired[g]) ==> r.calls == b.calls
    ensures b.retired[g].completion == Done ==> r == b
  {
    var buf := b.retired[g];
    var calls := if CallsBulk(buf) then b.calls + [BulkCall(g, order)] else b.calls;
    b.(retired := b.retired[g := Resolve(buf, b.do, order)], calls := calls)
  }

  /** `Stop`: the timer is cleared, the current buffer is always retired (even
      when empty), and `Stop` waits until that generation is resolved. */
  function Stop<K(==), V, E>(b: Batcher<K, V, E>, order: seq<K>): (r: Batcher<K, V, E>)
    requires CallsBulk(b.buffer) ==> IsEnumeration(order, b.buffer.values.Keys)
    ensures SameSettings(b, r)
    ensures r.timer == NoTimer
    ensures r.buffer == NewBuffer(b.bufferSize)
    ensures |r.retired| == |b.retired| + 1 && r.retired[..|b.retired|] == b.retired
    ensures r.retired[|b.retired|].completion == Done
    ensures CallsBulk(b.buffer) ==> r.calls == b.calls + [BulkCall(|b.retired|, order)]
    ensures CallsBulk(b.buffer) ==> r.retired[|b.retired|].values == b.do(order).values
    ensures CallsBulk(b.buffer) ==> r.retired[|b.retired|].err == b.do(order).err
    ensures !CallsBulk(b.buffer) ==> r.calls == b.calls && r.retired[|b.retired|] == b.buffer.(completion := Done)
  {
    var retired := Retire(b).(timer := NoTimer);
    ExecCallback(retired, |b.retired|, order)
  }

  /** What a caller of `Do` receives once its generation `g` is released: its
      key's entry, or the zero value when the key is missing, together with the
      generation's error; the value is returned even when the error is set. */
  function Answer<K(==), V, E>(b: Batcher<K, V, E>, g: nat, key: K): (r: (V, Option<E>))
    requires g <= |b.retired| && Generation(b, g).completion == Done
    ensures key in Generation(b, g).values ==> r.0 == Generation(b, g).values[key]
    ensures key !in Generation(b, g).values ==> r.0 == b.zero
    ensures r.1 == Generation(b, g).err
  {
    var buf := Generation(b, g);
    (if key in buf.values then buf.values[key] else b.zero, buf.err)
  }

  // ---------------------------------------------------------------------------
  // The invariant is established by `NewBatch` and kept by every transition.

  lemma DoPreservesValid<K, V, E>(b: Batcher<K, V, E>, key: K)
    requires Valid(b)
    ensures Valid(Do(b, key).next)
  {
    var r := Do(b, key);
    forall i | 0 <= i < |r.next.calls|
      ensures CallRecorded(r.next, i)
    {
      assert CallRecorded(b, i);
      assert r.next.retired[b.calls[i].generation] == b.retired[b.calls[i].generation];
    }
  }

  lemma FlushPreservesValid<K, V, E>(b: Batcher<K, V, E>)
    requires Valid(b)
    ensures Valid(Flush(b))
  {
    var r := Flush(b);
    forall i | 0 <= i < |r.calls|
      ensures CallRecorded(r, i)
    {
      assert CallRecorded(b, i);
    }
  }

  lemma ExecCallbackPreservesValid<K, V, E>(b: Batcher<K, V, E>, g: nat, order: seq<K>)
    requires Valid(b)
    requires g < |b.retired|
    requires CallsBulk(b.retired[g]) ==> IsEnumeration(order, b.retired[g].values.Keys)
    ensures Valid(ExecCallback(b, g, order))
  {
    var r := ExecCallback(b, g, order);
    var buf := b.retired[g];
    forall i | 0 <= i < |r.calls|
      ensures CallRecorded(r, i)
    {
      if i < |b.calls| {
        assert CallRecorded(b, i);
        assert r.calls[i] == b.calls[i];
        // a recorded generation is already released, so it is not `g` unless
        // `g` was left untouched
        assert b.calls[i].generation != g || buf.completion == Done;
      } else {
        assert r.calls[i] == BulkCall(g, order);
        assert |order| == |buf.values| by { EnumerationLength(order, buf.values.Keys); }
      }
    }
    forall i, j | 0 <= i < j < |r.calls|
      ensures r.calls[i].generation != r.calls[j].generation
    {
      if j == |b.calls| {
        assert CallRecorded(b, i);
      }
    }
  }

  lemma StopPreservesValid<K, V, E>(b: Batcher<K, V, E>, order: seq<K>)
    requires Valid(b)
    requires CallsBulk(b.buffer) ==> IsEnumeration(order, b.buffer.values.Keys)
    ensures Valid(Stop(b, order))
  {
    var mid := Retire(b).(timer := NoTimer);
    var r := Stop(b, order);
    assert r == ExecCallback(mid, |b.retired|, order);
    var g := |b.retired|;
    forall i | 0 <= i < |r.calls|
      ensures CallRecorded(r, i)
    {
      if i < |b.calls| {
        assert CallRecorded(b, i);
        assert r.calls[i] == b.calls[i];
      } else {
        assert r.calls[i] == BulkCall(g, order);
        assert |order| == |b.buffer.values| by { EnumerationLength(order, b.buffer.values.Keys); }
      }
    }
    forall i, j | 0 <= i < j < |r.calls|
      ensures r.calls[i].generation != r.calls[j].generation
    {
      if j == |b.calls| {
        assert CallRecorded(b, i);
      }
    }
  }

  /** A duplicate-free list of a set is as long as the set is large. */
  lemma {:induction false} EnumerationLength<K>(s: seq<K>, keys: set<K>)
    requires IsEnumeration(s, keys)
    ensures |s| == |keys|
    decreases |s|
  {
    if |s| > 0 {
      var last := s[|s| - 1];
      var init := s[..|s| - 1];
      assert last !in init;
      assert IsEnumeration(init, keys - {last});
      EnumerationLength(init, keys - {last});
    } else {
      assert keys == {};
    }
  }

  // ---------------------------------------------------------------------------
  // Deduplication, capacity and rotation.

  /** The caller's generation counts each distinct key once, and the buffer
      rotates exactly when that count reaches `bufferSize`; afterwards the
      current buffer again holds fewer than `bufferSize` keys. */
  lemma DoCountsDistinctKeys<K, V, E>(b: Batcher<K, V, E>, key: K)
    requires Valid(b)
    ensures var r := Do(b, key);
      && Generation(r.next, r.ticket).size == |b.buffer.values.Keys + {key}|
      && (r.full <==> |b.buffer.values.Keys + {key}| == b.bufferSize)
      && |r.next.buffer.values| < r.next.bufferSize
  {
    var ins := Insert(b.buffer, key, b.zero);
    assert |ins.values.Keys| == |ins.values|;
    DoPreservesValid(b, key);
  }

  /** `Flush` always leaves an empty current buffer and never calls the bulk
      function; on an empty buffer it changes no buffer at all. */
  lemma FlushEmptiesBuffer<K, V, E>(b: Batcher<K, V, E>)
    requires Valid(b)
    ensures Flush(b).buffer.values == map[] && Flush(b).buffer.size == 0
    ensures Flush(b).calls == b.calls
    ensures b.buffer.values == map[] ==> Flush(b).buffer == b.buffer && Flush(b).retired == b.retired
  {
    if b.buffer.size == 0 {
      assert b.buffer.values == map[];
    } else {
      assert b.buffer.values != map[];
    }
  }

  /** `Stop` on an empty buffer releases the retired generation without calling
      the bulk function; on a non-empty one it calls it exactly once, with the
      buffer's keys. */
  lemma StopResolvesRetired<K, V, E>(b: Batcher<K, V, E>, order: seq<K>)
    requires Valid(b)
    requires b.buffer.size > 0 ==> IsEnumeration(order, b.buffer.values.Keys)
    ensures var r := Stop(b, order);
      && r.timer == NoTimer
      && r.buffer.values == map[]
      && Generation(r, |b.retired|).completion == Done
      && (b.buffer.values == map[] ==> r.calls == b.calls && Generation(r, |b.retired|).values == map[])
      && (b.buffer.values != map[] ==>
            |r.calls| == |b.calls| + 1 && IsEnumeration(r.calls[|b.calls|].keys, b.buffer.values.Keys))
  {
    if b.buffer.values == map[] {
      assert b.buffer.size == 0;
    }
  }

  // ---------------------------------------------------------------------------
  // The timer.

  /** A timer exists exactly when `ttl` is not zero, from `newBatch` on, through
      `Do`, `Flush` and callbacks; only `Stop` removes it. */
  lemma TimerFollowsTtl<K, V, E>(b: Batcher<K, V, E>, key: K)
    requires TimerMatchesTtl(b)
    ensures TimerMatchesTtl(Do(b, key).next)
    ensures TimerMatchesTtl(Flush(b))
    ensures Flush(b).timer == b.timer
  {
  }

  /** `Stop` clears the timer, but a later `Flush` (for instance one already
      started by a timer that fired) finds no timer and, when `ttl` is not zero,
      creates a new one. */
  lemma FlushAfterStopRearms<K, V, E>(b: Batcher<K, V, E>, order: seq<K>)
    requires CallsBulk(b.buffer) ==> IsEnumeration(order, b.buffer.values.Keys)
    ensures Stop(b, order).timer == NoTimer
    ensures b.ttl != 0 ==> Flush(Stop(b, order)).timer == Armed
  {
  }

  // ---------------------------------------------------------------------------
  // At most one bulk call per generation, with exactly the generation's keys.

  /** A callback for an already released generation changes nothing: the
      once-guard makes `execCallback` idempotent. */
  lemma ExecCallbackIdempotent<K, V, E>(b: Batcher<K, V, E>, g: nat, order: seq<K>, order': seq<K>)
    requires g < |b.retired|
    requires CallsBulk(b.retired[g]) ==> IsEnumeration(order, b.retired[g].values.Keys)
    ensures var r := ExecCallback(b, g, order);
      ExecCallback(r, g, order') == r
  {
  }

  /** The bulk call made for a generation receives exactly that generation's
      distinct keys, each once, and at least one. */
  lemma BulkCallGetsBufferKeys<K, V, E>(b: Batcher<K, V, E>, g: nat, order: seq<K>)
    requires Valid(b)
    requires g < |b.retired| && b.retired[g].completion == Pending
    requires IsEnumeration(order, b.retired[g].values.Keys)
    ensures var r := ExecCallback(b, g, order);
      && |r.calls| == |b.calls| + 1
      && r.calls[|b.calls|].generation == g
      && IsEnumeration(r.calls[|b.calls|].keys, b.retired[g].values.Keys)
      && |r.calls[|b.calls|].keys| == b.retired[g].size > 0
  {
    EnumerationLength(order, b.retired[g].values.Keys);
  }

  // ---------------------------------------------------------------------------
  // What a caller receives.

  /** The caller that submitted `key` into generation `g` is accounted for:
      while `g` is pending its key is in the buffer, and once `g` is released
      some recorded bulk call of `g` was given the key. */
  ghost predicate Tracks<K, V, E>(b: Batcher<K, V, E>, g: nat, key: K) {
    && g <= |b.retired|
    && (Generation(b, g).completion == Pending ==> key in Generation(b, g).values)
    && (Generation(b, g).completion == Done ==>
          exists i :: 0 <= i < |b.calls| && b.calls[i].generation == g && key in b.calls[i].keys)
  }

  lemma DoTracksCaller<K, V, E>(b: Batcher<K, V, E>, key: K)
    requires Valid(b)
    ensures Tracks(Do(b, key).next, Do(b, key).ticket, key)
  {
  }

  lemma DoKeepsTracks<K, V, E>(b: Batcher<K, V, E>, key: K, g: nat, k: K)
    requires Tracks(b, g, k)
    ensures Tracks(Do(b, key).next, g, k)
  {
    var r := Do(b, key);
    if Generation(b, g).completion == Done {
      var i :| 0 <= i < |b.calls| && b.calls[i].generation == g && k in b.calls[i].keys;
      assert r.next.calls[i] == b.calls[i];
    }
  }

  lemma FlushKeepsTracks<K, V, E>(b: Batcher<K, V, E>, g: nat, k: K)
    requires Tracks(b, g, k)
    ensures Tracks(Flush(b), g, k)
  {
    var r := Flush(b);
    if Generation(b, g).completion == Done {
      var i :| 0 <= i < |b.calls| && b.calls[i].generation == g && k in b.calls[i].keys;
      assert r.calls[i] == b.calls[i];
    }
  }

  lemma ExecCallbackKeepsTracks<K, V, E>(b: Batcher<K, V, E>, h: nat, order: seq<K>, g: nat, k: K)
    requires h < |b.retired|
    requires CallsBulk(b.retired[h]) ==> IsEnumeration(order, b.retired[h].values.Keys)
    requires Tracks(b, g, k)
    requires Generation(b, g).completion == Pending ==> Accumulating(Generation(b, g))
    ensures Tracks(ExecCallback(b, h, order), g, k)
  {
    var r := ExecCallback(b, h, order);
    if Generation(b, g).completion == Done {
      var i :| 0 <= i < |b.calls| && b.calls[i].generation == g && k in b.calls[i].keys;
      assert r.calls[i] == b.calls[i];
    } else if g == h {
      assert |Generation(b, g).values| > 0;
      assert r.calls[|b.calls|] == BulkCall(g, order);
    }
  }

  lemma StopKeepsTracks<K, V, E>(b: Batcher<K, V, E>, order: seq<K>, g: nat, k: K)
    requires Valid(b)
    requires CallsBulk(b.buffer) ==> IsEnumeration(order, b.buffer.values.Keys)
    requires Tracks(b, g, k)
    ensures Tracks(Stop(b, order), g, k)
  {
    var mid := Retire(b).(timer := NoTimer);
    assert Tracks(mid, g, k) by {
      if Generation(b, g).completion == Done {
        var i :| 0 <= i < |b.calls| && b.calls[i].generation == g && k in b.calls[i].keys;
        assert mid.calls[i] == b.calls[i];
      }
    }
    ExecCallbackKeepsTracks(mid, |b.retired|, order, g, k);
  }

  /** Once generation `g` is released, the caller that submitted `key` into it
      receives its entry in what one bulk call of `g` returned (the zero value
      when the bulk function left it out) together with that call's error;
      that call was given `key`. */
  lemma AnswerFromBulkCall<K, V, E>(b: Batcher<K, V, E>, g: nat, key: K) returns (i: nat)
    requires Valid(b)
    requires Tracks(b, g, key) && Generation(b, g).completion == Done
    ensures i < |b.calls| && b.calls[i].generation == g && key in b.calls[i].keys
    ensures var res := b.do(b.calls[i].keys);
      Answer(b, g, key) == (if key in res.values then res.values[key] else b.zero, res.err)
  {
    i :| 0 <= i < |b.calls| && b.calls[i].generation == g && key in b.calls[i].keys;
    assert CallRecorded(b, i);
  }

  /** Two callers coalesced into the same generation observe the same bulk call,
      and hence the same error. */
  lemma SameGenerationSameCall<K, V, E>(b: Batcher<K, V, E>, g: nat, k1: K, k2: K) returns (i: nat)
    requires Valid(b)
    requires Tracks(b, g, k1) && Tracks(b, g, k2) && Generation(b, g).completion == Done
    ensures i < |b.calls| && b.calls[i].generation == g && k1 in b.calls[i].keys && k2 in b.calls[i].keys
    ensures Answer(b, g, k1).1 == Answer(b, g, k2).1 == b.do(b.calls[i].keys).err
  {
    i := AnswerFromBulkCall(b, g, k1);
    var j := AnswerFromBulkCall(b, g, k2);
    assert i == j;
  }
}
