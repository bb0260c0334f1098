/** The sharded batcher of sharded.go: a fixed list of independent batchers
    and a hasher that sends every key to exactly one of them. `Flush` and
    `Stop` reach every shard; Go runs them in parallel goroutines and waits
    for all, and since shards share nothing the model applies them one shard
    after another. */
module Sharding {
  import opened Hashing
  import opened Buffers
  import Batches

  datatype ShardedBatch<!K, V, E> = ShardedBatch(
    shards: u64,
    batches: seq<Batches.Batcher<K, V, E>>,
    shardingFn: Hasher<K>)

  /** `newShardedBatch`: the shard count is the number of batchers supplied
      (a Go slice length always fits in a `uint64`). */
  function NewShardedBatch<K, V, E>(batches: seq<Batches.Batcher<K, V, E>>, fn: Hasher<K>): (r: ShardedBatch<K, V, E>)
    requires |batches| < 0x1_0000_0000_0000_0000
    ensures r.shards as int == |r.batches|
    ensures r.batches == batches && r.shardingFn == fn
  {
    ShardedBatch(|batches| as u64, batches, fn)
  }

  /** The keys that `fn` sends to shard `i` out of `shards`. */
  function RoutesTo<K>(fn: Hasher<K>, shards: u64, i: nat): K -> bool {
    k => shards > 0 && ComputeHash(fn, k, shards) as int == i
  }

  /** Every key a batcher holds in a pending generation, and every key it has
      passed to the bulk function, satisfies `p`. */
  ghost predicate KeysSatisfy<K, V, E>(b: Batches.Batcher<K, V, E>, p: K -> bool) {
    && (forall k | k in b.buffer.values :: p(k))
    && (forall g, k | 0 <= g < |b.retired| && b.retired[g].completion == Pending && k in b.retired[g].values :: p(k))
    && (forall i, k | 0 <= i < |b.calls| && k in b.calls[i].keys :: p(k))
  }

  /** The invariant of a sharded batcher: one valid batcher per shard, each
      holding only keys routed to it. */
  ghost predicate ShardsValid<K, V, E>(s: ShardedBatch<K, V, E>) {
    && s.shards as int == |s.batches|
    && forall i | 0 <= i < |s.batches| ::
         Batches.Valid(s.batches[i]) && KeysSatisfy(s.batches[i], RoutesTo(s.shardingFn, s.shards, i))
  }

  /** The outcome of a sharded `Do`: the new state, the shard the key went to,
      and the generation of that shard the caller waits on. */
  datatype Routed<!K, V, E> = Routed(next: ShardedBatch<K, V, E>, shard: nat, ticket: nat)

  /** `Do`: delegate to the shard `ComputeHash(key, shards)`, leaving every
      other shard as it was. */
  function Do<K(==), V, E>(s: ShardedBatch<K, V, E>, key: K): (r: Routed<K, V, E>)
    requires s.shards > 0 && s.shards as int == |s.batches|
    ensures r.shard < |s.batches|
    ensures RoutesTo(s.shardingFn, s.shards, r.shard)(key)
    ensures r.next.shards == s.shards && r.next.shardingFn == s.shardingFn
    ensures |r.next.batches| == |s.batches|
    ensures var sub := Batches.Do(s.batches[r.shard], key);
      r.next.batches[r.shard] == sub.next && r.ticket == sub.ticket
    ensures forall i | 0 <= i < |s.batches| && i != r.shard :: r.next.batches[i] == s.batches[i]
  {
    var idx := ComputeHash(s.shardingFn, key, s.shards) as nat;
    var sub := Batches.Do(s.batches[idx], key);
    Routed(s.(batches := s.batches[idx := sub.next]), idx, sub.ticket)
  }

  /** `Flush`: every shard is flushed; afterwards every current buffer is empty. */
  method Flush<K(==), V, E>(s: ShardedBatch<K, V, E>) returns (r: ShardedBatch<K, V, E>)
    ensures r.shards == s.shards && r.shardingFn == s.shardingFn
    ensures |r.batches| == |s.batches|
    ensures forall i | 0 <= i < |s.batches| :: r.batches[i] == Batches.Flush(s.batches[i])
    ensures forall i | 0 <= i < |r.batches| :: r.batches[i].buffer.size == 0
    ensures ShardsValid(s) ==> ShardsValid(r)
  {
    var batches := [];
    var i := 0;
    while i < |s.batches|
      invariant 0 <= i <= |s.batches|
      invariant |batches| == i
      invariant forall j | 0 <= j < i :: batches[j] == Batches.Flush(s.batches[j])
    {
      batches := batches + [Batches.Flush(s.batches[i])];
      i := i + 1;
    }
    r := s.(batches := batches);
    if ShardsValid(s) {
      FlushPreservesShardsValid(s, r);
    }
  }

  /** The key lists `Stop` hands to each shard's bulk function. */
  predicate StopOrders<K(==), V, E>(s: ShardedBatch<K, V, E>, orders: seq<seq<K>>) {
    && |orders| == |s.batches|
    && forall i | 0 <= i < |s.batches| ::
         CallsBulk(s.batches[i].buffer) ==> IsEnumeration(orders[i], s.batches[i].buffer.values.Keys)
  }

  /** `Stop`: every shard is stopped; afterwards every shard has no timer, an
      empty current buffer, and its last generation released. */
  method Stop<K(==), V, E>(s: ShardedBatch<K, V, E>, orders: seq<seq<K>>) returns (r: ShardedBatch<K, V, E>)
    requires StopOrders(s, orders)
    ensures r.shards == s.shards && r.shardingFn == s.shardingFn
    ensures |r.batches| == |s.batches|
    ensures forall i | 0 <= i < |s.batches| :: r.batches[i] == Batches.Stop(s.batches[i], orders[i])
    ensures forall i | 0 <= i < |r.batches| ::
      r.batches[i].timer == Batches.NoTimer && r.batches[i].buffer.values == map[] && r.batches[i].buffer.size == 0
    ensures ShardsValid(s) ==> ShardsValid(r)
  {
    var batches := [];
    var i := 0;
    while i < |s.batches|
      invariant 0 <= i <= |s.batches|
      invariant |batches| == i
      invariant forall j | 0 <= j < i :: batches[j] == Batches.Stop(s.batches[j], orders[j])
    {
      batches := batches + [Batches.Stop(s.batches[i], orders[i])];
      i := i + 1;
    }
    r := s.(batches := batches);
    if ShardsValid(s) {
      StopPreservesShardsValid(s, orders, r);
    }
  }

  /** The callback goroutine of generation `g` of shard `shard` getting to run. */
  function ExecCallback<K(==), V, E>(s: ShardedBatch<K, V, E>, shard: nat, g: nat, order: seq<K>): (r: ShardedBatch<K, V, E>)
    requires shard < |s.batches| && g < |s.batches[shard].retired|
    requires CallsBulk(s.batches[shard].retired[g]) ==>
      IsEnumeration(order, s.batches[shard].retired[g].values.Keys)
    ensures r.shards == s.shards && r.shardingFn == s.shardingFn
    ensures r.batches == s.batches[shard := Batches.ExecCallback(s.batches[shard], g, order)]
  {
    s.(batches := s.batches[shard := Batches.ExecCallback(s.batches[shard], g, order)])
  }

  // ---------------------------------------------------------------------------
  // Routing: each shard only ever sees its own keys.

  lemma DoKeepsKeysSatisfy<K, V, E>(b: Batches.Batcher<K, V, E>, key: K, p: K -> bool)
    requires KeysSatisfy(b, p) && p(key)
    ensures KeysSatisfy(Batches.Do(b, key).next, p)
  {
    var r := Batches.Do(b, key).next;
    forall g, k | 0 <= g < |r.retired| && r.retired[g].completion == Pending && k in r.retired[g].values
      ensures p(k)
    {
      if g < |b.retired| {
        assert r.retired[g] == b.retired[g];
      }
    }
  }

  lemma FlushKeepsKeysSatisfy<K, V, E>(b: Batches.Batcher<K, V, E>, p: K -> bool)
    requires KeysSatisfy(b, p)
    ensures KeysSatisfy(Batches.Flush(b), p)
  {
    var r := Batches.Flush(b);
    forall g, k | 0 <= g < |r.retired| && r.retired[g].completion == Pending && k in r.retired[g].values
      ensures p(k)
    {
      if g < |b.retired| {
        assert r.retired[g] == b.retired[g];
      }
    }
  }

  lemma ExecCallbackKeepsKeysSatisfy<K, V, E>(b: Batches.Batcher<K, V, E>, g: nat, order: seq<K>, p: K -> bool)
    requires g < |b.retired|
    requires CallsBulk(b.retired[g]) ==> IsEnumeration(order, b.retired[g].values.Keys)
    requires KeysSatisfy(b, p)
    ensures KeysSatisfy(Batches.ExecCallback(b, g, order), p)
  {
    var r := Batches.ExecCallback(b, g, order);
    forall i, k | 0 <= i < |r.calls| && k in r.calls[i].keys
      ensures p(k)
    {
      if i < |b.calls| {
        assert r.calls[i] == b.calls[i];
      } else {
        assert k in b.retired[g].values;
      }
    }
  }

  lemma StopKeepsKeysSatisfy<K, V, E>(b: Batches.Batcher<K, V, E>, order: seq<K>, p: K -> bool)
    requires CallsBulk(b.buffer) ==> IsEnumeration(order, b.buffer.values.Keys)
    requires KeysSatisfy(b, p)
    ensures KeysSatisfy(Batches.Stop(b, order), p)
  {
    var mid := Batches.Retire(b).(timer := Batches.NoTimer);
    assert KeysSatisfy(mid, p) by {
      forall g, k | 0 <= g < |mid.retired| && mid.retired[g].completion == Pending && k in mid.retired[g].values
        ensures p(k)
      {
        if g < |b.retired| {
          assert mid.retired[g] == b.retired[g];
        }
      }
    }
    ExecCallbackKeepsKeysSatisfy(mid, |b.retired|, order, p);
  }

  /** A sharded batcher built from fresh, valid batchers is valid. */
  lemma NewShardedBatchValid<K, V, E>(batches: seq<Batches.Batcher<K, V, E>>, fn: Hasher<K>)
    requires |batches| < 0x1_0000_0000_0000_0000
    ensures (forall i | 0 <= i < |batches| ::
      Batches.Valid(batches[i]) && batches[i].retired == [] && batches[i].calls == [] && batches[i].buffer.values == map[])
      ==> ShardsValid(NewShardedBatch(batches, fn))
  {
  }

  /** A sharded `Do` keeps the invariant, and the caller is accounted for in the
      shard it was routed to. */
  lemma DoPreservesShardsValid<K, V, E>(s: ShardedBatch<K, V, E>, key: K)
    requires ShardsValid(s) && s.shards > 0
    ensures ShardsValid(Do(s, key).next)
    ensures Batches.Tracks(Do(s, key).next.batches[Do(s, key).shard], Do(s, key).ticket, key)
  {
    var r := Do(s, key);
    var b := s.batches[r.shard];
    Batches.DoPreservesValid(b, key);
    Batches.DoTracksCaller(b, key);
    DoKeepsKeysSatisfy(b, key, RoutesTo(s.shardingFn, s.shards, r.shard));
  }

  lemma FlushPreservesShardsValid<K, V, E>(s: ShardedBatch<K, V, E>, r: ShardedBatch<K, V, E>)
    requires ShardsValid(s)
    requires r.shards == s.shards && r.shardingFn == s.shardingFn && |r.batches| == |s.batches|
    requires forall i | 0 <= i < |s.batches| :: r.batches[i] == Batches.Flush(s.batches[i])
    ensures ShardsValid(r)
  {
    forall i | 0 <= i < |r.batches|
      ensures Batches.Valid(r.batches[i]) && KeysSatisfy(r.batches[i], RoutesTo(r.shardingFn, r.shards, i))
    {
      Batches.FlushPreservesValid(s.batches[i]);
      FlushKeepsKeysSatisfy(s.batches[i], RoutesTo(s.shardingFn, s.shards, i));
    }
  }

  lemma StopPreservesShardsValid<K, V, E>(s: ShardedBatch<K, V, E>, orders: seq<seq<K>>, r: ShardedBatch<K, V, E>)
    requires ShardsValid(s) && StopOrders(s, orders)
    requires r.shards == s.shards && r.shardingFn == s.shardingFn && |r.batches| == |s.batches|
    requires forall i | 0 <= i < |s.batches| :: r.batches[i] == Batches.Stop(s.batches[i], orders[i])
    ensures ShardsValid(r)
  {
    forall i | 0 <= i < |r.batches|
      ensures Batches.Valid(r.batches[i]) && KeysSatisfy(r.batches[i], RoutesTo(r.shardingFn, r.shards, i))
    {
      Batches.StopPreservesValid(s.batches[i], orders[i]);
      StopKeepsKeysSatisfy(s.batches[i], orders[i], RoutesTo(s.shardingFn, s.shards, i));
    }
  }

  lemma ExecCallbackPreservesShardsValid<K, V, E>(s: ShardedBatch<K, V, E>, shard: nat, g: nat, order: seq<K>)
    requires ShardsValid(s)
    requires shard < |s.batches| && g < |s.batches[shard].retired|
    requires CallsBulk(s.batches[shard].retired[g]) ==>
      IsEnumeration(order, s.batches[shard].retired[g].values.Keys)
    ensures ShardsValid(ExecCallback(s, shard, g, order))
  {
    Batches.ExecCallbackPreservesValid(s.batches[shard], g, order);
    ExecCallbackKeepsKeysSatisfy(s.batches[shard], g, order, RoutesTo(s.shardingFn, s.shards, shard));
  }

  /** Every key a shard's bulk function was ever given hashes to that shard, so
      two keys that hash to different shards never share a bulk call. The
      routing premise is the part of `ShardsValid` about shard `i`. */
  lemma NoCrossShardBatching<K, V, E>(s: ShardedBatch<K, V, E>, i: nat, c: nat, k1: K, k2: K)
    requires i < |s.batches| && c < |s.batches[i].calls|
    requires KeysSatisfy(s.batches[i], RoutesTo(s.shardingFn, s.shards, i))
    requires k1 in s.batches[i].calls[c].keys && k2 in s.batches[i].calls[c].keys
    ensures s.shards > 0
    ensures ComputeHash(s.shardingFn, k1, s.shards) as int == i
    ensures ComputeHash(s.shardingFn, k1, s.shards) == ComputeHash(s.shardingFn, k2, s.shards)
  {
    assert RoutesTo(s.shardingFn, s.shards, i)(k1);
    assert RoutesTo(s.shardingFn, s.shards, i)(k2);
  }
}
