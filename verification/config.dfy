/** The builder of config.go: validation of the construction parameters, with
    each `panic` modelled as a `Failure` carrying the panic message, and
    assembly of either one batcher or a sharded batcher of identical shards. */
module Config {
  import opened Wrappers
  import opened Hashing
  import opened Buffers
  import Batches
  import Sharding

  /** Go's `int` (and `time.Duration`): a signed 64-bit integer. */
  newtype i64 = x: int | -0x8000_0000_0000_0000 <= x < 0x8000_0000_0000_0000

  /** `BatchConfig`; a nil hasher is `None`. */
  datatype BatchConfig<!K, V, E> = BatchConfig(
    bufferSize: i64,
    do: BulkFn<K, V, E>,
    zero: V,
    ttl: i64,
    shards: i64,
    shardingFn: Option<Hasher<K>>)

  /** What `Build` returns: the two implementations of the `Batch` interface. */
  datatype Batch<!K, V, E> =
    | Single(batch: Batches.Batcher<K, V, E>)
    | Sharded(sharded: Sharding.ShardedBatch<K, V, E>)

  /** The invariant of whichever implementation was built. */
  ghost predicate BatchValid<K, V, E>(r: Batch<K, V, E>) {
    match r
    case Single(b) => Batches.Valid(b)
    case Sharded(s) => Sharding.ShardsValid(s)
  }

  /** `assertValue`: panics with `msg` exactly when `ok` is false. */
  function AssertValue(ok: bool, msg: string): (r: Outcome)
    ensures r.Pass? <==> ok
    ensures r.Fail? ==> r.error == msg
  {
    if ok then Pass else Fail(msg)
  }

  const BufferSizeMessage := "buffer size must be a positive value"
  const TtlMessage := "ttl must be a positive value"
  const ShardsMessage := "shards must be greater than 1"
  const HasherMessage := "hasher must be greater not nil"

  /** Every configuration the builder functions can produce: a positive
      buffer size, a non-negative ttl, and either no sharding or more than one
      shard with a hasher. */
  ghost predicate WellFormed<K, V, E>(cfg: BatchConfig<K, V, E>) {
    && cfg.bufferSize >= 1
    && cfg.ttl >= 0
    && (cfg.shards == 0 || (cfg.shards > 1 && cfg.shardingFn.Some?))
  }

  /** `NewBatchConfig`: rejects a buffer size below 1; otherwise no timer and no
      sharding. */
  function NewBatchConfig<K, V, E>(bufferSize: i64, do: BulkFn<K, V, E>, zero: V): (r: Result<BatchConfig<K, V, E>>)
    ensures r.Failure? <==> bufferSize < 1
    ensures r.Failure? ==> r.error == BufferSizeMessage
    ensures r.Success? ==>
      && r.value.bufferSize == bufferSize && r.value.do == do && r.value.zero == zero
      && r.value.ttl == 0 && r.value.shards == 0 && r.value.shardingFn == None
    ensures r.Success? ==> WellFormed(r.value)
  {
    var positive := bufferSize >= 1;
    :- AssertValue(positive, BufferSizeMessage);
    Success(BatchConfig(bufferSize, do, zero, 0, 0, None))
  }

  /** `WithTimer`: rejects a negative ttl; otherwise changes only the ttl. */
  function WithTimer<K, V, E>(cfg: BatchConfig<K, V, E>, ttl: i64): (r: Result<BatchConfig<K, V, E>>)
    ensures r.Failure? <==> ttl < 0
    ensures r.Failure? ==> r.error == TtlMessage
    ensures r.Success? ==> r.value == cfg.(ttl := ttl)
    ensures r.Success? && WellFormed(cfg) ==> WellFormed(r.value)
  {
    var nonNegative := ttl >= 0;
    :- AssertValue(nonNegative, TtlMessage);
    Success(cfg.(ttl := ttl))
  }

  /** `WithSharding`: rejects a shard count of 1 or less, then a nil hasher;
      otherwise changes only the shard count and the hasher. */
  function WithSharding<K, V, E>(cfg: BatchConfig<K, V, E>, nbr: i64, fn: Option<Hasher<K>>): (r: Result<BatchConfig<K, V, E>>)
    ensures r.Failure? <==> nbr <= 1 || fn.None?
    ensures nbr <= 1 ==> r == Failure(ShardsMessage)
    ensures nbr > 1 && fn.None? ==> r == Failure(HasherMessage)
    ensures r.Success? ==> r.value == cfg.(shards := nbr, shardingFn := fn)
    ensures r.Success? && WellFormed(cfg) ==> WellFormed(r.value)
  {
    var several := nbr > 1;
    :- AssertValue(several, ShardsMessage);
    :- AssertValue(fn.Some?, HasherMessage);
    Success(cfg.(shards := nbr, shardingFn := fn))
  }

  /** The batcher `Build` makes for one shard (or as the whole batch). */
  function BuildOne<K(==), V, E>(cfg: BatchConfig<K, V, E>): Batches.Batcher<K, V, E> {
    Batches.NewBatch(cfg.bufferSize as int, cfg.ttl as int, cfg.do, cfg.zero)
  }

  /** `Build`: with more than one shard, a sharded batch of exactly `shards`
      identical fresh batchers; otherwise a single fresh batcher. Only
      `WithSharding` sets `shards`, and it never does so without a hasher. */
  function Build<K(==), V, E>(cfg: BatchConfig<K, V, E>): (r: Batch<K, V, E>)
    requires cfg.shards > 1 ==> cfg.shardingFn.Some?
    ensures cfg.shards > 1 ==>
      && r.Sharded?
      && r.sharded.shards as int == |r.sharded.batches| == cfg.shards as int
      && r.sharded.shardingFn == cfg.shardingFn.value
      && forall i | 0 <= i < |r.sharded.batches| ::
           var b := r.sharded.batches[i];
           b.bufferSize == cfg.bufferSize as int && b.ttl == cfg.ttl as int && b.do == cfg.do
           && b.buffer.values == map[] && b.retired == [] && b.calls == []
    ensures cfg.shards <= 1 ==>
      && r.Single?
      && r.batch.bufferSize == cfg.bufferSize as int && r.batch.ttl == cfg.ttl as int && r.batch.do == cfg.do
      && r.batch.buffer.values == map[] && r.batch.retired == [] && r.batch.calls == []
    ensures cfg.bufferSize >= 1 ==> BatchValid(r)
  {
    if cfg.shards > 1 then
      var batches := seq(cfg.shards as int, _ => BuildOne(cfg));
      Sharding.NewShardedBatchValid(batches, cfg.shardingFn.value);
      Sharded(Sharding.NewShardedBatch(batches, cfg.shardingFn.value))
    else
      Single(BuildOne(cfg))
  }

  // ---------------------------------------------------------------------------
  // The four shortcut constructors.

  /** `NewBatch`: a single batcher with no timer. */
  function NewBatch<K(==), V, E>(bufferSize: i64, do: BulkFn<K, V, E>, zero: V): (r: Result<Batch<K, V, E>>)
    ensures r.Failure? <==> bufferSize < 1
    ensures r.Failure? ==> r.error == BufferSizeMessage
    ensures r.Success? ==>
      && r.value.Single?
      && r.value.batch == Batches.NewBatch(bufferSize as int, 0, do, zero)
      && r.value.batch.timer == Batches.NoTimer
      && BatchValid(r.value)
  {
    var cfg :- NewBatchConfig(bufferSize, do, zero);
    Success(Build(cfg))
  }

  /** `NewBatchWithTimer`: a single batcher whose timer exists iff `ttl` is not zero. */
  function NewBatchWithTimer<K(==), V, E>(bufferSize: i64, do: BulkFn<K, V, E>, zero: V, ttl: i64): (r: Result<Batch<K, V, E>>)
    ensures r.Failure? <==> bufferSize < 1 || ttl < 0
    ensures bufferSize < 1 ==> r == Failure(BufferSizeMessage)
    ensures bufferSize >= 1 && ttl < 0 ==> r == Failure(TtlMessage)
    ensures r.Success? ==>
      && r.value.Single?
      && r.value.batch == Batches.NewBatch(bufferSize as int, ttl as int, do, zero)
      && (r.value.batch.timer == Batches.Armed <==> ttl != 0)
      && BatchValid(r.value)
  {
    var cfg :- NewBatchConfig(bufferSize, do, zero);
    var cfg' :- WithTimer(cfg, ttl);
    Success(Build(cfg'))
  }

  /** `NewShardedBatch`: `shards` identical batchers without timers. */
  function NewShardedBatch<K(==), V, E>(shards: i64, hasher: Option<Hasher<K>>, bufferSize: i64, do: BulkFn<K, V, E>, zero: V): (r: Result<Batch<K, V, E>>)
    ensures r.Failure? <==> bufferSize < 1 || shards <= 1 || hasher.None?
    ensures bufferSize < 1 ==> r == Failure(BufferSizeMessage)
    ensures bufferSize >= 1 && shards <= 1 ==> r == Failure(ShardsMessage)
    ensures bufferSize >= 1 && shards > 1 && hasher.None? ==> r == Failure(HasherMessage)
    ensures r.Success? ==>
      && r.value.Sharded?
      && r.value.sharded.shardingFn == hasher.value
      && r.value.sharded.shards as int == |r.value.sharded.batches| == shards as int
      && (forall i | 0 <= i < |r.value.sharded.batches| ::
            r.value.sharded.batches[i] == Batches.NewBatch(bufferSize as int, 0, do, zero))
      && BatchValid(r.value)
  {
    var cfg :- NewBatchConfig(bufferSize, do, zero);
    var cfg' :- WithSharding(cfg, shards, hasher);
    Success(Build(cfg'))
  }

  /** `NewShardedBatchWithTimer`: `shards` identical batchers sharing `ttl`. */
  function NewShardedBatchWithTimer<K(==), V, E>(shards: i64, hasher: Option<Hasher<K>>, bufferSize: i64, do: BulkFn<K, V, E>, zero: V, ttl: i64): (r: Result<Batch<K, V, E>>)
    ensures r.Failure? <==> bufferSize < 1 || ttl < 0 || shards <= 1 || hasher.None?
    ensures bufferSize < 1 ==> r == Failure(BufferSizeMessage)
    ensures bufferSize >= 1 && ttl < 0 ==> r == Failure(TtlMessage)
    ensures bufferSize >= 1 && ttl >= 0 && shards <= 1 ==> r == Failure(ShardsMessage)
    ensures bufferSize >= 1 && ttl >= 0 && shards > 1 && hasher.None? ==> r == Failure(HasherMessage)
    ensures r.Success? ==>
      && r.value.Sharded?
      && r.value.sharded.shardingFn == hasher.value
      && r.value.sharded.shards as int == |r.value.sharded.batches| == shards as int
      && (forall i | 0 <= i < |r.value.sharded.batches| ::
            r.value.sharded.batches[i] == Batches.NewBatch(bufferSize as int, ttl as int, do, zero))
      && BatchValid(r.value)
  {
    var cfg :- NewBatchConfig(bufferSize, do, zero);
    var cfg' :- WithTimer(cfg, ttl);
    var cfg'' :- WithSharding(cfg', shards, hasher);
    Success(Build(cfg''))
  }
}
