/** Concrete runs taken from the repository's tests, with the test doubles of
    helpers_test.go: a bulk function mapping each key `k` to `k + k` (with or
    without an error) and a hasher returning the key's length. */
module Scenarios {
  import opened Wrappers
  import opened Hashing
  import opened Buffers
  import Batches
  import Sharding
  import Config

  /** `mockDoOk`. */
  function MockDoOk(keys: seq<string>): BulkResult<string, string, string> {
    BulkResult(map k | k in keys :: k + k, None)
  }

  /** `mockDoKo`: the same values, and an error for the whole generation. */
  function MockDoKo(keys: seq<string>): BulkResult<string, string, string> {
    BulkResult(map k | k in keys :: k + k, Some("assert.AnError"))
  }

  /** `mockHasher`. */
  function MockHasher(key: string): u64 {
    if |key| < 0x1_0000_0000_0000_0000 then |key| as u64 else 0
  }

  /** The hasher of hasher_test.go, `uint64(i * 2)` with Go's wrap-around. */
  function Double(i: int): u64 {
    ((2 * i) % 0x1_0000_0000_0000_0000) as u64
  }

  lemma HasherTestValues()
    ensures ComputeHash(Double, 0, 42) == 0
    ensures ComputeHash(Double, 20, 42) == 40
    ensures ComputeHash(Double, 21, 42) == 0
    ensures ComputeHash(Double, 22, 42) == 2
  {
  }

  /** Two submissions of "42" and one of "1" with capacity 2: the duplicate
      does not count, the third call fills the buffer, and one bulk call with
      both keys answers everybody. */
  lemma DedupScenario()
    ensures var b0 := Batches.NewBatch(2, 0, MockDoOk, "");
      var s1 := Batches.Do(b0, "42");
      var s2 := Batches.Do(s1.next, "42");
      var s3 := Batches.Do(s2.next, "1");
      var b4 := Batches.ExecCallback(s3.next, 0, ["42", "1"]);
      && !s1.full && !s2.full && s3.full
      && s1.ticket == s2.ticket == s3.ticket == 0
      && s2.next.buffer.size == 1
      && s3.next.buffer.size == 0 && s3.next.buffer.values == map[]
      && b4.calls == [Batches.BulkCall(0, ["42", "1"])]
      && Batches.Answer(b4, 0, "42") == ("4242", None)
      && Batches.Answer(b4, 0, "1") == ("11", None)
  {
    var b0 := Batches.NewBatch(2, 0, MockDoOk, "");
    var s1 := Batches.Do(b0, "42");
    var s2 := Batches.Do(s1.next, "42");
    assert s2.next.buffer == s1.next.buffer;
    var s3 := Batches.Do(s2.next, "1");
    assert "1" != "42";
    assert s3.next.retired[0].values.Keys == {"42", "1"};
    var order: seq<string> := ["42", "1"];
    assert IsEnumeration(order, s3.next.retired[0].values.Keys);
    var b4 := Batches.ExecCallback(s3.next, 0, order);
    assert order[0] == "42" && order[1] == "1";
    assert MockDoOk(order).values["42"] == "4242" && MockDoOk(order).values["1"] == "11";
  }

  /** With a failing bulk function every caller of the generation gets the
      error, and still its value. */
  lemma ErrorScenario()
    ensures var b0 := Batches.NewBatch(2, 0, MockDoKo, "");
      var s1 := Batches.Do(b0, "42");
      var s2 := Batches.Do(s1.next, "1");
      var b3 := Batches.ExecCallback(s2.next, 0, ["1", "42"]);
      && s2.full
      && Batches.Answer(b3, 0, "42") == ("4242", Some("assert.AnError"))
      && Batches.Answer(b3, 0, "1") == ("11", Some("assert.AnError"))
  {
    var b0 := Batches.NewBatch(2, 0, MockDoKo, "");
    var s1 := Batches.Do(b0, "42");
    var s2 := Batches.Do(s1.next, "1");
    assert "1" != "42";
    assert s2.next.retired[0].values.Keys == {"42", "1"};
    var order: seq<string> := ["1", "42"];
    assert IsEnumeration(order, s2.next.retired[0].values.Keys);
    assert order[0] == "1" && order[1] == "42";
    assert MockDoKo(order).values["42"] == "4242" && MockDoKo(order).values["1"] == "11";
  }

  /** `Flush` with and without a timer: the buffer is emptied and the timer
      stays as it was; `Stop` always removes the timer. */
  lemma FlushAndStopScenario()
    ensures var b := Batches.NewBatch(42, 5, MockDoOk, "");
      var s := Batches.Do(b, "key");
      var f := Batches.Flush(s.next);
      var t := Batches.Stop(s.next, ["key"]);
      && b.timer == Batches.Armed
      && s.next.buffer.size == 1
      && f.buffer.size == 0 && f.timer == Batches.Armed && |f.retired| == 1
      && t.timer == Batches.NoTimer && t.buffer.size == 0
      && Batches.Answer(t, 0, "key") == ("keykey", None)
  {
    var b := Batches.NewBatch(42, 5, MockDoOk, "");
    var s := Batches.Do(b, "key");
    assert s.next.buffer.values.Keys == {"key"};
    var order: seq<string> := ["key"];
    assert IsEnumeration(order, s.next.buffer.values.Keys);
    assert order[0] == "key";
    assert MockDoOk(order).values["key"] == "keykey";
  }

  /** With the length hasher and two shards, "a" goes to shard 1 and "bb" to
      shard 0, and each shard's buffer holds only its own key. */
  lemma ShardingScenario()
    ensures var idle := Batches.NewBatch(42, 0, MockDoOk, "");
      var s := Sharding.NewShardedBatch([idle, idle], MockHasher);
      var r1 := Sharding.Do(s, "a");
      var r2 := Sharding.Do(r1.next, "bb");
      && r1.shard == 1 && r2.shard == 0
      && r2.next.batches[1].buffer.values.Keys == {"a"}
      && r2.next.batches[0].buffer.values.Keys == {"bb"}
  {
    var idle := Batches.NewBatch(42, 0, MockDoOk, "");
    var s := Sharding.NewShardedBatch([idle, idle], MockHasher);
    assert s.shards == 2;
    assert ComputeHash(MockHasher, "a", 2) == 1;
    assert ComputeHash(MockHasher, "bb", 2) == 0;
    var r1 := Sharding.Do(s, "a");
    assert r1.shard == 1;
    assert r1.next.batches[0] == idle;
    assert r1.next.batches[1] == Batches.Do(idle, "a").next;
    var r2 := Sharding.Do(r1.next, "bb");
    assert r2.shard == 0;
    assert r2.next.batches[0] == Batches.Do(idle, "bb").next;
    assert r2.next.batches[1] == r1.next.batches[1];
  }

  /** The hasher config_test.go passes to `WithSharding`: every key hashes to 0. */
  function ZeroHasher(key: string): u64 {
    0
  }

  /** `time.Second`, in the nanoseconds a `time.Duration` counts. */
  const Second: Config.i64 := 1_000_000_000

  /** The sequence of builder calls of config_test.go: each rejected call
      fails, each accepted one has the field values the test checks, and the
      final configuration builds a sharded batch of two shards. */
  lemma ConfigScenario()
    ensures var cfg := Config.NewBatchConfig<string, string, string>(42, MockDoOk, "");
      && cfg.Success?
      && cfg.value.bufferSize == 42 && cfg.value.ttl == 0 && cfg.value.shards == 0
      && cfg.value.shardingFn == None
      && Config.WithTimer(cfg.value, -42 * Second).Failure?
      && var timed := Config.WithTimer(cfg.value, 21 * Second);
      && timed.Success?
      && timed.value.bufferSize == 42 && timed.value.ttl == 21 * Second
      && timed.value.shards == 0 && timed.value.shardingFn == None
      && Config.WithSharding(timed.value, 1, Some(ZeroHasher)).Failure?
      && Config.WithSharding(timed.value, 2, None).Failure?
      && var sharded := Config.WithSharding(timed.value, 2, Some(ZeroHasher));
      && sharded.Success?
      && sharded.value.bufferSize == 42 && sharded.value.ttl == 21 * Second
      && sharded.value.shards == 2 && sharded.value.shardingFn.Some?
      && var built := Config.Build(sharded.value);
      && built.Sharded? && |built.sharded.batches| == 2
      && Config.NewBatchConfig<string, string, string>(-42, MockDoOk, "").Failure?
  {
  }
}
