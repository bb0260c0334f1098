# go-batchify in Dafny

A Dafny model of the bookkeeping core of go-batchify, a request batcher with
deduplication. Callers submit keys with `Do`. Each key goes into the batcher's
current buffer, which keeps each distinct key once and counts them. When the
buffer reaches `bufferSize` keys, or on `Flush` (called explicitly or by the
timer), the buffer is rotated out. One bulk function then resolves all of its
keys at once, and every caller waiting on that buffer receives its own entry
together with the buffer's shared error. A sharded batcher routes each key to
one of N independent batchers by `hash(key) % N`. A builder validates the
parameters and assembles either one batcher or N identical shards.

The model is a sequential state machine:

- `Buffers`: one generation (buffer.go). It holds the key map, the `size`
  counter, the error slot and a `Pending`/`Done` completion flag. The flag
  stands for Go's `sync.Once` guard and the `sync.WaitGroup` callers wait on,
  so a generation is resolved only if it is still pending. `Buffers.Keys` is
  `lo.Keys`.
- `Batches`: the batcher (batch.go). Rotated-out buffers stay in `retired`, so
  generation `g` is `retired[g]` or, when `g == |retired|`, the current buffer.
  Every bulk call is recorded in `calls` together with the generation it
  resolved.
  - `Do` returns the generation the caller waits on, its ticket. `Answer`
    reads the caller's result from that generation once it is released.
  - The goroutine started by `execCallback` is a separate step,
    `ExecCallback`, that may happen at any later time. `Stop` waits for its
    own callback, so it retires and resolves in one step.
- `Lifecycle`: arbitrary interleavings of these steps as event lists, and the
  end-to-end promise of `Do` over any such run.
- `Sharding`: the sharded batcher (sharded.go).
- `Hashing`: `Hasher.ComputeHash` (pkg/hasher/hasher.go).
- `Config`: the builder and its four shortcut constructors (config.go). Each
  panic becomes a `Failure` that carries the panic message.
- `Scenarios`: concrete runs from the repository's tests, with the test doubles
  of helpers_test.go.

These parts are parameters of the model:

- The bulk function and the hasher are uninterpreted function values.
- Go's zero value of the result type is the `zero` field.
- The order of the key list the bulk function receives is an `order`
  parameter. Because Go's map iteration order is unspecified, `order` may be
  any duplicate-free listing of the buffer's keys.

## Model

| member | source | states |
|---|---|---|
| Hashing.ComputeHash | pkg/hasher/hasher.go:7-9 | the shard index is below `shards` and congruent to the hash modulo `shards`, i.e. it is the remainder of the hash |
| Hashing.SameResidueSameShard | pkg/hasher/hasher.go:8 | hashes that differ by a whole multiple of `shards` select the same shard |
| Scenarios.HasherTestValues | pkg/hasher/hasher_test.go:12-18 | with `fn(i) = uint64(i*2)` and 42 shards, keys 0, 20, 21, 22 give 0, 40, 0, 2 |
| Buffers.NewBuffer | buffer.go:9-19 | a new buffer holds no keys, has no error, has `size` 0 and is still pending |
| Buffers.Insert | batch.go:47-51 | the key set grows by exactly the key; an existing key changes nothing; `size` grows by one only on a first insertion, so `size` keeps equal to the number of distinct keys |
| Buffers.Resolve | batch.go:108-114 | resolution always leaves the buffer released; a pending non-empty buffer takes the bulk function's values and error for its key list; an empty one keeps its values and error; a released one is unchanged |
| Buffers.ResolveIdempotent | batch.go:108 | the once-guard: a second resolution, whatever key order it is offered, changes nothing and would not call the bulk function |
| Buffers.Keys | batch.go:110 | every map has a duplicate-free listing of its keys, as long as the map, so the bulk function can always be given one |
| Batches.NewBatch | batch.go:10-29 | a new batcher has an empty current buffer and no history; it has a timer exactly when `ttl` is not zero; with `bufferSize >= 1` it satisfies the batcher invariant |
| Batches.Do | batch.go:44-64 | the caller's generation is the current one; it gains the key; the buffer rotates exactly when that generation's `size` equals `bufferSize`, and the timer is reset then; otherwise no generation is retired and the timer is untouched; no bulk call happens inside `Do`; settings are unchanged |
| Batches.ResetTimer | batch.go:117-129 | with `ttl` 0 the timer is left as it was; otherwise there is an armed timer afterwards, whether one existed before or not; so "timer iff `ttl != 0`" is kept |
| Batches.Flush | batch.go:88-104 | an empty buffer leaves every buffer as it was and only resets the timer; a non-empty one is retired and replaced by an empty one; no bulk call happens; settings are unchanged |
| Batches.ExecCallback | batch.go:107-115 | only generation `g` changes, and it ends up released; the bulk function is recorded as called with `order` exactly when `g` was pending and non-empty; on an already released generation nothing changes |
| Batches.Stop | batch.go:73-86 | the timer is cleared and an empty buffer is installed; the old buffer is always retired and released; a non-empty one gets exactly one bulk call with its key list and that call's values and error; an empty one is only marked done |
| Batches.DoPreservesValid | batch.go:44-64 | `Do` keeps the invariant: the current buffer counts its distinct keys and stays below `bufferSize`; pending retired generations are non-empty; each recorded call matches its generation's values and error; at most one call per generation |
| Batches.FlushPreservesValid | batch.go:88-104 | `Flush` keeps the batcher invariant |
| Batches.ExecCallbackPreservesValid | batch.go:107-115 | a callback keeps the invariant; in particular it never adds a second bulk call for a generation |
| Batches.StopPreservesValid | batch.go:73-86 | `Stop` keeps the batcher invariant |
| Batches.DoCountsDistinctKeys | batch.go:47-58 | after `Do`, the caller's generation has `size` equal to the number of distinct keys; rotation happens iff that number equals `bufferSize`; the current buffer afterwards holds fewer than `bufferSize` keys |
| Batches.FlushEmptiesBuffer | batch.go:88-104 | after `Flush` the current buffer is empty and no bulk call was made; on an empty buffer no buffer changes |
| Batches.StopResolvesRetired | batch.go:73-86 | after `Stop` the timer is none and the current buffer empty; the retired generation is done; an empty one made no bulk call; a non-empty one made exactly one, with exactly its keys |
| Batches.TimerFollowsTtl | batch.go:117-129 | "timer exists iff `ttl != 0`" is kept by `Do` and `Flush`, and `Flush` leaves the timer absent or present as it was |
| Batches.FlushAfterStopRearms | batch.go:73-86 | `Stop` clears the timer, but a later `Flush` with non-zero `ttl` creates a new one |
| Batches.ExecCallbackIdempotent | batch.go:107-115 | running the callback of a generation twice is the same as running it once |
| Batches.BulkCallGetsBufferKeys | batch.go:109-110 | the bulk call made for a pending generation gets exactly that generation's distinct keys, each once; there is at least one, and there are `size` of them |
| Batches.DoTracksCaller | batch.go:47-67 | right after `Do`, the caller's key is in the pending generation it waits on |
| Batches.Answer | batch.go:66-70 | a released generation gives the caller its key's entry, or the zero value when the key is missing, together with the generation's error; the value is returned even when the error is set |
| Batches.AnswerFromBulkCall | batch.go:66-70 | a caller of a released generation receives `values[key]` from the result of a bulk call of that generation that was given its key, or the zero value if the key is absent; it also receives that call's error, and the value is returned even when the error is set |
| Batches.SameGenerationSameCall | batch.go:107-115 | two callers coalesced into one generation observe the same bulk call, which is that generation's call and was given both keys, and the same error |
| Lifecycle.Step | batch.go:44-115 | every transition keeps the settings and the batcher invariant, and never shrinks the list of generations |
| Lifecycle.Run | batch.go:44-115 | any sequence of `Do`, `Flush`, `Stop` and callbacks keeps the settings and the invariant |
| Lifecycle.CallerReceivesBulkResult | batch.go:44-70 | whatever happens after `Do(key)`, once the caller's generation is released the caller receives its entry (or the zero value) and the error of the single bulk call of that generation, and that call was given `key` |
| Sharding.NewShardedBatch | sharded.go:10-19 | the shard count equals the number of batchers supplied |
| Sharding.NewShardedBatchValid | sharded.go:10-19 | a sharded batch of fresh valid batchers satisfies the sharded invariant |
| Sharding.Do | sharded.go:31-34 | the key goes to shard `ComputeHash(key, shards)`, which is in range; that shard takes exactly the single-batcher `Do`, and every other shard is unchanged |
| Sharding.Flush | sharded.go:36-48 | every shard is flushed, after which every shard's current buffer is empty; the sharded invariant is kept |
| Sharding.Stop | sharded.go:50-62 | every shard is stopped, after which every shard has no timer and an empty current buffer; the sharded invariant is kept |
| Sharding.ExecCallback | batch.go:107-115 | a shard's callback changes only that shard |
| Sharding.DoPreservesShardsValid | sharded.go:31-34 | a sharded `Do` keeps every shard valid and holding only keys routed to it, and the caller is accounted for in its shard |
| Sharding.FlushPreservesShardsValid | sharded.go:36-48 | flushing every shard keeps the sharded invariant |
| Sharding.StopPreservesShardsValid | sharded.go:50-62 | stopping every shard keeps the sharded invariant |
| Sharding.ExecCallbackPreservesShardsValid | batch.go:107-115 | a shard's callback keeps the sharded invariant |
| Sharding.NoCrossShardBatching | sharded.go:31-34 | while a shard holds only keys routed to it (part of the sharded invariant), every key its bulk function was given hashes to that shard, so keys routed to different shards never share a bulk call |
| Config.AssertValue | config.go:10-14 | fails, with the given message, exactly when the condition is false |
| Config.NewBatchConfig | config.go:17-23 | rejects `bufferSize < 1` with its message; otherwise `ttl` 0, `shards` 0 and no hasher |
| Config.WithTimer | config.go:37-42 | rejects a negative `ttl` with its message; otherwise changes only `ttl` |
| Config.WithSharding | config.go:45-52 | rejects `nbr <= 1`, then a nil hasher, each with its message; otherwise changes only `shards` and the hasher |
| Config.Build | config.go:55-70 | with `shards > 1` it gives a sharded batch of exactly `shards` fresh batchers, all with the config's `bufferSize`, `ttl` and bulk function; otherwise it gives one such batcher; the result satisfies its invariant |
| Config.NewBatch | config.go:77-80 | fails iff `bufferSize < 1`; otherwise gives a single valid batcher without a timer |
| Config.NewBatchWithTimer | config.go:82-86 | fails iff `bufferSize < 1` or `ttl < 0`, with the first failing check's message; otherwise gives a single valid batcher with a timer iff `ttl != 0` |
| Config.NewShardedBatch | config.go:88-92 | fails iff `bufferSize < 1`, `shards <= 1` or the hasher is nil, in that order; otherwise gives `shards` identical batchers without a timer, routed by the supplied hasher |
| Config.NewShardedBatchWithTimer | config.go:94-99 | fails iff any of the checks of the chain fails, with the first failing check's message; otherwise gives `shards` identical batchers sharing `ttl`, routed by the supplied hasher |
| Scenarios.DedupScenario | batch_test.go:152-180 | with capacity 2, "42", "42", "1" give one generation: the duplicate is not counted, the third `Do` rotates, and one bulk call answers "4242" and "11" |
| Scenarios.ErrorScenario | batch_test.go:182-214 | with a failing bulk function every caller gets the error together with its value |
| Scenarios.FlushAndStopScenario | batch_test.go:42-101 | `Flush` empties the buffer and keeps the timer; `Stop` clears the timer, empties the buffer and answers the pending key |
| Scenarios.ShardingScenario | sharded.go:31-34 | with the length hasher and two shards, "a" goes to shard 1 and "bb" to shard 0, and each shard holds only its own key |
| Scenarios.ConfigScenario | config_test.go:21-62 | `NewBatchConfig(42, …)` gives `bufferSize` 42, `ttl` 0, `shards` 0 and no hasher; `WithTimer(-42s)` fails and `WithTimer(21s)` sets only `ttl`; `WithSharding(1, fn)` and `WithSharding(2, nil)` fail, `WithSharding(2, fn)` sets two shards and a hasher; `Build` then gives a sharded batch of two shards; `NewBatchConfig(-42, …)` fails |

## Left out

- Goroutines, `sync.RWMutex`, `sync.WaitGroup` and `sync.Once` are not modelled as such. Each transition is atomic. The once-guard and the wait group are the `Pending`/`Done` flag. Races, such as between the capacity trigger and a timer-fired `Flush`, are interleavings of `Lifecycle` events.
- Liveness is not modelled. Nothing forces the callback of a retired generation to run eventually, so callers are only shown to be answered once their generation is released.
- Real time is not modelled. `ttl` is an integer, the timer is only "none" or "armed", and a timer firing is a `Flush` event. The timing assertions of the tests are not modelled.
- The semantics of `lo.Keys`, `lo.Empty`, `lo.RepeatBy` and `lo.SliceToMap` are not modelled. The key list is any duplicate-free listing of the keys. The zero value is the `zero` parameter. `RepeatBy` is a sequence of identical batchers.
- The bulk function and the hasher are uninterpreted parameters. A nil bulk function is not modelled.
- The bulk function is modelled as a pure function: the same key list always gives the same result, and a recorded bulk call keeps only its keys. Go's `do` may be any closure, such as a database query. Each generation gets at most one call, so no property here depends on this.
- `ComputeHash` panics on `% 0` when `newShardedBatch` receives no batchers (sharded.go:15, 32). `Hashing.ComputeHash` and `Sharding.Do` require at least one shard instead of modelling that panic. `Build` never produces a sharded batch with fewer than two shards.
- `internal.NoCopy`, the example programs and the test helper `testWithTimeout` are not part of this model.
- The `Batch` interface lets a sharded batch hold sharded batches. Here every shard is a single batcher.
- Go's `int` is 64 bits wide. In the batcher, `size` and `bufferSize` are unbounded here, because `size` stays below `bufferSize` and cannot overflow. The builder's parameters use a 64-bit newtype.
- A `BatchConfig` written as a zero-value literal, bypassing `NewBatchConfig`, is not modelled. `Build` requires a hasher whenever `shards > 1`, which `WithSharding` guarantees.
- The hasher's doc comment speaks of a 16-bit hash. The code uses `uint64`, and so does the model.
- Use after `Stop` is not restricted here. `Do` and `Flush` keep working on the fresh buffer, and a `Flush` after `Stop` creates a new timer when `ttl != 0` (`Batches.FlushAfterStopRearms`, batch.go:122-127).
