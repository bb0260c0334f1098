/** The sharding hash of pkg/hasher: a caller-supplied function from a key to an
    unsigned 64-bit integer, reduced modulo the number of shards. */
module Hashing {

  /** Go's `uint64`. */
  newtype u64 = x: int | 0 <= x < 0x1_0000_0000_0000_0000

  /** An uninterpreted, deterministic hash function. */
  type Hasher<!K> = K -> u64

  /** The shard index of `key`: the remainder of its hash by `shards`.
      Go panics on a modulo by zero, so `shards` must be positive. */
  function ComputeHash<K>(fn: Hasher<K>, key: K, shards: u64): (r: u64)
    requires shards > 0
    ensures r < shards
    ensures (fn(key) as int - r as int) % shards as int == 0
  {
    var h, n := fn(key) as int, shards as int;
    assert h - h % n == (h / n) * n;
    ShiftByMultiple(0, h / n, n);
    fn(key) % shards
  }

  /** Euclidean remainders are unique: any decomposition `x == q * n + r` with
      `0 <= r < n` names the remainder. */
  lemma ModUnique(x: int, q: int, r: int, n: int)
    requires n > 0 && 0 <= r < n
    requires x == q * n + r
    ensures x % n == r
  {
    var q', r' := x / n, x % n;
    assert x == q' * n + r';
    assert (q - q') * n == r' - r;
    if q > q' {
      assert (q - q') * n >= n by { MulAtLeast(q - q', n); }
    } else if q < q' {
      assert (q' - q) * n >= n by { MulAtLeast(q' - q, n); }
    }
  }

  lemma MulAtLeast(a: int, n: int)
    requires a >= 1 && n > 0
    ensures a * n >= n
  {
  }

  /** Adding `m` whole multiples of `n` does not change a remainder. */
  lemma ShiftByMultiple(x: int, m: int, n: int)
    requires n > 0
    ensures (x + m * n) % n == x % n
  {
    var q, r := x / n, x % n;
    assert x + m * n == (q + m) * n + r;
    ModUnique(x + m * n, q + m, r, n);
  }

  /** Hash values that differ by a whole multiple of `shards` select the same shard. */
  lemma SameResidueSameShard<K>(fn: Hasher<K>, a: K, b: K, shards: u64, m: int)
    requires shards > 0
    requires fn(b) as int == fn(a) as int + m * shards as int
    ensures ComputeHash(fn, a, shards) == ComputeHash(fn, b, shards)
  {
    ShiftByMultiple(fn(a) as int, m, shards as int);
  }
}
