/** One generation of the batcher (buffer.go): the distinct keys submitted so
    far, a `size` counter kept beside them, the shared error slot, and the
    completion flag that stands for the `sync.Once` guard together with the
    `sync.WaitGroup` every caller of the generation waits on. */
module Buffers {
  import opened Wrappers

  /** `Pending` until the single release performed by the once-guarded callback. */
  datatype Completion = Pending | Done

  /** What the bulk function returns: per-key results and an optional error,
      always together. */
  datatype BulkResult<K, V, E> = BulkResult(values: map<K, V>, err: Option<E>)

  /** The caller-supplied bulk function; it receives the generation's keys as a list. */
  type BulkFn<!K, V, E> = seq<K> -> BulkResult<K, V, E>

  datatype Buffer<K, V, E> = Buffer(
    values: map<K, V>,
    err: Option<E>,
    size: int,
    completion: Completion)

  /** No key occurs twice in `s`. */
  predicate Distinct<K(==)>(s: seq<K>) {
    forall i, j | 0 <= i < j < |s| :: s[i] != s[j]
  }

  /** `s` lists every key of `keys` exactly once, in some order: what `lo.Keys`
      yields for a Go map, whose iteration order is unspecified. */
  predicate IsEnumeration<K(==)>(s: seq<K>, keys: set<K>) {
    && Distinct(s)
    && (forall k | k in s :: k in keys)
    && (forall k | k in keys :: k in s)
  }

  /** A buffer that is still accepting keys: not yet released, and its `size`
      counter equals the number of distinct keys it holds. */
  predicate Accumulating<K(==), V, E>(buf: Buffer<K, V, E>) {
    buf.completion == Pending && buf.size == |buf.values|
  }

  /** `newBuffer`: no keys, no error, `size` 0, completion still pending.
      `bufferSize` is only a capacity hint for the Go map and has no effect. */
  function NewBuffer<K(==), V, E>(bufferSize: int): (r: Buffer<K, V, E>)
    ensures Accumulating(r)
    ensures r.values == map[] && r.size == 0
    ensures r.err == None
  {
    Buffer(map[], None, 0, Pending)
  }

  /** The dedup-insert of `Do`: `key` is registered with the placeholder `zero`
      only if absent, and `size` grows only on that first insertion. */
  function Insert<K(==), V, E>(buf: Buffer<K, V, E>, key: K, zero: V): (r: Buffer<K, V, E>)
    ensures r.values.Keys == buf.values.Keys + {key}
    ensures key in buf.values ==> r == buf
    ensures key !in buf.values ==> r.size == buf.size + 1 && r.values[key] == zero
    ensures forall k | k in buf.values :: r.values[k] == buf.values[k]
    ensures r.err == buf.err && r.completion == buf.completion
    ensures Accumulating(buf) ==> Accumulating(r)
  {
    if key in buf.values then buf
    else buf.(values := buf.values[key := zero], size := buf.size + 1)
  }

  /** Whether resolving `buf` runs the bulk function: only the first resolution
      of a generation, and only when it holds at least one key. */
  predicate CallsBulk<K(==), V, E>(buf: Buffer<K, V, E>) {
    buf.completion == Pending && buf.size > 0
  }

  /** The once-guarded body of `execCallback`: a pending, non-empty buffer gets
      the bulk function's values and error for the list `order` of its keys; an
      empty one is only released; a released one is left alone. */
  function Resolve<K(==), V, E>(buf: Buffer<K, V, E>, do: BulkFn<K, V, E>, order: seq<K>): (r: Buffer<K, V, E>)
    requires CallsBulk(buf) ==> IsEnumeration(order, buf.values.Keys)
    ensures r.completion == Done
    ensures buf.completion == Done ==> r == buf
    ensures CallsBulk(buf) ==> r.values == do(order).values && r.err == do(order).err
    ensures !CallsBulk(buf) ==> r.values == buf.values && r.err == buf.err
    ensures r.size == buf.size
  {
    if buf.completion == Done then buf
    else if buf.size > 0 then
      var res := do(order);
      buf.(values := res.values, err := res.err, completion := Done)
    else
      buf.(completion := Done)
  }

  /** `sync.Once`: a second resolution, whatever key order it is offered, changes nothing. */
  lemma ResolveIdempotent<K, V, E>(buf: Buffer<K, V, E>, do: BulkFn<K, V, E>, order: seq<K>, order': seq<K>)
    requires CallsBulk(buf) ==> IsEnumeration(order, buf.values.Keys)
    ensures !CallsBulk(Resolve(buf, do, order))
    ensures Resolve(Resolve(buf, do, order), do, order') == Resolve(buf, do, order)
  {
  }

  /** `lo.Keys`: some duplicate-free list of the keys of `m`. Go leaves the
      order unspecified, and so does this method. */
  method Keys<K(==), V>(m: map<K, V>) returns (keys: seq<K>)
    ensures IsEnumeration(keys, m.Keys)
    ensures |keys| == |m|
  {
    keys := [];
    var rest := m.Keys;
    while rest != {}
      invariant rest <= m.Keys
      invariant Distinct(keys)
      invariant forall k | k in keys :: k in m.Keys && k !in rest
      invariant forall k | k in m.Keys && k !in rest :: k in keys
      invariant |keys| + |rest| == |m.Keys|
      decreases |rest|
    {
      var k :| k in rest;
      keys := keys + [k];
      rest := rest - {k};
    }
  }
}
