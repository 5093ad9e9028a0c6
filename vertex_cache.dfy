/**
 * The per-vertex memo of `createGeometry`: a map from quantised-position key
 * to `VertexInfo`, filled on a miss and read back unchanged on a hit. Its
 * contents after the first `n` corners are described by `CacheAfter`, and
 * the record every corner receives by `Info`: the record computed from the
 * FIRST corner in buffer order whose key it shares. That is the seam
 * guarantee: corners with equal keys get the identical record.
 */
module VertexCache {
  import opened Vectors
  import opened Oracles

  /** `scatterScale` */
  const ScatterScale: real := 100.0

  /** The shift `addScalar(100)` applied to obtain the second sea-height sample. */
  const SeaMorphShift: real := 100.0

  /** `VertexInfo`: radial height, scatter offset, sea height and sea-morph height. */
  datatype VertexInfo = VertexInfo(height: real, scatter: Vec, seaHeight: real, seaMorph: real)

  /** The record computed on a cache miss for the corner at position `v`. */
  function ComputeVertexInfo(ctx: Context, v: Vec): VertexInfo {
    var amount := ctx.scatterAmount;
    var scatterX := ctx.num.noise(NoiseQuery(amount, v));
    var scatterY := ctx.num.noise(NoiseQuery(amount, Vec(v.y + ScatterScale * 100.0,
                                              v.z - ScatterScale * 100.0,
                                              v.x + ScatterScale * 100.0)));
    var scatterZ := ctx.num.noise(NoiseQuery(amount, Vec(v.z - ScatterScale * 200.0,
                                              v.x + ScatterScale * 200.0,
                                              v.y - ScatterScale * 200.0)));
    var shifted := Vec(v.x + SeaMorphShift, v.y + SeaMorphShift, v.z + SeaMorphShift);
    VertexInfo(ctx.biome.getHeight(v) + 1.0,
               Vec(scatterX, scatterY, scatterZ),
               ctx.biome.getSeaHeight(v) + 1.0,
               ctx.biome.getSeaHeight(shifted) + 1.0)
  }

  /** The index of the first occurrence of `k` in `ks`, or `|ks|` when there is none. */
  function FirstIndexOf<K(==)>(ks: seq<K>, k: K): (r: nat)
    ensures r <= |ks|
    ensures r < |ks| ==> ks[r] == k
    ensures forall q :: 0 <= q < r ==> ks[q] != k
  {
    if |ks| == 0 then 0
    else if ks[0] == k then 0
    else 1 + FirstIndexOf(ks[1..], k)
  }

  /** A key that occurs among the first `n` entries has its first occurrence there. */
  lemma {:induction false} FirstIndexInPrefix<K>(ks: seq<K>, k: K, n: nat)
    requires n <= |ks|
    ensures k in ks[..n] <==> FirstIndexOf(ks, k) < n
  {
    if k in ks[..n] {
      var q :| 0 <= q < n && ks[..n][q] == k;
      assert ks[q] == k;
    }
    if FirstIndexOf(ks, k) < n {
      assert ks[..n][FirstIndexOf(ks, k)] == k;
    }
  }

  /** The cache key of every corner of the base buffer. */
  function Keys(ctx: Context): (ks: seq<string>)
    ensures |ks| == |ctx.base|
    ensures forall p :: 0 <= p < |ks| ==> ks[p] == ctx.num.key(ctx.base[p])
  {
    seq(|ctx.base|, p requires 0 <= p < |ctx.base| => ctx.num.key(ctx.base[p]))
  }

  /** The record a cache miss at corner `p` would compute, for every corner. */
  function Computed(ctx: Context): (vs: seq<VertexInfo>)
    ensures |vs| == |ctx.base|
    ensures forall p :: 0 <= p < |vs| ==> vs[p] == ComputeVertexInfo(ctx, ctx.base[p])
  {
    seq(|ctx.base|, p requires 0 <= p < |ctx.base| => ComputeVertexInfo(ctx, ctx.base[p]))
  }

  /** The first corner whose key equals that of corner `p`. */
  function CanonicalCorner(ctx: Context, p: nat): (q: nat)
    requires p < |ctx.base|
    ensures q <= p
    ensures ctx.num.key(ctx.base[q]) == ctx.num.key(ctx.base[p])
    ensures forall r :: 0 <= r < q ==> ctx.num.key(ctx.base[r]) != ctx.num.key(ctx.base[p])
  {
    FirstIndexOf(Keys(ctx), Keys(ctx)[p])
  }

  /** The record corner `p` receives from the cache. */
  function Info(ctx: Context, p: nat): VertexInfo
    requires p < |ctx.base|
  {
    ComputeVertexInfo(ctx, ctx.base[CanonicalCorner(ctx, p)])
  }

  /**
   * A memo table filled along `ks`, storing `vs[p]` under `ks[p]` only when
   * the key is not yet present: after `n` entries each key seen maps to the
   * value at its first occurrence.
   */
  function FirstWins<K(==), V>(ks: seq<K>, vs: seq<V>, n: nat): map<K, V>
    requires n <= |ks| == |vs|
  {
    map k | k in ks[..n] :: (FirstIndexInPrefix(ks, k, n); vs[FirstIndexOf(ks, k)])
  }

  /**
   * Entry `n` of the memo table: on a hit the table is unchanged; on a miss
   * `n` is its key's first occurrence and the table gains exactly that key.
   */
  lemma {:induction false} FirstWinsStep<K, V>(ks: seq<K>, vs: seq<V>, n: nat)
    requires n < |ks| == |vs|
    ensures ks[n] in FirstWins(ks, vs, n) ==>
      FirstWins(ks, vs, n)[ks[n]] == vs[FirstIndexOf(ks, ks[n])] &&
      FirstWins(ks, vs, n + 1) == FirstWins(ks, vs, n)
    ensures ks[n] !in FirstWins(ks, vs, n) ==>
      FirstIndexOf(ks, ks[n]) == n &&
      FirstWins(ks, vs, n + 1) == FirstWins(ks, vs, n)[ks[n] := vs[n]]
  {
    var k := ks[n];
    assert ks[..n + 1] == ks[..n] + [k];
    FirstIndexInPrefix(ks, k, n);
    var before, after := FirstWins(ks, vs, n), FirstWins(ks, vs, n + 1);
    forall k' | k' in ks[..n + 1]
      ensures FirstIndexOf(ks, k') < n + 1
    {
      FirstIndexInPrefix(ks, k', n + 1);
    }
    if k in before {
      assert after.Keys == before.Keys;
    } else {
      assert FirstIndexOf(ks, k) == n;
      assert after.Keys == before.Keys + {k};
    }
  }

  /** The cache once the first `n` corners have been looked up. */
  function CacheAfter(ctx: Context, n: nat): (cache: map<string, VertexInfo>)
    requires n <= |ctx.base|
  {
    FirstWins(Keys(ctx), Computed(ctx), n)
  }

  /**
   * Looking up corner `n`: on a hit the cache is unchanged and already holds
   * `Info(ctx, n)`; on a miss corner `n` is its key's first corner and the
   * cache gains exactly that key.
   */
  lemma {:induction false} CacheAfterStep(ctx: Context, n: nat)
    requires n < |ctx.base|
    ensures var k := ctx.num.key(ctx.base[n]);
      if k in CacheAfter(ctx, n) then
        CacheAfter(ctx, n)[k] == Info(ctx, n) && CacheAfter(ctx, n + 1) == CacheAfter(ctx, n)
      else
        CanonicalCorner(ctx, n) == n &&
        CacheAfter(ctx, n + 1) == CacheAfter(ctx, n)[k := ComputeVertexInfo(ctx, ctx.base[n])]
  {
    FirstWinsStep(Keys(ctx), Computed(ctx), n);
  }

  /**
   * Once stored, a record is never replaced: every key of the cache after
   * `m` corners is still there, with the same record, after `n >= m`.
   */
  lemma {:induction false} CacheOnlyGrows(ctx: Context, m: nat, n: nat)
    requires m <= n <= |ctx.base|
    ensures forall k :: k in CacheAfter(ctx, m) ==>
      k in CacheAfter(ctx, n) && CacheAfter(ctx, n)[k] == CacheAfter(ctx, m)[k]
    decreases n - m
  {
    if m < n {
      CacheOnlyGrows(ctx, m + 1, n);
      CacheAfterStep(ctx, m);
    }
  }

  /** Corners whose keys coincide receive the identical record. */
  lemma {:induction false} SeamConsistency(ctx: Context, p: nat, q: nat)
    requires p < |ctx.base| && q < |ctx.base|
    requires ctx.num.key(ctx.base[p]) == ctx.num.key(ctx.base[q])
    ensures CanonicalCorner(ctx, p) == CanonicalCorner(ctx, q)
    ensures Info(ctx, p) == Info(ctx, q)
  {
  }

  /** The value the memo table hands out for entry `p`: the one stored at its key's first occurrence. */
  function Memo<K(==), V>(ks: seq<K>, vs: seq<V>, p: nat): V
    requires p < |ks| == |vs|
  {
    vs[FirstIndexOf(ks, ks[p])]
  }

  /** `records` holds, for every entry, the value the memo table hands out for it. */
  ghost predicate Memoized<K, V>(ks: seq<K>, vs: seq<V>, records: seq<V>) {
    |records| == |ks| == |vs| &&
    forall p {:trigger Memo(ks, vs, p)} :: 0 <= p < |ks| ==> Memo(ks, vs, p) == records[p]
  }

  /** Corner `p`'s key and miss record are entry `p` of `keys` and `vals`. */
  ghost predicate CornerTabled(ctx: Context, keys: seq<string>, vals: seq<VertexInfo>, p: nat) {
    p < |keys| == |vals| == |ctx.base| &&
    keys[p] == ctx.num.key(ctx.base[p]) && vals[p] == ComputeVertexInfo(ctx, ctx.base[p])
  }

  /** Every corner is tabled in `keys` and `vals`. */
  ghost predicate Tabled(ctx: Context, keys: seq<string>, vals: seq<VertexInfo>) {
    |keys| == |vals| == |ctx.base| &&
    forall p {:trigger CornerTabled(ctx, keys, vals, p)} :: 0 <= p < |keys| ==> CornerTabled(ctx, keys, vals, p)
  }

  /** `Keys` and `Computed` table every corner. */
  lemma {:induction false} KeysAreTabled(ctx: Context)
    ensures Tabled(ctx, Keys(ctx), Computed(ctx))
  {
    forall p | 0 <= p < |ctx.base|
      ensures CornerTabled(ctx, Keys(ctx), Computed(ctx), p)
    {
    }
  }

  /**
   * One cache access of the face loop (`calculatedVertices.get(key)`, and on
   * a miss the computation and `calculatedVertices.set(key, move)`) for
   * corner `p`, whose current position is `v`. The cache is the first-wins
   * table over `keys` and `vals`, the keys and miss records of all corners in
   * buffer order (`Keys` and `Computed`, by `CacheAfter`'s definition).
   */
  method ResolveVertex(ctx: Context, cache: map<string, VertexInfo>, p: nat, v: Vec,
                       ghost keys: seq<string>, ghost vals: seq<VertexInfo>)
    returns (move: VertexInfo, cache': map<string, VertexInfo>)
    requires CornerTabled(ctx, keys, vals, p) && v == ctx.base[p]
    requires cache == FirstWins(keys, vals, p)
    ensures move == Memo(keys, vals, p)
    ensures cache' == FirstWins(keys, vals, p + 1)
    ensures ctx.num.key(v) in cache ==> move == cache[ctx.num.key(v)] && cache' == cache
    ensures ctx.num.key(v) !in cache ==>
      move == ComputeVertexInfo(ctx, v) && cache' == cache[ctx.num.key(v) := move]
  {
    FirstWinsStep(keys, vals, p);
    var key := ctx.num.key(v);
    if key in cache {
      move := cache[key];
      cache' := cache;
    } else {
      move := ComputeVertexInfo(ctx, v);
      cache' := cache[key := move];
    }
  }
}
