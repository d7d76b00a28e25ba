/** The per-IP rate limiter (`internal/server/ratelimit.go`): token buckets kept in 256 shards by the
    hash of the address, created on first use and evicted when unused.

    The token bucket follows the contract of the library it comes from: it starts full, refills at a
    constant rate up to its burst, and a denied request changes nothing. The hash is any function. */
module RateLimiter {
  import opened Wrappers

  const NUM_SHARDS: nat := 256

  /** `rate` is in tokens per clock tick. */
  datatype Params = Params(rate: real, burst: nat, ttl: nat, hash: string -> nat)

  datatype Bucket = Bucket(tokens: real, last: int)

  function Earned(p: Params, elapsed: int): real { if elapsed <= 0 then 0.0 else p.rate * elapsed as real }

  function Tokens(p: Params, b: Bucket, now: int): real
  {
    Least(p.burst as real, b.tokens + Earned(p, now - b.last))
  }

  function Take(p: Params, b: Bucket, now: int): (Bucket, bool)
  {
    var available := Tokens(p, b, now);
    if available >= 1.0 then (Bucket(available - 1.0, now), true) else (b, false)
  }

  function Full(p: Params, now: int): Bucket { Bucket(p.burst as real, now) }

  // ---- the sharded table -------------------------------------------------------------------

  /** `limiter` names the limiter object that the entry points to. */
  datatype Entry = Entry(limiter: nat, lastAccess: int)

  datatype Table = Table(shards: seq<map<string, Entry>>, limiters: map<nat, Bucket>, total: int, nextId: nat)

  function ShardOf(p: Params, ip: string): (k: nat)
    ensures k < NUM_SHARDS
  {
    p.hash(ip) % NUM_SHARDS
  }

  predicate Present(p: Params, t: Table, ip: string)
  {
    |t.shards| == NUM_SHARDS && ip in t.shards[ShardOf(p, ip)]
  }

  function EntryOf(p: Params, t: Table, ip: string): Entry
    requires Present(p, t, ip)
  {
    t.shards[ShardOf(p, ip)][ip]
  }

  function Put(p: Params, t: Table, ip: string, e: Entry): Table
    requires |t.shards| == NUM_SHARDS
  {
    var k := ShardOf(p, ip);
    t.(shards := t.shards[k := t.shards[k][ip := e]])
  }

  /** A lookup that finds an entry refreshes its access time. */
  function Touch(p: Params, t: Table, ip: string, now: int): Table
    requires Present(p, t, ip)
  {
    Put(p, t, ip, EntryOf(p, t, ip).(lastAccess := now))
  }

  function Insert(p: Params, t: Table, ip: string, now: int): Table
    requires |t.shards| == NUM_SHARDS
  {
    Put(p, t, ip, Entry(t.nextId, now)).(limiters := t.limiters[t.nextId := Full(p, now)],
                                        total := t.total + 1, nextId := t.nextId + 1)
  }

  /** The whole of `GetLimiter`. */
  function Get(p: Params, t: Table, ip: string, now: int): Table
    requires |t.shards| == NUM_SHARDS
  {
    if Present(p, t, ip) then Touch(p, t, ip, now) else Insert(p, t, ip, now)
  }

  function Spend(p: Params, t: Table, id: nat, now: int): (Table, bool)
    requires id in t.limiters
  {
    var (b, ok) := Take(p, t.limiters[id], now);
    (t.(limiters := t.limiters[id := b]), ok)
  }

  function Kept(m: map<string, Entry>, cutoff: int): map<string, Entry>
  {
    map ip | ip in m && m[ip].lastAccess >= cutoff :: m[ip]
  }

  function Sweep(t: Table, k: nat, cutoff: int): Table
    requires k < |t.shards|
  {
    t.(shards := t.shards[k := Kept(t.shards[k], cutoff)])
  }

  function SweepFrom(t: Table, k: nat, cutoff: int): (r: Table)
    requires k <= |t.shards|
    ensures |r.shards| == |t.shards| && r == t.(shards := r.shards)
    decreases k
  {
    if k == 0 then t else Sweep(SweepFrom(t, k - 1, cutoff), k - 1, cutoff)
  }

  /** Every entry points to a limiter. */
  ghost predicate Linked(p: Params, t: Table)
  {
    forall a :: Present(p, t, a) ==> EntryOf(p, t, a).limiter in t.limiters
  }

  lemma GetLinked(p: Params, t: Table, ip: string, now: int)
    requires |t.shards| == NUM_SHARDS && Linked(p, t)
    ensures var got := Get(p, t, ip, now);
      |got.shards| == NUM_SHARDS && Linked(p, got) && Present(p, got, ip)
  {
    hide ShardOf;
    var got := Get(p, t, ip, now);
    forall a | Present(p, got, a) ensures EntryOf(p, got, a).limiter in got.limiters {
      assert a != ip ==> Present(p, t, a) && EntryOf(p, got, a) == EntryOf(p, t, a);
    }
  }

  lemma SameShardsLinked(p: Params, t: Table, t': Table)
    requires Linked(p, t) && t'.shards == t.shards && t.limiters.Keys <= t'.limiters.Keys
    ensures Linked(p, t')
  {
    assert forall a :: Present(p, t', a) ==> Present(p, t, a) && EntryOf(p, t', a) == EntryOf(p, t, a);
  }

  lemma {:induction false} SweepLinked(p: Params, t: Table, k: nat, cutoff: int)
    requires k <= |t.shards| == NUM_SHARDS && Linked(p, t)
    ensures Linked(p, SweepFrom(t, k, cutoff))
  {
    hide ShardOf;
    if k > 0 {
      SweepLinked(p, t, k - 1, cutoff);
      var before, after := SweepFrom(t, k - 1, cutoff), SweepFrom(t, k, cutoff);
      forall a | Present(p, after, a) ensures EntryOf(p, after, a).limiter in after.limiters {
        assert Present(p, before, a) && EntryOf(p, after, a) == EntryOf(p, before, a);
      }
    }
  }

  /** The number of entries in the first `k` shards. */
  function Size(shards: seq<map<string, Entry>>, k: nat): nat
    requires k <= |shards|
  {
    if k == 0 then 0 else Size(shards, k - 1) + |shards[k - 1]|
  }

  lemma {:induction false} SizeAfterUpdate(shards: seq<map<string, Entry>>, i: nat, m: map<string, Entry>, k: nat)
    requires i < |shards| && k <= |shards|
    ensures Size(shards[i := m], k) == Size(shards, k) + if i < k then |m| - |shards[i]| else 0
  {
    if k > 0 {
      SizeAfterUpdate(shards, i, m, k - 1);
    }
  }

  /** The loop over one locked shard: every entry is looked at once, in any order. */
  method Purge(shard: map<string, Entry>, cutoff: int) returns (kept: map<string, Entry>, removed: nat)
    ensures kept == Kept(shard, cutoff)
    ensures removed == |shard| - |kept|
  {
    kept, removed := shard, 0;
    var todo := shard.Keys;
    while todo != {}
      invariant todo <= kept.Keys <= shard.Keys
      invariant forall ip :: ip in kept ==> kept[ip] == shard[ip]
      invariant forall ip :: ip in shard && ip !in todo ==> (ip in kept <==> shard[ip].lastAccess >= cutoff)
      invariant removed == |shard| - |kept|
      decreases |todo|
    {
      var ip :| ip in todo;
      todo := todo - {ip};
      if kept[ip].lastAccess < cutoff {
        ghost var before := kept;
        kept := kept - {ip};
        assert before.Keys == kept.Keys + {ip};
        assert |before.Keys| == |before| && |kept.Keys| == |kept|;
        removed := removed + 1;
      }
    }
  }

  class ShardedRateLimiter {
    const params: Params
    const shards: array<map<string, Entry>>
    var limiters: map<nat, Bucket>
    var totalEntries: int
    var nextId: nat

    ghost predicate Valid()
      reads this, shards
    {
      shards.Length == NUM_SHARDS && Linked(params, View())
    }

    ghost function View(): Table
      reads this, shards
    {
      Table(shards[..], limiters, totalEntries, nextId)
    }

    constructor (params: Params)
      ensures Valid() && this.params == params
      ensures View() == Table(seq(NUM_SHARDS, _ => map[]), map[], 0, 0)
    {
      this.params := params;
      this.shards := new map<string, Entry>[NUM_SHARDS](_ => map[]);
      this.limiters := map[];
      this.totalEntries := 0;
      this.nextId := 0;
    }

    method GetLimiter(ip: string, now: int) returns (id: nat)
      requires Valid()
      modifies this`limiters, this`totalEntries, this`nextId, shards
      ensures Valid() && View() == Get(params, old(View()), ip, now)
      ensures Present(params, View(), ip) && id == EntryOf(params, View(), ip).limiter
    {
      hide ShardOf;
      ghost var was := View();
      GetLinked(params, was, ip, now);
      var k := ShardOf(params, ip);
      if ip in shards[k] {
        id := shards[k][ip].limiter;
        shards[k] := shards[k][ip := Entry(id, now)];
      } else {
        id := nextId;
        limiters := limiters[id := Full(params, now)];
        shards[k] := shards[k][ip := Entry(id, now)];
        nextId := nextId + 1;
        totalEntries := totalEntries + 1;
      }
      assert View() == Get(params, was, ip, now);
    }

    method Allow(ip: string, now: int) returns (ok: bool)
      requires Valid()
      modifies this`limiters, this`totalEntries, this`nextId, shards
      ensures Valid()
      ensures var got := Get(params, old(View()), ip, now);
        Present(params, got, ip) && EntryOf(params, got, ip).limiter in got.limiters
        && (View(), ok) == Spend(params, got, EntryOf(params, got, ip).limiter, now)
    {
      hide ShardOf, Take;
      ghost var got := Get(params, View(), ip, now);
      var id := GetLimiter(ip, now);
      var (b, allowed) := Take(params, limiters[id], now);
      limiters := limiters[id := b];
      ok := allowed;
      SameShardsLinked(params, got, View());
    }

    /** Visits every shard and counts what it removes. */
    method SweepShards(cutoff: int) returns (removed: nat)
      requires shards.Length == NUM_SHARDS
      modifies shards
      ensures View() == SweepFrom(old(View()), shards.Length, cutoff)
      ensures removed == Size(old(View()).shards, shards.Length) - Size(View().shards, shards.Length)
    {
      hide Kept, Size;
      ghost var was := View();
      removed := 0;
      for k := 0 to shards.Length
        invariant View() == SweepFrom(was, k, cutoff)
        invariant 0 <= removed == Size(was.shards, shards.Length) - Size(View().shards, shards.Length)
      {
        ghost var before := View();
        var kept, r := Purge(shards[k], cutoff);
        shards[k] := kept;
        SizeAfterUpdate(before.shards, k, shards[k], shards.Length);
        removed := removed + r;
      }
    }

    method Cleanup(now: int)
      requires Valid()
      modifies this`totalEntries, shards
      ensures Valid()
      ensures var swept := SweepFrom(old(View()), shards.Length, now - params.ttl);
        View() == swept.(total := old(totalEntries) - (Size(old(View()).shards, shards.Length) - Size(swept.shards, shards.Length)))
    {
      hide Size, Linked, SweepFrom;
      ghost var was := View();
      var removed := SweepShards(now - params.ttl);
      SweepLinked(params, was, shards.Length, now - params.ttl);
      SameShardsLinked(params, View(), View().(total := totalEntries - removed));
      if removed > 0 {
        totalEntries := totalEntries - removed;
      }
    }
  }
}
