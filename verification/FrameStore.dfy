/** The in-memory store of encrypted media: entries expire, and are evicted only when read. */
module FrameStore {
  import opened Wrappers

  datatype Entry<+D> = Entry(data: D, expiresAtMs: int)

  function Put<K, D>(m: map<K, Entry<D>>, k: K, d: D, ttlSeconds: int, now: int): map<K, Entry<D>> {
    m[k := Entry(d, now + ttlSeconds * 1000)]
  }

  function Lookup<K, D>(m: map<K, Entry<D>>, k: K, now: int): Option<D> {
    if k in m && now < m[k].expiresAtMs then Some(m[k].data) else None
  }

  /** What is left in the map after a get: an expired entry is evicted. */
  function AfterGet<K, D>(m: map<K, Entry<D>>, k: K, now: int): map<K, Entry<D>> {
    if k in m && now >= m[k].expiresAtMs then m - {k} else m
  }

  class MemoryFrameStore<K(==), D> {
    var entries: map<K, Entry<D>>

    constructor ()
      ensures entries == map[]
    {
      entries := map[];
    }

    /** From now on the key yields d, until its time to live has run out; no other key is touched. */
    method PutFrame(k: K, d: D, ttlSeconds: int, now: int)
      modifies this
      ensures Purge(entries, now) == EagerStep(old(entries), Timed(PutOp(k, d, ttlSeconds), now))
      ensures forall later :: Lookup(entries, k, later) == if later < now + ttlSeconds * 1000 then Some(d) else None
      ensures forall j, later | j != k :: Lookup(entries, j, later) == Lookup(old(entries), j, later)
    {
      SameStep(entries, entries, Timed(PutOp(k, d, ttlSeconds), now));
      entries := entries[k := Entry(d, now + ttlSeconds * 1000)];
    }

    /** Answers as the eager map would; what it evicts, nobody could have read from then on. */
    method GetFrame(k: K, now: int) returns (r: Option<D>)
      modifies this
      ensures r == EagerAnswer(old(entries), Timed(GetOp(k), now)) == Lookup(old(entries), k, now)
      ensures Purge(entries, now) == EagerStep(old(entries), Timed(GetOp(k), now))
      ensures entries == AfterGet(old(entries), k, now) && (k in entries ==> r.Some?)
      ensures forall j, later | now <= later :: Lookup(entries, j, later) == Lookup(old(entries), j, later)
    {
      SameStep(entries, entries, Timed(GetOp(k), now));
      if k !in entries {
        return None;
      }
      var e := entries[k];
      if now >= e.expiresAtMs {
        entries := entries - {k};
        return None;
      }
      return Some(e.data);
    }

    /** Gone at every instant; no other key is touched. */
    method DeleteFrame(k: K)
      modifies this
      ensures forall now :: Purge(entries, now) == EagerStep(old(entries), Timed(DeleteOp(k), now))
      ensures k !in entries && forall later :: Lookup(entries, k, later) == None
      ensures forall j, later | j != k :: Lookup(entries, j, later) == Lookup(old(entries), j, later)
    {
      ghost var was := entries;
      entries := entries - {k};
      forall now ensures Purge(entries, now) == EagerStep(was, Timed(DeleteOp(k), now)) {
        SameStep(was, was, Timed(DeleteOp(k), now));
      }
    }
  }

  // ----- the reference: a map in which nothing expired is ever present -----

  datatype Op<+K, +D> = PutOp(k: K, d: D, ttlSeconds: int) | GetOp(k: K) | DeleteOp(k: K)

  datatype Timed<+K, +D> = Timed(op: Op<K, D>, at: int)

  function Purge<K, D>(m: map<K, Entry<D>>, now: int): map<K, Entry<D>> {
    map k | k in m && now < m[k].expiresAtMs :: m[k]
  }

  function Step<K, D>(m: map<K, Entry<D>>, o: Timed<K, D>): map<K, Entry<D>> {
    match o.op
    case PutOp(k, d, ttl) => Put(m, k, d, ttl, o.at)
    case GetOp(k) => AfterGet(m, k, o.at)
    case DeleteOp(k) => m - {k}
  }

  /** The eager store drops everything expired before and after each operation, so its
      get needs no clock. */
  function EagerStep<K, D>(m: map<K, Entry<D>>, o: Timed<K, D>): map<K, Entry<D>> {
    var live := Purge(m, o.at);
    match o.op
    case PutOp(k, d, ttl) => if ttl > 0 then live[k := Entry(d, o.at + ttl * 1000)] else live - {k}
    case GetOp(_) => live
    case DeleteOp(k) => live - {k}
  }

  function Answer<K, D>(m: map<K, Entry<D>>, o: Timed<K, D>): Option<D> {
    if o.op.GetOp? then Lookup(m, o.op.k, o.at) else None
  }

  function EagerAnswer<K, D>(m: map<K, Entry<D>>, o: Timed<K, D>): Option<D> {
    var live := Purge(m, o.at);
    if o.op.GetOp? && o.op.k in live then Some(live[o.op.k].data) else None
  }

  function Answers<K, D>(m: map<K, Entry<D>>, ops: seq<Timed<K, D>>): seq<Option<D>>
    decreases |ops|
  {
    if ops == [] then [] else [Answer(m, ops[0])] + Answers(Step(m, ops[0]), ops[1..])
  }

  function EagerAnswers<K, D>(m: map<K, Entry<D>>, ops: seq<Timed<K, D>>): seq<Option<D>>
    decreases |ops|
  {
    if ops == [] then [] else [EagerAnswer(m, ops[0])] + EagerAnswers(EagerStep(m, ops[0]), ops[1..])
  }

  predicate Monotone<K, D>(ops: seq<Timed<K, D>>, from: int) {
    ops == [] || (from <= ops[0].at && Monotone(ops[1..], ops[0].at))
  }

  /** Evicting late is invisible: over any run with a monotone clock every get answers as the
      eagerly expiring map would. */
  lemma {:induction false} LazyRefinesEager<K, D>(lazy: map<K, Entry<D>>, eager: map<K, Entry<D>>,
                                                  ops: seq<Timed<K, D>>, from: int)
    requires Purge(lazy, from) == Purge(eager, from) && Monotone(ops, from)
    ensures Answers(lazy, ops) == EagerAnswers(eager, ops)
    decreases |ops|
  {
    if ops != [] {
      var o := ops[0];
      PurgeLater(lazy, eager, from, o.at);
      var l, e := Purge(lazy, o.at), Purge(eager, o.at);
      assert l == e;
      SameAnswer(lazy, eager, o);
      SameStep(lazy, eager, o);
      LazyRefinesEager(Step(lazy, o), EagerStep(eager, o), ops[1..], o.at);
    }
  }

  lemma PurgeLater<K, D>(a: map<K, Entry<D>>, b: map<K, Entry<D>>, from: int, later: int)
    requires Purge(a, from) == Purge(b, from) && from <= later
    ensures Purge(a, later) == Purge(b, later)
  {
    forall k ensures (k in Purge(a, later)) == (k in Purge(b, later))
      ensures k in Purge(a, later) ==> a[k] == b[k]
    {
      assert k in Purge(a, from) <==> k in Purge(b, from);
      if k in Purge(a, later) { assert Purge(a, from)[k] == Purge(b, from)[k]; }
    }
  }

  lemma SameAnswer<K, D>(a: map<K, Entry<D>>, b: map<K, Entry<D>>, o: Timed<K, D>)
    requires Purge(a, o.at) == Purge(b, o.at)
    ensures Answer(a, o) == EagerAnswer(b, o)
  {
  }

  lemma SameStep<K, D>(a: map<K, Entry<D>>, b: map<K, Entry<D>>, o: Timed<K, D>)
    requires Purge(a, o.at) == Purge(b, o.at)
    ensures Purge(Step(a, o), o.at) == EagerStep(b, o) == Purge(EagerStep(b, o), o.at)
  {
  }
}
