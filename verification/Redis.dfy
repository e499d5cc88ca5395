/** The few Redis commands the service relies on, each one atomic, over keys of any type.
    A key whose time to live has run out counts as absent. */
module Redis {
  import opened Wrappers

  datatype Cell = Cell(value: int, expiresAt: Option<int>)

  predicate Live<K>(db: map<K, Cell>, k: K, now: int) {
    k in db && (db[k].expiresAt.None? || now < db[k].expiresAt.value)
  }

  function Get<K>(db: map<K, Cell>, k: K, now: int): int {
    if Live(db, k, now) then db[k].value else 0
  }

  /** INCR and DECR: the time to live of a live key stays, a new key has none. */
  function Add<K>(db: map<K, Cell>, k: K, delta: int, now: int): map<K, Cell> {
    db[k := Cell(Get(db, k, now) + delta, if Live(db, k, now) then db[k].expiresAt else None)]
  }

  /** PEXPIRE: no effect on an absent key. */
  function PExpire<K>(db: map<K, Cell>, k: K, ms: int, now: int): map<K, Cell> {
    if Live(db, k, now) then db[k := db[k].(expiresAt := Some(now + ms))] else db
  }

  /** A counter reads what was added to it since it was last absent, and keeps its time to live. */
  lemma AddReads<K>(db: map<K, Cell>, k: K, delta: int, now: int, j: K, later: int)
    requires now <= later
    ensures var t := Add(db, k, delta, now);
            && Get(t, k, now) == Get(db, k, now) + delta
            && (j != k ==> Get(t, j, later) == Get(db, j, later))
            && (k in t && t[k].expiresAt == if Live(db, k, now) then db[k].expiresAt else None)
  {
  }

  /** A key that is there reads the same until its new time to live is over, and nothing from then on. */
  lemma ExpiresThen<K>(db: map<K, Cell>, k: K, ms: int, now: int, j: K, later: int)
    requires now <= later && Live(db, k, now)
    ensures var t := PExpire(db, k, ms, now);
            && Get(t, k, later) == (if later < now + ms then Get(db, k, now) else 0)
            && (j != k ==> Get(t, j, later) == Get(db, j, later))
  {
  }

  /** PEXPIRE of an absent key does nothing. */
  lemma NothingToExpire<K>(db: map<K, Cell>, k: K, ms: int, now: int)
    requires !Live(db, k, now)
    ensures PExpire(db, k, ms, now) == db
  {
  }

  /** SET NX PX, when it succeeds. */
  function SetNx<K>(db: map<K, Cell>, k: K, ttlMs: int, now: int): map<K, Cell>
    requires !Live(db, k, now)
  {
    db[k := Cell(1, Some(now + ttlMs))]
  }

  /** The key is taken from now until its time to live is over, and no other key is touched. */
  lemma TakenFor<K>(db: map<K, Cell>, k: K, ttlMs: int, now: int, j: K, later: int)
    requires now <= later && !Live(db, k, now)
    ensures var t := SetNx(db, k, ttlMs, now);
            (Live(t, k, later) <==> later < now + ttlMs) && (j != k ==> (Live(t, j, later) <==> Live(db, j, later)))
  {
  }
}
