/** The texts under which once-keys and media are kept: distinct jobs and distinct media never
    share one, because transaction ids contain no colon. */
module KeyNames {
  import opened Pipeline
  import Quota
  import RateLimit

  /** How transaction ids are written: each in its own way, and without a colon. */
  ghost predicate Ids(id: TxId -> string) {
    (forall x, y :: id(x) == id(y) ==> x == y) && forall x :: NoColon(id(x))
  }

  predicate NoColon(s: string) {
    forall i | 0 <= i < |s| :: s[i] != ':'
  }

  function OnceKey(id: TxId -> string, job: Job): string {
    "once:" + (if job.phase.DocumentPhase? then "doc:" + id(job.tx) else id(job.tx))
  }

  function RefName(id: TxId -> string, ref: Ref): string {
    match ref
    case FrameRef(tx) => id(tx)
    case DocumentRef(tx) => id(tx) + ":doc"
    case SelfieRef(tx) => id(tx) + ":self"
  }

  /** Two texts with the same number of colon-free characters before the first colon. */
  lemma SameHead(x: string, y: string, s: string, t: string)
    requires NoColon(x) && NoColon(y) && x + ":" + s == y + ":" + t
    ensures x == y && s == t
  {
    var a, b := x + ":" + s, y + ":" + t;
    assert a[|x|] == ':' && b[|y|] == ':';
    assert forall i | 0 <= i < |x| :: a[i] == x[i] && a[i] != ':';
    assert forall i | 0 <= i < |y| :: b[i] == y[i] && b[i] != ':';
    assert |x| == |y|;
    assert x == a[..|x|] && y == b[..|y|] && s == a[|x| + 1..] && t == b[|y| + 1..];
  }

  lemma HasColon(x: string, s: string)
    ensures !NoColon(x + ":" + s)
  {
    assert (x + ":" + s)[|x|] == ':';
  }

  lemma OnceKeysDistinct(id: TxId -> string, j: Job, k: Job)
    requires Ids(id)
    ensures OnceKey(id, j) == OnceKey(id, k) <==> j == k
    ensures OnceKey(id, Job(j.tx, FacePhase)) == "once:" + id(j.tx)
    ensures OnceKey(id, Job(j.tx, DocumentPhase)) == "once:doc:" + id(j.tx)
  {
    var x, y := OnceKey(id, j)[5..], OnceKey(id, k)[5..];
    if OnceKey(id, j) == OnceKey(id, k) {
      assert x == y;
      assert "doc:" + id(j.tx) == "doc" + ":" + id(j.tx) && "doc:" + id(k.tx) == "doc" + ":" + id(k.tx);
      HasColon("doc", id(j.tx));
      HasColon("doc", id(k.tx));
      assert x == if j.phase.DocumentPhase? then "doc:" + id(j.tx) else id(j.tx);
      assert y == if k.phase.DocumentPhase? then "doc:" + id(k.tx) else id(k.tx);
      assert NoColon(id(j.tx)) && NoColon(id(k.tx));
      if j.phase.DocumentPhase? && k.phase.DocumentPhase? { SameHead("doc", "doc", id(j.tx), id(k.tx)); }
    }
  }

  lemma RefNamesDistinct(id: TxId -> string, p: Ref, q: Ref)
    requires Ids(id)
    ensures RefName(id, p) == RefName(id, q) <==> p == q
  {
    var x, y := id(p.tx), id(q.tx);
    assert NoColon(x) && NoColon(y);
    HasColon(x, "doc"); HasColon(x, "self"); HasColon(y, "doc"); HasColon(y, "self");
    assert x + ":doc" == x + ":" + "doc" && x + ":self" == x + ":" + "self";
    assert y + ":doc" == y + ":" + "doc" && y + ":self" == y + ":" + "self";
    if RefName(id, p) == RefName(id, q) && !p.FrameRef? && !q.FrameRef? {
      SameHead(x, y, if p.DocumentRef? then "doc" else "self", if q.DocumentRef? then "doc" else "self");
      assert |"doc"| != |"self"|;
    }
  }

  // ----- the other keys of the same Redis -----

  /** The month as two digits, counted from 1. */
  function TwoDigits(month: int): string
    requires 0 <= month < 12
  {
    if month < 9 then ['0', ('1' as int + month) as char] else ['1', ('0' as int + month - 9) as char]
  }

  function UsageKey(id: TenantId -> string, year: int -> string, k: Quota.Key): string
    requires 0 <= k.month.month < 12
  {
    "usage:" + id(k.tenant) + ":" + year(k.month.year) + "-" + TwoDigits(k.month.month)
  }

  /** Minutes are written as YYYY-MM-DDTHH:MM; the identity is a hash in hexadecimal. */
  function RateKey(hash: RateLimit.Identity -> string, minute: int -> string, k: RateLimit.Key): string {
    "rl:" + hash(k.who) + ":" + minute(k.minute)
  }

  ghost predicate Injective(text: int -> string) {
    forall x, y :: text(x) == text(y) ==> x == y
  }

  lemma MonthsDiffer(m: int, n: int)
    requires 0 <= m < 12 && 0 <= n < 12
    ensures |TwoDigits(m)| == 2 && (TwoDigits(m) == TwoDigits(n) <==> m == n)
    ensures TwoDigits(0) == "01" && TwoDigits(8) == "09" && TwoDigits(9) == "10" && TwoDigits(11) == "12"
  {
  }

  /** Two counters have the same key exactly when they are of the same tenant and month. */
  lemma UsageKeysDistinct(id: TenantId -> string, year: int -> string, j: Quota.Key, k: Quota.Key)
    requires Ids(id) && Injective(year) && 0 <= j.month.month < 12 && 0 <= k.month.month < 12
    ensures UsageKey(id, year, j) == UsageKey(id, year, k) <==> j == k
  {
    MonthsDiffer(j.month.month, k.month.month);
    hide TwoDigits;
    if UsageKey(id, year, j) == UsageKey(id, year, k) {
      var s, t := TwoDigits(j.month.month), TwoDigits(k.month.month);
      var x, y := year(j.month.year) + "-" + s, year(k.month.year) + "-" + t;
      assert UsageKey(id, year, j)[6..] == id(j.tenant) + ":" + x;
      assert UsageKey(id, year, k)[6..] == id(k.tenant) + ":" + y;
      assert NoColon(id(j.tenant)) && NoColon(id(k.tenant));
      SameHead(id(j.tenant), id(k.tenant), x, y);
      assert s == x[|x| - 2..] && t == y[|y| - 2..];
      assert year(j.month.year) == x[..|x| - 3] && year(k.month.year) == y[..|y| - 3];
    }
  }

  lemma RateKeysDistinct(hash: RateLimit.Identity -> string, minute: int -> string, j: RateLimit.Key, k: RateLimit.Key)
    requires Ids(hash) && Injective(minute)
    ensures RateKey(hash, minute, j) == RateKey(hash, minute, k) <==> j == k
  {
    if RateKey(hash, minute, j) == RateKey(hash, minute, k) {
      assert RateKey(hash, minute, j)[3..] == hash(j.who) + ":" + minute(j.minute);
      assert RateKey(hash, minute, k)[3..] == hash(k.who) + ":" + minute(k.minute);
      assert NoColon(hash(j.who)) && NoColon(hash(k.who));
      SameHead(hash(j.who), hash(k.who), minute(j.minute), minute(k.minute));
    }
  }

  /** A once-key, a usage counter and a rate counter are never the same key. */
  lemma KindsApart(id: TxId -> string, tenant: TenantId -> string, year: int -> string,
      hash: RateLimit.Identity -> string,
                   minute: int -> string, job: Job, u: Quota.Key, r: RateLimit.Key)
    requires 0 <= u.month.month < 12
    ensures OnceKey(id, job) != UsageKey(tenant, year, u) && UsageKey(tenant, year, u) != RateKey(hash, minute, r)
    ensures RateKey(hash, minute, r) != OnceKey(id, job)
  {
    assert OnceKey(id, job)[0] == 'o' && UsageKey(tenant, year, u)[0] == 'u' && RateKey(hash, minute, r)[0] == 'r';
  }
}
