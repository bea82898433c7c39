/** The replay store for token identifiers: a bounded cache over a table, and when the two agree. */
module JtiStore {

  datatype Entry = Entry(jti: string, expires: int)

  /** `cache` lists the cached identifiers, the oldest first. */
  datatype Store = Store(cache: seq<Entry>, rows: map<string, int>)

  const EMPTY := Store([], map[])

  predicate Cached(cache: seq<Entry>, jti: string) {
    exists i :: 0 <= i < |cache| && cache[i].jti == jti
  }

  function Evict(cache: seq<Entry>, capacity: nat): (r: seq<Entry>)
    ensures forall x :: x in r ==> x in cache
  {
    if |cache| <= capacity then cache else cache[|cache| - capacity..]
  }

  /** The answer, true for a replay, and the store afterwards. */
  function Check(s: Store, capacity: nat, jti: string, expires: int): (Store, bool) {
    if jti == "" then (s, false)
    else if Cached(s.cache, jti) then (s, true)
    else
      var cache := Evict(s.cache + [Entry(jti, expires)], capacity);
      if jti in s.rows then (Store(cache, s.rows), true)
      else (Store(cache, s.rows[jti := expires]), false)
  }

  function Kept(cache: seq<Entry>, now: int): (r: seq<Entry>)
    ensures forall x :: x in r <==> x in cache && x.expires >= now
  {
    if cache == [] then []
    else
      var n := |cache| - 1;
      Kept(cache[..n], now) + if cache[n].expires < now then [] else [cache[n]]
  }

  function Cleanup(s: Store, now: int): Store {
    Store(Kept(s.cache, now), map j | j in s.rows && s.rows[j] >= now :: s.rows[j])
  }

  datatype Op =
    | See(jti: string, expires: int)
    | Clean(now: int)
    | Restart

  function Apply(s: Store, capacity: nat, op: Op): (Store, seq<bool>) {
    match op
    case See(jti, expires) => var r := Check(s, capacity, jti, expires); (r.0, [r.1])
    case Clean(now) => (Cleanup(s, now), [])
    case Restart => (s.(cache := []), [])
  }

  /** The store after a run and the answers it gave. */
  function Run(s: Store, capacity: nat, ops: seq<Op>): (Store, seq<bool>) {
    if ops == [] then (s, [])
    else
      var before := Run(s, capacity, ops[..|ops| - 1]);
      var last := Apply(before.0, capacity, ops[|ops| - 1]);
      (last.0, before.1 + last.1)
  }

  // ----- the table alone, the reference -----

  function RowApply(rows: map<string, int>, op: Op): (map<string, int>, seq<bool>) {
    match op
    case See(jti, expires) =>
      if jti == "" then (rows, [false]) else if jti in rows then (rows, [true]) else (rows[jti := expires], [false])
    case Clean(now) => (map j | j in rows && rows[j] >= now :: rows[j], [])
    case Restart => (rows, [])
  }

  function RowRun(rows: map<string, int>, ops: seq<Op>): (map<string, int>, seq<bool>) {
    if ops == [] then (rows, [])
    else
      var before := RowRun(rows, ops[..|ops| - 1]);
      var last := RowApply(before.0, ops[|ops| - 1]);
      (last.0, before.1 + last.1)
  }

  // ----- the store's results -----

  predicate CleansNoLaterThan(ops: seq<Op>, e: int) {
    forall i :: 0 <= i < |ops| ==> ops[i].Clean? ==> ops[i].now <= e
  }

  lemma StepKeepsRow(s: Store, capacity: nat, op: Op, jti: string)
    requires jti in s.rows && (op.Clean? ==> op.now <= s.rows[jti])
    ensures var t := Apply(s, capacity, op).0; jti in t.rows && t.rows[jti] == s.rows[jti]
  {
  }

  lemma {:induction false} RunKeepsRow(s: Store, capacity: nat, ops: seq<Op>, jti: string)
    requires jti in s.rows && CleansNoLaterThan(ops, s.rows[jti])
    ensures var t := Run(s, capacity, ops).0; jti in t.rows && t.rows[jti] == s.rows[jti]
    decreases |ops|
  {
    if ops != [] {
      var n := |ops| - 1;
      RunKeepsRow(s, capacity, ops[..n], jti);
      StepKeepsRow(Run(s, capacity, ops[..n]).0, capacity, ops[n], jti);
    }
  }

  /** Once an identifier is accepted with expiry `e`, every later call reports a replay, whatever the capacity, the
      evictions and the restarts, as long as no cleanup has run after `e`. */
  lemma AcceptedOnceUntilCleanup(s: Store, capacity: nat, jti: string, e: int, ops: seq<Op>)
    requires jti != "" && !Check(s, capacity, jti, e).1
    requires CleansNoLaterThan(ops, e)
    ensures var later := Run(Check(s, capacity, jti, e).0, capacity, ops).0;
            && jti in later.rows && later.rows[jti] == e
            && forall expires :: Check(later, capacity, jti, expires).1
  {
    RunKeepsRow(Check(s, capacity, jti, e).0, capacity, ops, jti);
  }

  /** A cleanup after the expiry forgets the identifier, in both tiers if they agree on the expiry. */
  lemma ForgottenAfterCleanup(s: Store, capacity: nat, jti: string, now: int, expires: int)
    requires jti in s.rows && s.rows[jti] < now
    requires forall i :: 0 <= i < |s.cache| && s.cache[i].jti == jti ==> s.cache[i].expires == s.rows[jti]
    ensures !Check(Cleanup(s, now), capacity, jti, expires).1
  {
    var kept := Kept(s.cache, now);
    forall i | 0 <= i < |kept|
      ensures kept[i].jti != jti
    {
      assert kept[i] in s.cache;
    }
  }

  // ----- exactly when the cache changes nothing -----

  /** What the table alone answers. */
  predicate RowAnswer(rows: map<string, int>, jti: string) {
    jti != "" && jti in rows
  }

  /** Every cached identifier has a row. */
  predicate Backed(s: Store) {
    forall i :: 0 <= i < |s.cache| ==> s.cache[i].jti in s.rows
  }

  /** A cleanup at `now` deletes the identifier's row and leaves it in the cache. */
  predicate Outlives(s: Store, now: int, jti: string) {
    jti in s.rows && s.rows[jti] < now && exists i :: 0 <= i < |s.cache| && s.cache[i] == Entry(jti, s.cache[i].expires)
                                                      && s.cache[i].expires >= now
  }

  /** After a cleanup the answer for an identifier differs from the table's if and only if its cached expiry is not
      over while that of its row is. */
  lemma CleanupDiffersExactlyWhen(s: Store, capacity: nat, now: int, jti: string, expires: int)
    requires Backed(s) && jti != ""
    ensures var t := Cleanup(s, now);
            Check(t, capacity, jti, expires).1 != RowAnswer(t.rows, jti) <==> Outlives(s, now, jti)
  {
    var kept := Kept(s.cache, now);
    if Cached(kept, jti) {
      var i :| 0 <= i < |kept| && kept[i].jti == jti;
      assert kept[i] in s.cache;
    }
    if Outlives(s, now, jti) {
      var i :| 0 <= i < |s.cache| && s.cache[i] == Entry(jti, s.cache[i].expires) && s.cache[i].expires >= now;
      assert s.cache[i] in kept;
    }
  }

  /** No cleanup of the run meets that condition, for any identifier. */
  ghost predicate NoneOutlives(capacity: nat, ops: seq<Op>) {
    forall i, jti :: 0 <= i < |ops| && ops[i].Clean? ==> !Outlives(Run(EMPTY, capacity, ops[..i]).0, ops[i].now, jti)
  }

  lemma SeeKeepsBacked(s: Store, capacity: nat, jti: string, expires: int)
    requires Backed(s)
    ensures Backed(Check(s, capacity, jti, expires).0)
    ensures var t := Check(s, capacity, jti, expires);
            (t.0.rows, [t.1]) == RowApply(s.rows, See(jti, expires))
  {
    var t := Check(s, capacity, jti, expires).0;
    forall i | 0 <= i < |t.cache|
      ensures t.cache[i].jti in t.rows
    {
      assert t.cache[i] in s.cache + [Entry(jti, expires)];
    }
  }

  lemma CleanupKeepsBacked(s: Store, now: int)
    requires Backed(s) && forall jti :: !Outlives(s, now, jti)
    ensures Backed(Cleanup(s, now))
  {
    var t := Cleanup(s, now);
    forall i | 0 <= i < |t.cache|
      ensures t.cache[i].jti in t.rows
    {
      assert t.cache[i] in Kept(s.cache, now) && t.cache[i] in s.cache;
      assert !Outlives(s, now, t.cache[i].jti);
    }
  }

  /** Then the cache changes nothing: for every capacity, every history of evictions, restarts and changing expiries,
      answers and rows are those of the table alone. */
  lemma {:induction false} CacheIsTransparent(capacity: nat, ops: seq<Op>)
    requires NoneOutlives(capacity, ops)
    ensures Backed(Run(EMPTY, capacity, ops).0)
    ensures Run(EMPTY, capacity, ops).0.rows == RowRun(map[], ops).0
    ensures Run(EMPTY, capacity, ops).1 == RowRun(map[], ops).1
    decreases |ops|
  {
    if ops != [] {
      var n := |ops| - 1;
      NoneOutlivesBefore(capacity, ops, n);
      CacheIsTransparent(capacity, ops[..n]);
      var s := Run(EMPTY, capacity, ops[..n]).0;
      match ops[n]
      case See(jti, expires) => SeeKeepsBacked(s, capacity, jti, expires);
      case Clean(now) => CleanupKeepsBacked(s, now);
      case Restart =>
    }
  }

  lemma NoneOutlivesBefore(capacity: nat, ops: seq<Op>, n: nat)
    requires NoneOutlives(capacity, ops) && n <= |ops|
    ensures NoneOutlives(capacity, ops[..n])
  {
    forall i, jti | 0 <= i < n && ops[i].Clean?
      ensures !Outlives(Run(EMPTY, capacity, ops[..n][..i]).0, ops[..n][i].now, jti)
    {
      assert ops[..n][..i] == ops[..i];
    }
  }

  /** Whatever is asked next, store and table alone answer alike. */
  ghost predicate Agree(capacity: nat, ops: seq<Op>) {
    forall jti, expires :: Check(Run(EMPTY, capacity, ops).0, capacity, jti, expires).1
                           == RowAnswer(RowRun(map[], ops).0, jti)
  }

  lemma BackedAgrees(capacity: nat, ops: seq<Op>)
    requires NoneOutlives(capacity, ops)
    ensures Agree(capacity, ops)
  {
    CacheIsTransparent(capacity, ops);
    var s := Run(EMPTY, capacity, ops).0;
    BlankIsNeverStored(capacity, ops);
    forall jti, expires
      ensures Check(s, capacity, jti, expires).1 == RowAnswer(s.rows, jti)
    {
    }
  }

  lemma RunOneMore(capacity: nat, ops: seq<Op>, op: Op)
    ensures Run(EMPTY, capacity, ops + [op]).0 == Apply(Run(EMPTY, capacity, ops).0, capacity, op).0
    ensures RowRun(map[], ops + [op]).0 == RowApply(RowRun(map[], ops).0, op).0
  {
    assert (ops + [op])[..|ops|] == ops;
  }

  lemma OutlivingDisagrees(capacity: nat, ops: seq<Op>, now: int, jti: string)
    requires NoneOutlives(capacity, ops) && jti != "" && Outlives(Run(EMPTY, capacity, ops).0, now, jti)
    ensures !Agree(capacity, ops + [Clean(now)])
  {
    CacheIsTransparent(capacity, ops);
    RunOneMore(capacity, ops, Clean(now));
    CleanupDiffersExactlyWhen(Run(EMPTY, capacity, ops).0, capacity, now, jti, 0);
  }

  lemma {:induction false} BlankIsNeverStored(capacity: nat, ops: seq<Op>)
    ensures "" !in Run(EMPTY, capacity, ops).0.rows
    decreases |ops|
  {
    if ops != [] {
      BlankIsNeverStored(capacity, ops[..|ops| - 1]);
    }
  }

  /** Store and table alone answer alike throughout a run if and only if none of its cleanups meets the condition. */
  lemma {:induction false} TransparentExactlyWhen(capacity: nat, ops: seq<Op>)
    ensures (forall n :: 0 <= n <= |ops| ==> Agree(capacity, ops[..n])) <==> NoneOutlives(capacity, ops)
  {
    if NoneOutlives(capacity, ops) {
      forall n | 0 <= n <= |ops|
        ensures Agree(capacity, ops[..n])
      {
        NoneOutlivesBefore(capacity, ops, n);
        BackedAgrees(capacity, ops[..n]);
      }
    } else {
      var n := FirstOutliving(capacity, ops);
      assert !Agree(capacity, ops[..n]);
    }
  }

  lemma {:induction false} FirstOutliving(capacity: nat, ops: seq<Op>) returns (n: nat)
    requires !NoneOutlives(capacity, ops)
    ensures n <= |ops| && !Agree(capacity, ops[..n])
    decreases |ops|
  {
    var i, jti :| 0 <= i < |ops| && ops[i].Clean? && Outlives(Run(EMPTY, capacity, ops[..i]).0, ops[i].now, jti);
    if NoneOutlives(capacity, ops[..i]) {
      OutlivingIsStored(capacity, ops[..i], ops[i].now, jti);
      OutlivingDisagrees(capacity, ops[..i], ops[i].now, jti);
      n := i + 1;
      assert ops[..n] == ops[..i] + [Clean(ops[i].now)];
    } else {
      n := FirstOutliving(capacity, ops[..i]);
      assert ops[..i][..n] == ops[..n];
    }
  }

  lemma OutlivingIsStored(capacity: nat, ops: seq<Op>, now: int, jti: string)
    requires Outlives(Run(EMPTY, capacity, ops).0, now, jti)
    ensures jti != ""
  {
    BlankIsNeverStored(capacity, ops);
  }

  /** Each identifier always carries the same expiry. */
  predicate Consistent(ops: seq<Op>, expiry: string -> int) {
    forall i :: 0 <= i < |ops| ==> ops[i].See? ==> ops[i].expires == expiry(ops[i].jti)
  }

  predicate Mirrors(s: Store, expiry: string -> int) {
    && (forall i :: 0 <= i < |s.cache| ==> s.cache[i].expires == expiry(s.cache[i].jti))
    && (forall j :: j in s.rows ==> s.rows[j] == expiry(j))
  }

  lemma {:induction false} RunMirrors(capacity: nat, ops: seq<Op>, expiry: string -> int)
    requires Consistent(ops, expiry)
    ensures Mirrors(Run(EMPTY, capacity, ops).0, expiry)
    decreases |ops|
  {
    if ops != [] {
      var n := |ops| - 1;
      RunMirrors(capacity, ops[..n], expiry);
      var s, t := Run(EMPTY, capacity, ops[..n]).0, Run(EMPTY, capacity, ops).0;
      forall i | 0 <= i < |t.cache|
        ensures t.cache[i].expires == expiry(t.cache[i].jti)
      {
        assert t.cache[i] in s.cache || (ops[n].See? && t.cache[i] == Entry(ops[n].jti, ops[n].expires));
      }
    }
  }

  /** That is the case when identifiers keep their expiry. */
  lemma {:induction false} ConstantExpiriesNeverOutlive(capacity: nat, ops: seq<Op>, expiry: string -> int)
    requires Consistent(ops, expiry)
    ensures NoneOutlives(capacity, ops)
  {
    forall i, jti | 0 <= i < |ops| && ops[i].Clean?
      ensures !Outlives(Run(EMPTY, capacity, ops[..i]).0, ops[i].now, jti)
    {
      RunMirrors(capacity, ops[..i], expiry);
    }
  }

  /** The condition can be met, whatever the capacity: seen again after a restart with a later expiry, an identifier
      stays in the cache when its row is cleaned up, and the store refuses what the table alone accepts. */
  lemma CacheCanOutliveItsRow(capacity: nat, expires: int) returns (ops: seq<Op>)
    requires capacity >= 1
    ensures Check(Run(EMPTY, capacity, ops).0, capacity, "a", expires).1 && !RowAnswer(RowRun(map[], ops).0, "a")
  {
    var ops0: seq<Op> := [];
    var ops1 := ops0 + [See("a", 5)];
    var ops2 := ops1 + [Restart];
    var ops3 := ops2 + [See("a", 100)];
    ops := ops3 + [Clean(10)];
    RunOneMore(capacity, ops0, See("a", 5));
    RunOneMore(capacity, ops1, Restart);
    RunOneMore(capacity, ops2, See("a", 100));
    RunOneMore(capacity, ops3, Clean(10));
    FirstSeen(EMPTY, capacity, 5);
    SeenAgain(capacity);
    CachedWithoutRow(capacity, expires);
  }

  lemma FirstSeen(s: Store, capacity: nat, expires: int)
    requires capacity >= 1 && s.cache == []
    ensures Check(s, capacity, "a", expires).0
            == Store([Entry("a", expires)], if "a" in s.rows then s.rows else s.rows["a" := expires])
  {
    assert s.cache + [Entry("a", expires)] == [Entry("a", expires)];
  }

  lemma SeenAgain(capacity: nat)
    requires capacity >= 1
    ensures Check(Store([], map["a" := 5]), capacity, "a", 100).0 == Store([Entry("a", 100)], map["a" := 5])
  {
    FirstSeen(Store([], map["a" := 5]), capacity, 100);
  }

  lemma CachedWithoutRow(capacity: nat, expires: int)
    ensures
      var t := Cleanup(Store([Entry("a", 100)], map["a" := 5]), 10);
      "a" !in t.rows && Check(t, capacity, "a", expires).1
  {
    assert Entry("a", 100) in Kept([Entry("a", 100)], 10);
  }

  // ----- the store, step by step -----

  class ReplayStore {
    const capacity: nat
    var cache: seq<Entry>
    var rows: map<string, int>

    constructor (capacity: nat)
      ensures this.capacity == capacity && View() == EMPTY
    {
      this.capacity := capacity;
      cache, rows := [], map[];
    }

    function View(): Store
      reads this
    {
      Store(cache, rows)
    }

    /** Reports a cached identifier; otherwise caches it, evicting the oldest. */
    method Seen(jti: string, expires: int) returns (seen: bool)
      modifies this`cache
      ensures seen <==> Cached(old(cache), jti)
      ensures cache == if seen then old(cache) else Evict(old(cache) + [Entry(jti, expires)], capacity)
    {
      for i := 0 to |cache|
        invariant forall j :: 0 <= j < i ==> cache[j].jti != jti
      {
        if cache[i].jti == jti {
          return true;
        }
      }
      cache := cache + [Entry(jti, expires)];
      ghost var all := cache;
      while |cache| > capacity
        invariant |cache| <= |all| && cache == all[|all| - |cache|..]
        invariant |all| <= capacity ==> cache == all
        invariant |all| > capacity ==> |cache| >= capacity
      {
        cache := cache[1..];
      }
      return false;
    }

    method CheckAndRecord(jti: string, expires: int) returns (replay: bool)
      modifies this
      ensures (View(), replay) == Check(old(View()), capacity, jti, expires)
    {
      if jti == "" {
        return false;
      }
      var seen := Seen(jti, expires);
      if seen {
        return true;
      }
      if jti in rows {
        return true;
      }
      rows := rows[jti := expires];
      return false;
    }

    method CleanupExpired(now: int) returns (deleted: nat)
      modifies this
      ensures View() == Cleanup(old(View()), now)
      ensures deleted == |old(rows)| - |rows|
    {
      var stale := set j | j in rows && rows[j] < now;
      deleted := |stale|;
      ghost var rows0 := rows;
      rows := rows - stale;
      assert rows == map j | j in rows0 && rows0[j] >= now :: rows0[j];
      assert rows0.Keys == rows.Keys + stale;
      var kept := [];
      for i := 0 to |cache|
        invariant kept == Kept(cache[..i], now)
      {
        assert cache[..i + 1][..i] == cache[..i];
        if cache[i].expires >= now {
          kept := kept + [cache[i]];
        }
      }
      assert cache[..|cache|] == cache;
      cache := kept;
    }
  }
}
