/** The replica store behind `ReadRepository`: the live table `promotions`, the
    shadow table `promotions_temp`, and the Redis cache in front of the live table. */
module ReadRepo {
  import opened Errors
  import opened Models

  /** What the cache holds under a key: JSON that decodes to a promotion, or text that
      fails to decode. */
  datatype CacheEntry = Decodable(p: Promotion) | Garbage

  /** A snapshot of the replica-side state. */
  datatype Replica = Replica(live: seq<Promotion>, temp: seq<Promotion>, cache: map<string, CacheEntry>)

  /** Outcomes of the three database calls of `BulkInsertPromotions`. */
  datatype BulkFaults = BulkFaults(begin: Status, exec: Status, commit: Status)

  /** Outcomes of the external calls of `GetPromotion`: a Redis error other than
      "key missing", the row query's error other than "no rows", and the cache write. */
  datatype GetFaults = GetFaults(cacheGet: Status, query: Status, cacheSet: Status)

  // ---------------------------------------------------------------------------
  // The bulk INSERT statement

  /** A bound argument of the INSERT statement. */
  datatype SqlArg = TextArg(s: string) | FloatArg(r: real) | TimeArg(t: Instant)

  /** One `($a, $b, $c)` group of the VALUES list; the numbers are 1-based argument positions. */
  datatype Placeholders = Placeholders(a: nat, b: nat, c: nat)

  /** The row the database builds from one VALUES group, if its positions are bound
      to arguments of the column types. */
  function BindRow(t: Placeholders, args: seq<SqlArg>): Option<Promotion>
  {
    if 1 <= t.a <= |args| && 1 <= t.b <= |args| && 1 <= t.c <= |args|
       && args[t.a - 1].TextArg? && args[t.b - 1].FloatArg? && args[t.c - 1].TimeArg?
    then Some(Promotion(args[t.a - 1].s, args[t.b - 1].r, args[t.c - 1].t))
    else None
  }

  /** The rows an `INSERT ... VALUES g0, g1, ...` with arguments `args` inserts, in order. */
  function Bind(groups: seq<Placeholders>, args: seq<SqlArg>): Option<seq<Promotion>>
  {
    if groups == [] then Some([])
    else match (BindRow(groups[0], args), Bind(groups[1..], args))
      case (Some(p), Some(ps)) => Some([p] + ps)
      case _ => None
  }

  /** The shape `BulkInsertPromotions` gives its statement: group `i` is
      `($3i+1, $3i+2, $3i+3)` and those arguments hold promotion `i`'s fields. */
  ghost predicate NumberedFor(ps: seq<Promotion>, groups: seq<Placeholders>, args: seq<SqlArg>)
  {
    && |groups| == |ps| && |args| == 3 * |ps|
    && (forall i :: 0 <= i < |groups| ==> groups[i] == Placeholders(3 * i + 1, 3 * i + 2, 3 * i + 3))
    && (forall i :: 0 <= i < |ps| ==>
          args[3 * i] == TextArg(ps[i].id) &&
          args[3 * i + 1] == FloatArg(ps[i].price) &&
          args[3 * i + 2] == TimeArg(ps[i].expirationDate))
  }

  lemma {:induction false} BindSuffix(ps: seq<Promotion>, groups: seq<Placeholders>, args: seq<SqlArg>, k: nat)
    requires NumberedFor(ps, groups, args) && k <= |groups|
    ensures Bind(groups[k..], args) == Some(ps[k..])
    decreases |groups| - k
  {
    if k < |groups| {
      BindSuffix(ps, groups, args, k + 1);
      assert groups[k..][1..] == groups[k + 1..];
      assert BindRow(groups[k], args) == Some(ps[k]);
      assert ps[k..] == [ps[k]] + ps[k + 1..];
    }
  }

  /** The numbering used by `BulkInsertPromotions` binds exactly the given promotions,
      each once and in order. */
  lemma BindNumbered(ps: seq<Promotion>, groups: seq<Placeholders>, args: seq<SqlArg>)
    requires NumberedFor(ps, groups, args)
    ensures Bind(groups, args) == Some(ps)
  {
    BindSuffix(ps, groups, args, 0);
    assert groups[0..] == groups && ps[0..] == ps;
  }

  /** The loop of `BulkInsertPromotions` that builds the VALUES groups and the argument list. */
  method BuildInsert(ps: seq<Promotion>) returns (groups: seq<Placeholders>, args: seq<SqlArg>)
    ensures Bind(groups, args) == Some(ps)
    ensures |groups| == |ps| && |args| == 3 * |ps|
    ensures forall i :: 0 <= i < |groups| ==> groups[i] == Placeholders(3 * i + 1, 3 * i + 2, 3 * i + 3)
  {
    groups, args := [], [];
    var i := 0;
    while i < |ps|
      invariant 0 <= i <= |ps|
      invariant NumberedFor(ps[..i], groups, args)
    {
      groups := groups + [Placeholders(i * 3 + 1, i * 3 + 2, i * 3 + 3)];
      args := args + [TextArg(ps[i].id), FloatArg(ps[i].price), TimeArg(ps[i].expirationDate)];
      i := i + 1;
    }
    assert ps[..i] == ps;
    BindNumbered(ps, groups, args);
  }

  // ---------------------------------------------------------------------------
  // The point lookup

  /** `SELECT ... FROM promotions WHERE id = $1` read with `QueryRow`: the first matching row. */
  function FindById(rows: seq<Promotion>, id: string): (r: Option<Promotion>)
    ensures r.Some? ==> r.value in rows && r.value.id == id
    ensures r.None? <==> forall k :: 0 <= k < |rows| ==> rows[k].id != id
  {
    if rows == [] then None
    else if rows[0].id == id then Some(rows[0])
    else FindById(rows[1..], id)
  }

  // ---------------------------------------------------------------------------
  // The operations as state transitions

  function ClearTemp(s: Replica, fault: Status): (Replica, Status)
  {
    (if fault.Nil? then s.(temp := []) else s, fault)
  }

  function BulkInsert(s: Replica, ps: seq<Promotion>, f: BulkFaults): (Replica, Status)
  {
    if |ps| == 0 then (s, Nil)
    else if f.begin.Err? then (s, Err(Wrapf("failed to begin transaction", f.begin.msg)))
    else if f.exec.Err? then (s, Err(Wrapf("failed to insert promotions", f.exec.msg)))
    else if f.commit.Err? then (s, Err(Wrapf("failed to commit transaction", f.commit.msg)))
    else (s.(temp := s.temp + ps), Nil)
  }

  /** Rename live to old, temp to live, old to temp, then TRUNCATE the new temp, as one
      statement batch that either happens entirely or not at all. */
  function Swap(s: Replica, fault: Status): (Replica, Status)
  {
    (if fault.Nil? then s.(live := s.temp, temp := []) else s, fault)
  }

  /** Whether the cache answers the lookup without touching the database. */
  predicate CacheHit(s: Replica, cacheEnabled: bool, id: string, f: GetFaults)
  {
    cacheEnabled && f.cacheGet.Nil? && id in s.cache && s.cache[id].Decodable?
  }

  function Get(s: Replica, cacheEnabled: bool, id: string, f: GetFaults): (Replica, Result<Promotion>)
  {
    if CacheHit(s, cacheEnabled, id, f) then (s, Ok(s.cache[id].p))
    else if f.query.Err? then (s, Failure(Wrapf("database error", f.query.msg)))
    else match FindById(s.live, id)
      case None => (s, Failure("promotion not found"))
      case Some(row) =>
        (if cacheEnabled && f.cacheSet.Nil? then s.(cache := s.cache[id := Decodable(row)]) else s, Ok(row))
  }

  class ReadRepository {
    var live: seq<Promotion>
    var temp: seq<Promotion>
    var cache: map<string, CacheEntry>
    /** Whether the repository was given a Redis client (`r.cache != nil`). */
    const cacheEnabled: bool

    function State(): Replica
      reads this
    {
      Replica(live, temp, cache)
    }

    constructor (live: seq<Promotion>, temp: seq<Promotion>, cache: map<string, CacheEntry>, cacheEnabled: bool)
      ensures State() == Replica(live, temp, cache) && this.cacheEnabled == cacheEnabled
    {
      this.live, this.temp, this.cache := live, temp, cache;
      this.cacheEnabled := cacheEnabled;
    }

    /** `DELETE FROM promotions_temp`. */
    method ClearTempTable(fault: Status) returns (err: Status)
      modifies this
      ensures (State(), err) == ClearTemp(old(State()), fault)
      ensures live == old(live) && cache == old(cache)
      ensures temp == if err.Nil? then [] else old(temp)
    {
      if fault.Nil? {
        temp := [];
      }
      err := fault;
    }

    /** One multi-row INSERT into `promotions_temp` inside one transaction. */
    method BulkInsertPromotions(ps: seq<Promotion>, f: BulkFaults) returns (err: Status)
      modifies this
      ensures (State(), err) == BulkInsert(old(State()), ps, f)
      ensures live == old(live) && cache == old(cache)
      ensures temp == if err.Nil? then old(temp) + ps else old(temp)
    {
      if |ps| == 0 {
        return Nil;
      }
      if f.begin.Err? {
        return Err(Wrapf("failed to begin transaction", f.begin.msg));
      }
      var groups, args := BuildInsert(ps);
      if f.exec.Err? {
        // the deferred Rollback discards the transaction
        return Err(Wrapf("failed to insert promotions", f.exec.msg));
      }
      if f.commit.Err? {
        return Err(Wrapf("failed to commit transaction", f.commit.msg));
      }
      var inserted := Bind(groups, args);
      temp := temp + inserted.value;
      err := Nil;
    }

    /** The three-way rename followed by TRUNCATE of the new `promotions_temp`. */
    method SwapTables(fault: Status) returns (err: Status)
      modifies this
      ensures (State(), err) == Swap(old(State()), fault)
      ensures cache == old(cache)
      ensures err.Nil? ==> live == old(temp) && temp == []
      ensures err.Err? ==> live == old(live) && temp == old(temp)
    {
      if fault.Nil? {
        var retired := live;
        live := temp;
        temp := retired;
        temp := [];
      }
      err := fault;
    }

    /** Cache-aside point lookup. */
    method GetPromotion(id: string, f: GetFaults) returns (r: Result<Promotion>)
      modifies this
      ensures (State(), r) == Get(old(State()), cacheEnabled, id, f)
      ensures live == old(live) && temp == old(temp)
    {
      if cacheEnabled {
        if f.cacheGet.Nil? && id in cache {
          match cache[id]
          case Decodable(p) =>
            return Ok(p);
          case Garbage =>
            // undecodable entry: logged, fall through to the database
        }
        // a missing key or a Redis error also falls through
      }
      if f.query.Err? {
        return Failure(Wrapf("database error", f.query.msg));
      }
      var found := FindById(live, id);
      if found.None? {
        return Failure("promotion not found");
      }
      if cacheEnabled && f.cacheSet.Nil? {
        cache := cache[id := Decodable(found.value)];
      }
      r := Ok(found.value);
    }
  }

  // ---------------------------------------------------------------------------
  // Properties of the transitions

  /** Clearing the shadow table touches neither the live table nor the cache. */
  lemma ClearTempOnlyEmptiesTemp(s: Replica, fault: Status)
    ensures ClearTemp(s, fault).0.live == s.live && ClearTemp(s, fault).0.cache == s.cache
    ensures ClearTemp(s, fault).1.Nil? ==> ClearTemp(s, fault).0.temp == []
  {
  }

  /** A bulk insert is all or nothing: every promotion is appended, or none is. */
  lemma BulkInsertAllOrNothing(s: Replica, ps: seq<Promotion>, f: BulkFaults)
    ensures var (s', err) := BulkInsert(s, ps, f);
            s'.live == s.live && s'.cache == s.cache &&
            (err.Nil? <==> (|ps| == 0 || (f.begin.Nil? && f.exec.Nil? && f.commit.Nil?))) &&
            s'.temp == if err.Nil? then s.temp + ps else s.temp
  {
  }

  /** After a successful swap the old shadow rows are live and the old live rows are gone. */
  lemma SwapPromotesTemp(s: Replica)
    ensures Swap(s, Nil).0 == Replica(s.temp, [], s.cache)
  {
  }

  /** Two swaps with no load in between leave the live table empty. */
  lemma DoubleSwapEmptiesLive(s: Replica)
    ensures Swap(Swap(s, Nil).0, Nil).0.live == []
  {
  }

  /** A decodable cache entry answers the lookup; the live table is not consulted and
      nothing changes. */
  lemma GetCacheHit(s: Replica, id: string, f: GetFaults, other: seq<Promotion>)
    requires f.cacheGet.Nil? && id in s.cache && s.cache[id].Decodable?
    ensures Get(s, true, id, f) == (s, Ok(s.cache[id].p))
    ensures Get(s.(live := other), true, id, f).1 == Get(s, true, id, f).1
  {
  }

  /** Without a cache answer: a missing row is "promotion not found" and the cache is
      unchanged; a found row is returned whatever the cache write does, and is cached
      when the write succeeds. */
  lemma GetFromLive(s: Replica, cacheEnabled: bool, id: string, f: GetFaults)
    requires !CacheHit(s, cacheEnabled, id, f) && f.query.Nil?
    ensures (forall k :: 0 <= k < |s.live| ==> s.live[k].id != id) ==>
              Get(s, cacheEnabled, id, f) == (s, Failure("promotion not found"))
    ensures Get(s, cacheEnabled, id, f).1.Ok? ==>
              var row := Get(s, cacheEnabled, id, f).1.value;
              row in s.live && row.id == id &&
              Get(s, cacheEnabled, id, f.(cacheSet := Err("down"))).1 == Ok(row) &&
              Get(s, cacheEnabled, id, f).0.cache ==
                (if cacheEnabled && f.cacheSet.Nil? then s.cache[id := Decodable(row)] else s.cache)
  {
  }

  /** A swap never invalidates the cache: an entry cached before it still answers. */
  lemma SwapKeepsCachedEntry(s: Replica, id: string, p: Promotion, fault: Status, f: GetFaults)
    requires id in s.cache && s.cache[id] == Decodable(p) && f.cacheGet.Nil?
    ensures Get(Swap(s, fault).0, true, id, f).1 == Ok(p)
  {
  }

  /** A concrete stale read: after the swap the live row for "a" has price 2, yet the
      lookup still returns the cached row with price 1. */
  lemma StaleReadAfterSwap()
    ensures var before := Promotion("a", 1.0, 0);
            var after := Promotion("a", 2.0, 0);
            var s := Swap(Replica([before], [after], map["a" := Decodable(before)]), Nil).0;
            FindById(s.live, "a") == Some(after) &&
            Get(s, true, "a", GetFaults(Nil, Nil, Nil)).1 == Ok(before)
  {
  }

  /** Two lookups with a healthy cache read and no write in between give the same
      answer, whether the first came from the cache or from the live table. */
  lemma {:induction false} GetTwiceAgrees(s: Replica, cacheEnabled: bool, id: string, f1: GetFaults, f2: GetFaults)
    requires f1.cacheGet.Nil? && f2.cacheGet.Nil? && f2.query.Nil?
    requires Get(s, cacheEnabled, id, f1).1.Ok?
    ensures Get(Get(s, cacheEnabled, id, f1).0, cacheEnabled, id, f2).1 == Get(s, cacheEnabled, id, f1).1
  {
    if !CacheHit(s, cacheEnabled, id, f1) {
      var s1 := Get(s, cacheEnabled, id, f1).0;
      assert s1.live == s.live;
      if cacheEnabled && f1.cacheSet.Nil? {
        assert CacheHit(s1, cacheEnabled, id, f2);
      } else {
        assert s1 == s;
      }
    }
  }
}
