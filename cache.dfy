/**
 * The in-memory key/value cache with per-key deadlines (InMemoryCacheService).
 *
 * The service holds two maps: `cache` for the values and `expirations` for
 * the deadlines. `Store` is that pair as a value, and the functions below
 * give the effect of each operation on it; the class `CacheService` keeps the
 * two maps as fields and its methods update them step by step, each proved to
 * have exactly the effect of the corresponding function. Every operation is
 * atomic (the service's read/write mutex is not modelled) and the clock is a
 * parameter `now`.
 */
module Cache {
  import opened Wrappers

  /** An instant on the service's clock. */
  type Time = int

  /** A time.Duration: the distance between two instants. */
  type Duration = int

  /** The options of Set; a nil *SetOptions is `None`. */
  datatype SetOptions = SetOptions(ttl: Duration, nx: bool)

  /** The state of the service: the values and the recorded deadlines. */
  datatype Store = Store(cache: map<string, string>, expirations: map<string, Time>)

  /** The state of a newly constructed service. */
  const Empty := Store(map[], map[])

  /**
   * What Get returns for `key`: Go's comma-ok map read, giving the stored
   * value and true, or the zero value "" and false. Deadlines play no part.
   */
  function Lookup(s: Store, key: string): (r: (string, bool))
    ensures r.1 <==> key in s.cache
    ensures r.1 ==> r.0 == s.cache[key]
    ensures !r.1 ==> r.0 == ""
  {
    if key in s.cache then (s.cache[key], true) else ("", false)
  }

  /** The deadline recorded for `key`, if any. */
  function Deadline(s: Store, key: string): Option<Time>
  {
    if key in s.expirations then Some(s.expirations[key]) else None
  }

  /** Set in NX mode refuses a key that is present in `cache`. */
  predicate NxBlocked(s: Store, key: string, opts: Option<SetOptions>)
  {
    opts.Some? && opts.value.nx && key in s.cache
  }

  /** Set records a deadline only when it is given a positive TTL. */
  predicate Timed(opts: Option<SetOptions>)
  {
    opts.Some? && opts.value.ttl > 0
  }

  /** The state after Set, and whether Set wrote the value. */
  function SetStore(s: Store, key: string, value: string, opts: Option<SetOptions>, now: Time): (r: (Store, bool))
    ensures r.1 <==> !NxBlocked(s, key, opts)
    ensures !r.1 ==> r.0 == s
    ensures r.1 ==> Lookup(r.0, key) == (value, true)
    ensures r.1 && Timed(opts) ==> Deadline(r.0, key) == Some(now + opts.value.ttl)
    ensures !Timed(opts) ==> r.0.expirations == s.expirations
    ensures forall k :: k != key ==> Lookup(r.0, k) == Lookup(s, k) && Deadline(r.0, k) == Deadline(s, k)
  {
    if NxBlocked(s, key, opts) then (s, false)
    else
      var deadlines := if Timed(opts) then s.expirations[key := now + opts.value.ttl] else s.expirations;
      (Store(s.cache[key := value], deadlines), true)
  }

  /** The state after Delete: the value goes, its deadline stays behind. */
  function DeleteStore(s: Store, key: string): (r: Store)
    ensures !Lookup(r, key).1
    ensures r.expirations == s.expirations
    ensures forall k :: k != key ==> Lookup(r, k) == Lookup(s, k)
  {
    Store(s.cache - {key}, s.expirations)
  }

  /** A key whose deadline is strictly before `now` (time.Time.After). */
  predicate ExpiredAt(s: Store, key: string, now: Time)
  {
    key in s.expirations && s.expirations[key] < now
  }

  /** The state after one pass of the cleanup loop at `now`. */
  function SweepStore(s: Store, now: Time): (r: Store)
    ensures forall k :: Lookup(r, k).1 <==> Lookup(s, k).1 && !ExpiredAt(s, k, now)
    ensures forall k :: Lookup(r, k).1 ==> Lookup(r, k) == Lookup(s, k)
    ensures forall k :: Deadline(r, k) == if ExpiredAt(s, k, now) then None else Deadline(s, k)
  {
    var gone := set k | k in s.expirations && ExpiredAt(s, k, now);
    Store(s.cache - gone, s.expirations - gone)
  }

  /** The service's state-changing operations, for reasoning about sequences of them. */
  datatype Op =
    | SetOp(key: string, value: string, opts: Option<SetOptions>, now: Time)
    | DeleteOp(key: string)
    | SweepOp(now: Time)

  function Step(s: Store, op: Op): Store
  {
    match op
    case SetOp(key, value, opts, now) => SetStore(s, key, value, opts, now).0
    case DeleteOp(key) => DeleteStore(s, key)
    case SweepOp(now) => SweepStore(s, now)
  }

  function Run(s: Store, ops: seq<Op>): Store
    decreases |ops|
  {
    if ops == [] then s else Run(Step(s, ops[0]), ops[1..])
  }

  /** `op` is a Set of `key` with a positive TTL, the only way a deadline is recorded. */
  predicate GivesDeadline(op: Op, key: string)
  {
    op.SetOp? && op.key == key && Timed(op.opts)
  }

  /**
   * A key with no recorded deadline never gets one unless a Set gives it a
   * positive TTL, so no sweep ever evicts it.
   */
  lemma {:induction false} UntimedKeyStaysUntimed(s: Store, ops: seq<Op>, key: string)
    requires Deadline(s, key) == None
    requires forall i :: 0 <= i < |ops| ==> !GivesDeadline(ops[i], key)
    ensures Deadline(Run(s, ops), key) == None
    decreases |ops|
  {
    if ops != [] {
      var s' := Step(s, ops[0]);
      assert Deadline(s', key) == None by {
        match ops[0]
        case SetOp(k, v, o, t) =>
        case DeleteOp(k) =>
        case SweepOp(t) =>
      }
      UntimedKeyStaysUntimed(s', ops[1..], key);
    }
  }

  /**
   * A value stored without a deadline stays in the cache through any run of
   * operations that neither deletes its key nor gives it a positive TTL:
   * sweeps never remove it.
   */
  lemma {:induction false} UntimedKeySurvivesSweeps(s: Store, ops: seq<Op>, key: string)
    requires Lookup(s, key).1 && Deadline(s, key) == None
    requires forall i :: 0 <= i < |ops| ==> !GivesDeadline(ops[i], key) && ops[i] != DeleteOp(key)
    ensures Lookup(Run(s, ops), key).1
    decreases |ops|
  {
    if ops != [] {
      var s' := Step(s, ops[0]);
      assert Lookup(s', key).1 && Deadline(s', key) == None by {
        match ops[0]
        case SetOp(k, v, o, t) =>
        case DeleteOp(k) =>
        case SweepOp(t) =>
      }
      UntimedKeySurvivesSweeps(s', ops[1..], key);
    }
  }

  /** A sweep at `now` followed by one at a later or equal instant is the later sweep alone. */
  lemma SweepsCompose(s: Store, now1: Time, now2: Time)
    requires now1 <= now2
    ensures SweepStore(SweepStore(s, now1), now2) == SweepStore(s, now2)
  {
  }

  /** Sweeping twice at the same instant changes nothing the first sweep did not. */
  lemma SweepIdempotent(s: Store, now: Time)
    ensures SweepStore(SweepStore(s, now), now) == SweepStore(s, now)
  {
    SweepsCompose(s, now, now);
  }

  /**
   * A value set with a positive TTL at `t0` survives every sweep up to and
   * including its deadline `t0 + ttl` and is evicted by any sweep after it.
   */
  lemma TimedValueExpires(s: Store, key: string, value: string, ttl: Duration, nx: bool, t0: Time, now: Time)
    requires ttl > 0
    requires SetStore(s, key, value, Some(SetOptions(ttl, nx)), t0).1
    ensures var s1 := SetStore(s, key, value, Some(SetOptions(ttl, nx)), t0).0;
            Lookup(SweepStore(s1, now), key) == if now <= t0 + ttl then (value, true) else ("", false)
  {
  }

  /**
   * The advisory lock: while an NX entry is in the cache every other NX Set
   * of the key fails and the first value stays; once a sweep after its
   * deadline has run, an NX Set of the key succeeds again.
   */
  lemma NxLockExcludesThenSelfHeals(s: Store, key: string, v1: string, v2: string, lockTtl: Duration,
                                     ttl2: Duration, t0: Time, t1: Time, now: Time)
    requires lockTtl > 0
    requires SetStore(s, key, v1, Some(SetOptions(lockTtl, true)), t0).1
    ensures var s1 := SetStore(s, key, v1, Some(SetOptions(lockTtl, true)), t0).0;
            var (s2, ok2) := SetStore(s1, key, v2, Some(SetOptions(ttl2, true)), t1);
            !ok2 && s2 == s1 && Lookup(s2, key) == (v1, true)
    ensures var s1 := SetStore(s, key, v1, Some(SetOptions(lockTtl, true)), t0).0;
            now > t0 + lockTtl ==> SetStore(SweepStore(s1, now), key, v2, Some(SetOptions(ttl2, true)), t1).1
  {
  }

  /**
   * Delete leaves the deadline behind and Set without a positive TTL does not
   * clear it, so a value stored with no TTL after a Delete is still evicted at
   * the deleted entry's old deadline.
   */
  lemma StaleDeadlineEvictsUntimedValue(s: Store, key: string, v: string, w: string, ttl: Duration,
                                        t0: Time, t1: Time, now: Time)
    requires ttl > 0 && now > t0 + ttl
    requires SetStore(s, key, v, Some(SetOptions(ttl, false)), t0).1
    ensures var s1 := SetStore(s, key, v, Some(SetOptions(ttl, false)), t0).0;
            var s3 := SetStore(DeleteStore(s1, key), key, w, None, t1).0;
            Lookup(s3, key) == (w, true) && !Lookup(SweepStore(s3, now), key).1
  {
  }

  /** InMemoryCacheService: the two maps, updated in place. */
  class CacheService {
    var cache: map<string, string>
    var expirations: map<string, Time>

    /** The service's state as a value. */
    function State(): Store
      reads this
    {
      Store(cache, expirations)
    }

    /** NewInMemoryCacheService (the cleanup goroutine is `Sweep`). */
    constructor ()
      ensures State() == Empty
    {
      cache := map[];
      expirations := map[];
    }

    /** Get: a read-only lookup in `cache`. */
    function Get(key: string): (r: (string, bool))
      reads this
      ensures r == Lookup(State(), key)
      ensures r.1 <==> key in cache
    {
      Lookup(State(), key)
    }

    /** Set: write `value` unless NX finds the key present; record a deadline for a positive TTL. */
    method Set(key: string, value: string, opts: Option<SetOptions>, now: Time) returns (ok: bool)
      modifies this
      ensures (State(), ok) == SetStore(old(State()), key, value, opts, now)
    {
      if opts.Some? && opts.value.nx {
        if key in cache {
          return false;
        }
      }
      cache := cache[key := value];
      if opts.Some? && opts.value.ttl > 0 {
        expirations := expirations[key := now + opts.value.ttl];
      }
      return true;
    }

    /** Delete: remove the value only; the returned error is always nil. */
    method Delete(key: string) returns (err: Option<Error>)
      modifies this
      ensures State() == DeleteStore(old(State()), key)
      ensures err == None
    {
      cache := cache - {key};
      return None;
    }

    /** One pass of cleanupExpiredKeys at `now`: evict every key whose deadline is before `now`. */
    method Sweep(now: Time)
      modifies this
      ensures State() == SweepStore(old(State()), now)
    {
      ghost var s0 := State();
      ghost var gone := set k | k in s0.expirations && ExpiredAt(s0, k, now);
      var pending := expirations.Keys;
      while pending != {}
        invariant pending <= s0.expirations.Keys
        invariant cache == s0.cache - (gone - pending)
        invariant expirations == s0.expirations - (gone - pending)
        decreases pending
      {
        var key :| key in pending;
        if expirations[key] < now {
          cache := cache - {key};
          expirations := expirations - {key};
        }
        pending := pending - {key};
      }
    }
  }
}
