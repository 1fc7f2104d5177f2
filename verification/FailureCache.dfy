/** The lazily cleaned failure cache against the full failure history. */
module FailureCache {
  import opened Wrappers
  import opened Tunnels

  /** What touches a pool's cache: a recorded failure (failed spawn, unhealthy
      reap or MarkFailed) or a cleaning pass (pickConf, RecentlyFailedCount). */
  datatype Op = Mark(at: int, conf: Id) | CleanAt(at: int)

  /** The cache after a history. */
  function Cache(ops: seq<Op>, ttl: int): Failures {
    if ops == [] then map[]
    else
      var before := Cache(ops[..|ops| - 1], ttl);
      match ops[|ops| - 1]
      case Mark(at, conf) => before[conf := at]
      case CleanAt(at) => Clean(before, at, ttl)
  }

  /** The clock does not run backwards along the history, up to now. */
  predicate Clocked(ops: seq<Op>, now: int) {
    && (forall i, j | 0 <= i < j < |ops| :: ops[i].at <= ops[j].at)
    && (forall i | 0 <= i < |ops| :: ops[i].at <= now)
  }

  /** Some failure of conf in the history is at most ttl old. */
  ghost predicate FailedWithin(ops: seq<Op>, conf: Id, now: int, ttl: int) {
    exists i :: 0 <= i < |ops| && ops[i].Mark? && ops[i].conf == conf && now - ops[i].at <= ttl
  }

  /** The time of the last failure of conf. */
  function Latest(ops: seq<Op>, conf: Id): Option<int> {
    if ops == [] then None
    else
      var op := ops[|ops| - 1];
      if op.Mark? && op.conf == conf then Some(op.at) else Latest(ops[..|ops| - 1], conf)
  }

  lemma {:induction false} CacheIsLatest(ops: seq<Op>, ttl: int, conf: Id, now: int)
    requires forall i | 0 <= i < |ops| :: ops[i].at <= now
    ensures var kept := Clean(Cache(ops, ttl), now, ttl);
            && (conf in kept <==> Latest(ops, conf).Some? && now - Latest(ops, conf).value <= ttl)
            && (conf in kept ==> kept[conf] == Latest(ops, conf).value)
  {
    if ops != [] {
      CacheIsLatest(ops[..|ops| - 1], ttl, conf, now);
    }
  }

  lemma {:induction false} LatestIsMax(ops: seq<Op>, conf: Id, now: int, ttl: int)
    requires Clocked(ops, now)
    ensures FailedWithin(ops, conf, now, ttl) <==> Latest(ops, conf).Some? && now - Latest(ops, conf).value <= ttl
    ensures Latest(ops, conf).Some? ==> exists i :: 0 <= i < |ops| && ops[i] == Mark(Latest(ops, conf).value, conf)
    ensures Latest(ops, conf).None? ==> forall i | 0 <= i < |ops| :: !(ops[i].Mark? && ops[i].conf == conf)
  {
    if ops != [] {
      var rest, op := ops[..|ops| - 1], ops[|ops| - 1];
      LatestIsMax(rest, conf, now, ttl);
      if op.Mark? && op.conf == conf {
        assert ops[|ops| - 1] == Mark(op.at, conf);
      } else {
        if Latest(ops, conf).Some? {
          var i :| 0 <= i < |rest| && rest[i] == Mark(Latest(rest, conf).value, conf);
          assert ops[i] == rest[i];
        }
        if FailedWithin(rest, conf, now, ttl) {
          var i :| 0 <= i < |rest| && rest[i].Mark? && rest[i].conf == conf && now - rest[i].at <= ttl;
          assert ops[i] == rest[i];
        }
      }
    }
  }

  /** pickConf's candidates are exactly the configured, non-excluded confs with no
      failure in the last ttl, whatever cleaning happened before; so it reports
      exhaustion exactly when there is none. */
  lemma CandidatesFromHistory(ops: seq<Op>, ttl: int, configs: seq<Id>, exclude: set<Id>, now: int, conf: Id)
    requires Clocked(ops, now)
    ensures conf in Candidates(configs, Clean(Cache(ops, ttl), now, ttl), exclude) <==>
            conf in configs && conf !in exclude && !FailedWithin(ops, conf, now, ttl)
  {
    CandidatesExact(configs, Clean(Cache(ops, ttl), now, ttl), exclude, conf);
    CacheIsLatest(ops, ttl, conf, now);
    LatestIsMax(ops, conf, now, ttl);
  }

  /** A recorded failure bans the conf for exactly the TTL, and no other conf. */
  lemma MarkBans(failed: Failures, conf: Id, at: int, now: int, ttl: int, configs: seq<Id>, exclude: set<Id>, c: Id)
    ensures var before := Candidates(configs, Clean(failed, now, ttl), exclude);
            var after := Candidates(configs, Clean(failed[conf := at], now, ttl), exclude);
            && (conf in after <==> conf in configs && conf !in exclude && now - at > ttl)
            && (c != conf ==> (c in after <==> c in before))
  {
    CandidatesExact(configs, Clean(failed[conf := at], now, ttl), exclude, conf);
    CandidatesExact(configs, Clean(failed[conf := at], now, ttl), exclude, c);
    CandidatesExact(configs, Clean(failed, now, ttl), exclude, c);
  }

  /** The time of the most recent failure of conf. */
  function Newest(ops: seq<Op>, conf: Id): Option<int> {
    if ops == [] then None
    else
      var op, rest := ops[|ops| - 1], Newest(ops[..|ops| - 1], conf);
      if op.Mark? && op.conf == conf && (rest.None? || rest.value < op.at) then Some(op.at) else rest
  }

  lemma {:induction false} NewestIs(ops: seq<Op>, conf: Id, now: int, ttl: int)
    ensures FailedWithin(ops, conf, now, ttl) <==> Newest(ops, conf).Some? && now - Newest(ops, conf).value <= ttl
  {
    if ops != [] {
      var rest, op := ops[..|ops| - 1], ops[|ops| - 1];
      NewestIs(rest, conf, now, ttl);
      if i :| 0 <= i < |rest| && rest[i].Mark? && rest[i].conf == conf && now - rest[i].at <= ttl {
        assert ops[i] == rest[i];
      }
      if op.Mark? && op.conf == conf && now - op.at <= ttl { assert FailedWithin(ops, conf, now, ttl); }
    }
  }

  lemma {:induction false} LatestBelowNewest(ops: seq<Op>, conf: Id)
    ensures Latest(ops, conf).Some? <==> Newest(ops, conf).Some?
    ensures Latest(ops, conf).Some? ==> Latest(ops, conf).value <= Newest(ops, conf).value
  {
    if ops != [] { LatestBelowNewest(ops[..|ops| - 1], conf); }
  }

  function Max(a: int, b: int): int { if a < b then b else a }

  /** The latest of now and the cleanings since the last failure of conf was written. */
  function Horizon(ops: seq<Op>, conf: Id, now: int): int {
    if ops == [] then now
    else match ops[|ops| - 1]
      case Mark(_, c) => if c == conf then now else Horizon(ops[..|ops| - 1], conf, now)
      case CleanAt(at) => Horizon(ops[..|ops| - 1], conf, Max(now, at))
  }

  lemma {:induction false} HorizonMax(ops: seq<Op>, conf: Id, now: int, at: int)
    ensures Horizon(ops, conf, Max(now, at)) == Max(Horizon(ops, conf, now), at)
    ensures Horizon(ops, conf, now) >= now
  {
    if ops != [] {
      var rest := ops[..|ops| - 1];
      match ops[|ops| - 1]
      case Mark(_, _) => HorizonMax(rest, conf, now, at);
      case CleanAt(x) =>
        HorizonMax(rest, conf, Max(now, x), at);
        assert Max(Max(now, at), x) == Max(Max(now, x), at);
    }
  }

  /** What the cache still knows, whatever the order of the clock readings: the last
      failure written, unless it had expired at now or at some cleaning since. */
  lemma {:induction false} CacheExactly(ops: seq<Op>, ttl: int, conf: Id, now: int)
    ensures conf in Clean(Cache(ops, ttl), now, ttl) <==>
            Latest(ops, conf).Some? && Horizon(ops, conf, now) - Latest(ops, conf).value <= ttl
    ensures conf in Cache(ops, ttl) ==> Latest(ops, conf) == Some(Cache(ops, ttl)[conf])
  {
    if ops != [] {
      var rest := ops[..|ops| - 1];
      CacheExactly(rest, ttl, conf, now);
      match ops[|ops| - 1]
      case Mark(_, _) =>
      case CleanAt(at) =>
        CacheExactly(rest, ttl, conf, at);
        HorizonMax(rest, conf, now, at);
        HorizonMax(rest, conf, at, now);
    }
  }

  /** The cleaned cache tells the truth about the history. */
  ghost predicate Truthful(ops: seq<Op>, conf: Id, now: int, ttl: int) {
    conf in Clean(Cache(ops, ttl), now, ttl) <==> FailedWithin(ops, conf, now, ttl)
  }

  /** How old the history and the cache take the failure of conf to be. */
  function TrueAge(ops: seq<Op>, conf: Id, now: int): int
    requires Newest(ops, conf).Some?
  {
    Max(0, now - Newest(ops, conf).value)
  }

  function CachedAge(ops: seq<Op>, conf: Id, now: int): int
    requires Latest(ops, conf).Some?
  {
    Max(0, Horizon(ops, conf, now) - Latest(ops, conf).value)
  }

  /** The exact condition, for clock readings in any order: the cache is truthful
      about conf for every TTL if and only if conf never failed, or the failure
      written last, seen at the latest of now and the cleanings since, is no older
      than the most recent failure is now. */
  lemma TruthfulExactly(ops: seq<Op>, conf: Id, now: int)
    ensures Latest(ops, conf).Some? <==> Newest(ops, conf).Some?
    ensures (forall ttl {:trigger Truthful(ops, conf, now, ttl)} | ttl >= 0 :: Truthful(ops, conf, now, ttl)) <==>
            Latest(ops, conf).None? || CachedAge(ops, conf, now) == TrueAge(ops, conf, now)
  {
    LatestBelowNewest(ops, conf);
    HorizonMax(ops, conf, now, now);
    forall ttl | ttl >= 0
      ensures Truthful(ops, conf, now, ttl) <==>
              Latest(ops, conf).None? || (CachedAge(ops, conf, now) <= ttl <==> TrueAge(ops, conf, now) <= ttl)
    {
      CacheExactly(ops, ttl, conf, now);
      NewestIs(ops, conf, now, ttl);
    }
    if Latest(ops, conf).Some? && forall ttl {:trigger Truthful(ops, conf, now, ttl)} | ttl >= 0 :: Truthful(ops, conf, now, ttl) {
      assert Truthful(ops, conf, now, TrueAge(ops, conf, now));
      assert Truthful(ops, conf, now, CachedAge(ops, conf, now));
    }
  }

  /** A pick that read its time before another one's cleaning: the cleaning, later on
      the clock, has dropped a failure that is still within the TTL for the pick. */
  lemma LatePickForgets()
    ensures var c := Id("nl-ams");
            var ops := [Mark(5, c), CleanAt(10)];
            FailedWithin(ops, c, 7, 3) && c !in Clean(Cache(ops, 3), 7, 3)
  {
    var c := Id("nl-ams");
    var ops := [Mark(5, c), CleanAt(10)];
    assert ops[0] == Mark(5, c);
    assert ops[..1] == [Mark(5, c)] && ops[..1][..0] == [];
  }

  /** Two failures whose times were read in one order and written in the other: the
      time is taken before the lock. The older one then shortens the ban. */
  lemma LateWriteForgets()
    ensures var c := Id("nl-ams");
            var ops := [Mark(10, c), Mark(5, c)];
            FailedWithin(ops, c, 12, 3) && c !in Clean(Cache(ops, 3), 12, 3)
  {
    var c := Id("nl-ams");
    var ops := [Mark(10, c), Mark(5, c)];
    assert ops[0] == Mark(10, c);
    assert ops[..1] == [Mark(10, c)] && ops[..1][..0] == [];
  }
}
