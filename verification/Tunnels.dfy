/** One pool's hot-tunnel slot and failure cache, the state guarded by its
    mutex; every method is one critical section. */
module Tunnels {
  import opened Wrappers

  /** Container IDs, pool names, conf names. */
  datatype Id = Id(text: string)

  datatype Url = Url(scheme: string, host: string, path: string)

  /** Proxy identity: path is irrelevant. */
  predicate SameUrl(a: Url, b: Url) { a.scheme == b.scheme && a.host == b.host }

  datatype TunnelState = Hot | Unhealthy | Reaping

  datatype Tunnel = Tunnel(container: Id, conf: Id, url: Option<Url>, gateway: string, state: TunnelState, inFlight: int)

  datatype PoolSpec = PoolSpec(name: Id, configs: seq<Id>)

  datatype Refusal = NoTunnel | NotHot | OnlyExcluded

  // ---------- What each critical section does to the slot ----------

  /** Why acquire turns the caller away, if it does. */
  function Refuses(slot: Option<Tunnel>, exclude: Option<Url>): Option<Refusal> {
    if slot.None? then Some(NoTunnel)
    else if !slot.value.state.Hot? then Some(NotHot)
    else if exclude.Some? && slot.value.url.Some? && SameUrl(slot.value.url.value, exclude.value) then Some(OnlyExcluded)
    else None
  }

  function Taken(t: Tunnel): Tunnel { t.(inFlight := t.inFlight + 1) }

  predicate Holds(slot: Option<Tunnel>, container: Id) {
    slot.Some? && slot.value.state.Hot? && slot.value.container == container
  }

  /** Release is keyed by the pool: it lowers whatever tunnel sits there now. */
  function Released(slot: Option<Tunnel>): Option<Tunnel> {
    if slot.None? || slot.value.inFlight <= 0 then slot else Some(slot.value.(inFlight := slot.value.inFlight - 1))
  }

  /** MarkFailed: the tunnel built from conf stops being handed out. */
  function Condemned(slot: Option<Tunnel>, conf: Id): Option<Tunnel> {
    if slot.Some? && slot.value.conf == conf then Some(slot.value.(state := Unhealthy)) else slot
  }

  /** killTunnel's first section: only the snapshotted container is marked. */
  function Reaped(slot: Option<Tunnel>, container: Id): Option<Tunnel> {
    if slot.Some? && slot.value.container == container then Some(slot.value.(state := Reaping)) else slot
  }

  // ---------- The failure cache ----------

  type Failures = map<Id, int>

  /** Entries that have not yet outlived the TTL. */
  function Clean(failed: Failures, now: int, ttl: int): Failures {
    map c | c in failed && now - failed[c] <= ttl :: failed[c]
  }

  /** The confs pickConf may choose from. */
  function Candidates(configs: seq<Id>, failed: Failures, exclude: set<Id>): seq<Id> {
    if configs == [] then []
    else
      var last := configs[|configs| - 1];
      Candidates(configs[..|configs| - 1], failed, exclude) +
      if last in failed || last in exclude then [] else [last]
  }

  lemma {:induction false} CandidatesExact(configs: seq<Id>, failed: Failures, exclude: set<Id>, c: Id)
    ensures c in Candidates(configs, failed, exclude) <==> c in configs && c !in failed && c !in exclude
  {
    if configs != [] {
      var rest, last := configs[..|configs| - 1], configs[|configs| - 1];
      CandidatesExact(rest, failed, exclude, c);
      assert configs == rest + [last];
    }
  }

  // ---------- The pool ----------

  class PoolState {
    const spec: PoolSpec
    var tunnel: Option<Tunnel>
    var failed: Failures

    constructor (spec: PoolSpec)
      ensures this.spec == spec && tunnel == None && failed == map[]
    {
      this.spec, tunnel, failed := spec, None, map[];
    }

    method SetTunnel(t: Option<Tunnel>)
      modifies this`tunnel
      ensures tunnel == t
    {
      tunnel := t;
    }

    /** A copy of the hot tunnel with its in-flight count raised, or the reason
        there is none; a refusal changes nothing. */
    method Acquire(exclude: Option<Url>) returns (r: Option<Tunnel>, why: Option<Refusal>)
      modifies this`tunnel
      ensures why == Refuses(old(tunnel), exclude)
      ensures why.None? ==> old(tunnel).Some? && tunnel == Some(Taken(old(tunnel.value))) && r == tunnel
      ensures why.Some? ==> r == None && tunnel == old(tunnel)
    {
      if tunnel.None? {
        return None, Some(NoTunnel);
      }
      if !tunnel.value.state.Hot? {
        return None, Some(NotHot);
      }
      if exclude.Some? && tunnel.value.url.Some? && SameUrl(tunnel.value.url.value, exclude.value) {
        return None, Some(OnlyExcluded);
      }
      tunnel := Some(tunnel.value.(inFlight := tunnel.value.inFlight + 1));
      return tunnel, None;
    }

    method AcquireContainer(container: Id) returns (r: Option<Tunnel>)
      modifies this`tunnel
      ensures r.Some? <==> Holds(old(tunnel), container)
      ensures tunnel == if r.Some? then Some(Taken(old(tunnel.value))) else old(tunnel)
      ensures r.Some? ==> r == tunnel && r.value.container == container
    {
      if tunnel.None? || !tunnel.value.state.Hot? || tunnel.value.container != container {
        return None;
      }
      tunnel := Some(tunnel.value.(inFlight := tunnel.value.inFlight + 1));
      r := tunnel;
    }

    method Release()
      modifies this`tunnel
      ensures tunnel == Released(old(tunnel))
    {
      if tunnel.None? || tunnel.value.inFlight <= 0 { return; }
      tunnel := Some(tunnel.value.(inFlight := tunnel.value.inFlight - 1));
    }

    method MarkFailed(conf: Id, now: int)
      modifies this`failed
      ensures failed == old(failed)[conf := now]
    {
      failed := failed[conf := now];
    }

    method CleanFailed(now: int, ttl: int)
      modifies this`failed
      ensures failed == Clean(old(failed), now, ttl)
    {
      var todo := failed.Keys;
      while todo != {}
        invariant todo <= old(failed).Keys
        invariant failed.Keys <= old(failed).Keys
        invariant forall c | c in old(failed) ::
                    c in failed <==> c in todo || now - old(failed)[c] <= ttl
        invariant forall c | c in failed :: failed[c] == old(failed)[c]
      {
        var conf :| conf in todo;
        todo := todo - {conf};
        if now - failed[conf] > ttl {
          failed := failed - {conf};
        }
      }
    }

    /** Some candidate, chosen at random, or nothing exactly when none is left. */
    method PickConf(now: int, exclude: set<Id>, ttl: int) returns (r: Option<Id>)
      modifies this`failed
      ensures failed == Clean(old(failed), now, ttl)
      ensures r.Some? ==> r.value in Candidates(spec.configs, failed, exclude)
      ensures r.None? <==> Candidates(spec.configs, failed, exclude) == []
    {
      CleanFailed(now, ttl);
      var candidates := [];
      for i := 0 to |spec.configs|
        invariant candidates == Candidates(spec.configs[..i], failed, exclude)
      {
        var conf := spec.configs[i];
        assert spec.configs[..i + 1][..i] == spec.configs[..i];
        if conf !in failed && conf !in exclude {
          candidates := candidates + [conf];
        }
      }
      assert spec.configs[..|spec.configs|] == spec.configs;
      if candidates == [] {
        return None;
      }
      var k :| 0 <= k < |candidates|;
      return Some(candidates[k]);
    }
  }

  /** A slot Close kills and clears; one without a container ID it leaves alone. */
  predicate Tracked(slot: Option<Tunnel>) { slot.Some? && slot.value.container.text != "" }

  /** Graceful shutdown: the Kill calls are on exactly the tracked containers, and
      exactly those slots are empty afterwards, whatever Kill reports. */
  method CloseAll(pools: map<Id, PoolState>) returns (killed: set<Id>)
    requires forall p, q | p in pools && q in pools && p != q :: pools[p] != pools[q]
    modifies pools.Values`tunnel
    ensures forall p | p in pools ::
              pools[p].tunnel ==
              if old(pools[p].tunnel).Some? && old(pools[p].tunnel).value.container.text == "" then old(pools[p].tunnel) else None
    ensures killed == set p | p in pools && old(pools[p].tunnel).Some? && old(pools[p].tunnel).value.container.text != ""
                          :: old(pools[p].tunnel).value.container
  {
    killed := {};
    var todo := pools.Keys;
    while todo != {}
      invariant todo <= pools.Keys
      invariant forall p | p in todo :: pools[p].tunnel == old(pools[p].tunnel)
      invariant forall p | p in pools && p !in todo ::
                  pools[p].tunnel == if Tracked(old(pools[p].tunnel)) then None else old(pools[p].tunnel)
      invariant killed == set p | p in pools && p !in todo && old(Tracked(pools[p].tunnel)) :: old(pools[p].tunnel).value.container
    {
      var p :| p in todo;
      todo := todo - {p};
      var state := pools[p];
      if state.tunnel.None? || state.tunnel.value.container.text == "" {
        continue;
      }
      killed := killed + {state.tunnel.value.container};
      state.SetTunnel(None);
    }
  }
}
