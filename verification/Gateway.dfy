/** One proxied connection over a lease: the reservation it makes and the
    once-only release when it closes. */
module Gateway {
  import opened Wrappers
  import opened Tunnels
  import opened Leases

  /** How building and using the cell's SOCKS5 dialer ends. */
  datatype DialOutcome = NoDialer | NoContextSupport | DialFails | Connected

  /** A connection that gives its reservation back on the first Close. */
  class ReleaseConn {
    const pool: PoolState
    var released: bool

    constructor (pool: PoolState)
      ensures this.pool == pool && !released
    {
      this.pool, released := pool, false;
    }

    method Close(underlyingFails: bool) returns (failed: bool)
      modifies this`released, pool`tunnel
      ensures failed == underlyingFails && released
      ensures pool.tunnel == if old(released) then old(pool.tunnel) else Released(old(pool.tunnel))
    {
      if !released {
        released := true;
        pool.Release();
      }
      failed := underlyingFails;
    }
  }

  /** Closing any number of times, whatever the underlying connection reports,
      releases exactly once. */
  method CloseRepeatedly(conn: ReleaseConn, fails: seq<bool>)
    requires !conn.released
    modifies conn`released, conn.pool`tunnel
    ensures conn.pool.tunnel == if fails == [] then old(conn.pool.tunnel) else Released(old(conn.pool.tunnel))
    ensures conn.released == (fails != [])
  {
    for i := 0 to |fails|
      invariant conn.released == (i > 0)
      invariant conn.pool.tunnel == if i == 0 then old(conn.pool.tunnel) else Released(old(conn.pool.tunnel))
    {
      var _ := conn.Close(fails[i]);
    }
  }

  /** A reservation given back leaves the slot as it was. */
  lemma ReserveAndRelease(t: Tunnel)
    requires t.inFlight >= 0
    ensures Released(Some(Taken(t))) == Some(t)
  {
  }

  /** Release alone is not idempotent: a second one changes nothing exactly when
      the slot is empty or held at most one acquisition. */
  lemma ReleaseTwice(slot: Option<Tunnel>)
    ensures Released(Released(slot)) == Released(slot) <==> slot.None? || slot.value.inFlight <= 1
  {
    if slot.Some? && slot.value.inFlight > 1 {
      assert Released(slot).value.inFlight == slot.value.inFlight - 1;
    }
  }

  /** With an acquisition in between, a second release always takes it off again,
      whatever the count was: the newcomer is no longer counted. */
  lemma ReleaseAgain(t: Tunnel)
    requires t.inFlight >= 0
    ensures var once := Released(Some(t));
            once.Some? && Released(Some(Taken(once.value))) == once
  {
    ReserveAndRelease(Released(Some(t)).value);
  }

  /** The lease's pool and whether it still holds the leased cell. */
  ghost predicate Reservable(pools: map<Id, PoolState>, lease: Option<Record>)
    reads pools.Values
  {
    lease.Some? && lease.value.pool in pools && Holds(pools[lease.value.pool].tunnel, lease.value.container)
  }

  /** Every path either hands the reservation to the returned connection or has
      given it back: on any failure every slot is as before. */
  method DialLease(registry: Registry, pools: map<Id, PoolState>, leaseId: Id, secret: string, now: int,
                   outcome: DialOutcome)
    returns (conn: Option<ReleaseConn>)
    requires forall p | p in pools :: pools[p].tunnel.Some? ==> pools[p].tunnel.value.inFlight >= 0
    modifies registry`leases, pools.Values`tunnel
    ensures registry.leases == Prune(old(registry.leases), now)
    ensures var lease := Find(registry.leases, leaseId, registry.digest(secret));
            conn.Some? <==> old(Reservable(pools, lease)) && outcome == Connected
    ensures conn.None? ==> forall s | s in pools.Values :: s.tunnel == old(s.tunnel)
    ensures conn.Some? ==>
              var lease := Find(registry.leases, leaseId, registry.digest(secret)).value;
              && lease.pool in pools && conn.value.pool == pools[lease.pool] && !conn.value.released
              && old(pools[lease.pool].tunnel).Some?
              && pools[lease.pool].tunnel == Some(Taken(old(pools[lease.pool].tunnel).value))
              && pools[lease.pool].tunnel.value.container == lease.container
              && forall s | s in pools.Values && s != pools[lease.pool] :: s.tunnel == old(s.tunnel)
  {
    var lease := registry.Lookup(leaseId, secret, now);
    if lease.None? || lease.value.pool !in pools {
      return None;
    }
    var state := pools[lease.value.pool];
    assert state in pools.Values;
    var tunnel := state.AcquireContainer(lease.value.container);
    if tunnel.None? {
      return None;
    }
    if outcome != Connected {
      ReserveAndRelease(old(state.tunnel).value);
      state.Release();
      return None;
    }
    var c := new ReleaseConn(state);
    return Some(c);
  }

  /** Issue and dial: a lease issued for an acquisition connects exactly with its secret,
      before issue time plus TTL, while the acquisition's own pool holds the
      acquisition's own container hot; it then holds one more reservation there. */
  method IssueThenDial(registry: Registry, pools: map<Id, PoolState>, acq: Acquisition, leaseId: Id, secret: string,
                       issuedAt: int, given: string, now: int, outcome: DialOutcome)
    returns (conn: Option<ReleaseConn>)
    requires leaseId !in registry.leases
    requires forall p | p in pools :: pools[p].tunnel.Some? ==> pools[p].tunnel.value.inFlight >= 0
    modifies registry`leases, pools.Values`tunnel
    ensures conn.Some? <==>
              && acq.tunnel.Some? && acq.pool.text != "" && acq.tunnel.value.container.text != ""
              && acq.tunnel.value.url.Some? && acq.tunnel.value.gateway != ""
              && registry.digest(given) == registry.digest(secret) && now < issuedAt + registry.ttl
              && acq.pool in pools && old(pools[acq.pool].tunnel).Some?
              && old(pools[acq.pool].tunnel).value.state == Hot
              && old(pools[acq.pool].tunnel).value.container == acq.tunnel.value.container
              && outcome == Connected
    ensures conn.Some? ==>
              && conn.value.pool == pools[acq.pool] && !conn.value.released
              && pools[acq.pool].tunnel ==
                 Some(old(pools[acq.pool].tunnel).value.(inFlight := old(pools[acq.pool].tunnel).value.inFlight + 1))
  {
    var _ := registry.Issue(acq, leaseId, secret, issuedAt);
    conn := DialLease(registry, pools, leaseId, given, now, outcome);
  }
}
