/** Which pool and which tunnel serves a request: the hot path, the one hop to the
    fallback, and what marks take out of service. */
module PoolRoutes {
  import opened Wrappers
  import opened Tunnels
  import opened PoolMachine

  // ---------- The hot path ----------

  /** The tunnel a caller with this exclusion may be handed. */
  predicate Servable(slot: Option<Tunnel>, exclude: Option<Url>) {
    && slot.Some? && slot.value.state == Hot
    && !(exclude.Some? && slot.value.url.Some? && slot.value.url.value.scheme == exclude.value.scheme
         && slot.value.url.value.host == exclude.value.host)
  }

  /** A look at the slot, before or under the mutex, serves the request exactly when the
      tunnel is hot and its URL differs from the excluded one in scheme or host; the
      request then gets that very container, and otherwise nothing changes but its phase. */
  lemma TryExactly(pools: Pools, s: State, r: nat)
    requires r in s.reqs && (s.reqs[r].phase.Fast? || s.reqs[r].phase.Recheck?) && Known(s.shared, s.reqs[r].phase.pool)
    ensures Next(pools, s, Step(r, Try)).Some? && r in Next(pools, s, Step(r, Try)).value.reqs
    ensures var q, t := s.reqs[r], Next(pools, s, Step(r, Try)).value;
            var p, f := q.phase.pool, t.reqs[r].phase;
            if Servable(s.shared.slots[p], q.exclude) then
              && f == (if q.phase.Fast? then Done(Some(Acq(p, s.shared.slots[p].value.container)))
                       else Unlocking(p, Some(Acq(p, s.shared.slots[p].value.container))))
              && t.shared.slots == s.shared.slots[p := Some(s.shared.slots[p].value.(inFlight := s.shared.slots[p].value.inFlight + 1))]
              && t.shared.out == s.shared.out[p := s.shared.out[p] + multiset{s.shared.slots[p].value.container}]
            else
              f == (if q.phase.Fast? then Queued(p) else Picking(p)) && t.shared == s.shared
  {
  }

  // ---------- The one hop ----------

  /** Pool f is what p falls back to. */
  predicate FallsBackTo(pools: Pools, p: Id, f: Id) { p in pools && pools[p] == Some(f) && f in pools }

  /** A request that gives a pool up goes on at another one exactly when it allows
      fallback, has not hopped yet and the pool has a known fallback, whatever it
      excludes; otherwise it ends empty-handed. */
  lemma HopExactly(pools: Pools, s: State, r: nat, f: Id)
    requires r in s.reqs && s.reqs[r].phase.Unlocking? && s.reqs[r].phase.result.None?
    ensures Next(pools, s, Step(r, Unlock)).Some? && r in Next(pools, s, Step(r, Unlock)).value.reqs
    ensures var q, q' := s.reqs[r], Next(pools, s, Step(r, Unlock)).value.reqs[r];
            && (q'.phase == Fast(f) <==> q.fallbackOk && !q.escalated && FallsBackTo(pools, q.phase.pool, f))
            && (q'.phase == Done(None) <==> !(q.fallbackOk && !q.escalated && exists g :: FallsBackTo(pools, q.phase.pool, g)))
            && SameAsk(q, q')
  {
    var q := s.reqs[r];
    if q.phase.pool in pools && pools[q.phase.pool].Some? && pools[q.phase.pool].value in pools {
      assert FallsBackTo(pools, q.phase.pool, pools[q.phase.pool].value);
    }
  }

  /** What the caller asked for never changes. */
  predicate SameAsk(q: Request, q': Request) {
    q'.exclude == q.exclude && q'.excludedCell == q.excludedCell && q'.fallbackOk == q.fallbackOk && q'.start == q.start
  }

  /** The pool a request is at. */
  function At(pools: Pools, q: Request): Id {
    if q.escalated && q.start in pools && pools[q.start].Some? then pools[q.start].value else q.start
  }

  ghost predicate OnRoute(pools: Pools, q: Request) {
    && (q.escalated ==> q.fallbackOk && exists f :: FallsBackTo(pools, q.start, f))
    && (!q.phase.Done? ==> q.phase.pool == At(pools, q))
    && ((q.phase.Done? || q.phase.Unlocking?) && q.phase.result.Some? ==> q.phase.result.value.pool == At(pools, q))
    && (q.phase == Done(None) ==> q.escalated || !q.fallbackOk || !exists f :: FallsBackTo(pools, q.start, f))
  }

  lemma RouteStep(pools: Pools, s: State, r: nat, e: ReqEvent)
    requires NextStep(pools, s, r, e).Some? && r in s.reqs && OnRoute(pools, s.reqs[r])
    ensures var t := NextStep(pools, s, r, e).value;
            r in t.reqs && OnRoute(pools, t.reqs[r]) && SameAsk(s.reqs[r], t.reqs[r])
  {
    var q := s.reqs[r];
    if e.Unlock? && q.phase.Unlocking? { RouteUnlock(pools, s, r); }
  }

  lemma RouteUnlock(pools: Pools, s: State, r: nat)
    requires r in s.reqs && s.reqs[r].phase.Unlocking? && OnRoute(pools, s.reqs[r]) && NextStep(pools, s, r, Unlock).Some?
    ensures var t := NextStep(pools, s, r, Unlock).value;
            r in t.reqs && OnRoute(pools, t.reqs[r]) && SameAsk(s.reqs[r], t.reqs[r])
  {
    var q := s.reqs[r];
    if q.start in pools && pools[q.start].Some? && pools[q.start].value in pools {
      assert FallsBackTo(pools, q.start, pools[q.start].value);
    }
  }

  /** Request r exists, is on its route and asks for this. */
  ghost predicate Asks(pools: Pools, s: State, r: nat, asked: Request) {
    r in s.reqs && OnRoute(pools, s.reqs[r]) && SameAsk(asked, s.reqs[r])
  }

  lemma AsksStep(pools: Pools, s: State, e: Event, r: nat, asked: Request)
    requires Asks(pools, s, r, asked) && Next(pools, s, e).Some?
    ensures Asks(pools, Next(pools, s, e).value, r, asked)
  {
    if e.Step? && e.r == r {
      RouteStep(pools, s, r, e.e);
    } else if !e.Step? {
      OtherFrame(pools, s, e);
    }
  }

  lemma AsksRun(pools: Pools, s: State, es: seq<Event>, r: nat, asked: Request)
    requires Asks(pools, s, r, asked) && Exec(pools, s, es).Some?
    ensures Asks(pools, Exec(pools, s, es).value, r, asked)
  {
    forall x, e | Asks(pools, x, r, asked) && Next(pools, x, e).Some? ensures Asks(pools, Next(pools, x, e).value, r, asked) {
      AsksStep(pools, x, e, r, asked);
    }
    ExecKeeps(pools, s, es, x => Asks(pools, x, r, asked), e => true);
  }

  /** What a request for pool p has come to: empty-handed only after the fallback was
      tried too, if it allows one and p has a known one; what it gets comes from p, or
      from that fallback after a hop. */
  ghost predicate Answered(pools: Pools, q: Request, p: Id, exclude: Option<Url>, fallbackOk: bool) {
    && q.exclude == exclude && q.fallbackOk == fallbackOk && q.start == p
    && (q.escalated ==> fallbackOk && exists f :: FallsBackTo(pools, p, f))
    && (q.phase == Done(None) && fallbackOk && (exists f :: FallsBackTo(pools, p, f)) ==> q.escalated)
    && (q.phase.Done? && q.phase.result.Some? ==>
          if q.escalated then FallsBackTo(pools, p, q.phase.result.value.pool) else q.phase.result.value.pool == p)
  }

  /** A request keeps what it asked for and is answered so, along any run after its
      start, whatever it excludes. */
  lemma FallbackExact(pools: Pools, s: State, r: nat, p: Id, exclude: Option<Url>, fallbackOk: bool, es: seq<Event>)
    requires r !in s.reqs
    requires Next(pools, s, Start(r, p, exclude, fallbackOk)).Some?
             && Exec(pools, Next(pools, s, Start(r, p, exclude, fallbackOk)).value, es).Some?
    ensures var t := Exec(pools, Next(pools, s, Start(r, p, exclude, fallbackOk)).value, es).value;
            r in t.reqs && Answered(pools, t.reqs[r], p, exclude, fallbackOk)
  {
    var u := Next(pools, s, Start(r, p, exclude, fallbackOk)).value;
    assert Asks(pools, u, r, u.reqs[r]);
    AsksRun(pools, u, es, r, u.reqs[r]);
    RouteMeans(pools, Exec(pools, u, es).value.reqs[r]);
  }

  /** The same for a request that excludes the cell of a lease it looked up. */
  lemma LeaseFallbackExact(pools: Pools, s: State, r: nat, p: Id, rec: Lease, fallbackOk: bool, es: seq<Event>)
    requires r !in s.reqs && rec in s.looked
    requires Next(pools, s, StartExcludingLease(r, p, rec, fallbackOk)).Some?
             && Exec(pools, Next(pools, s, StartExcludingLease(r, p, rec, fallbackOk)).value, es).Some?
    ensures var t := Exec(pools, Next(pools, s, StartExcludingLease(r, p, rec, fallbackOk)).value, es).value;
            && r in t.reqs && Answered(pools, t.reqs[r], p, Some(rec.url), fallbackOk)
            && t.reqs[r].excludedCell == Some(rec.container)
  {
    var u := Next(pools, s, StartExcludingLease(r, p, rec, fallbackOk)).value;
    assert Asks(pools, u, r, u.reqs[r]);
    AsksRun(pools, u, es, r, u.reqs[r]);
    RouteMeans(pools, Exec(pools, u, es).value.reqs[r]);
  }

  lemma RouteMeans(pools: Pools, q: Request)
    requires OnRoute(pools, q)
    ensures q.phase.Done? && q.phase.result.Some? ==>
              if q.escalated then FallsBackTo(pools, q.start, q.phase.result.value.pool)
              else q.phase.result.value.pool == q.start
  {
  }

  // ---------- Marks ----------

  /** MarkFailed takes the pool's tunnel out of service exactly when it was built from
      that configuration, for good, and touches nothing else. */
  lemma MarkFailedExactly(pools: Pools, s: State, p: Id, conf: Id, q: Id, c: Id)
    requires Reachable(pools, s) && Known(s.shared, p)
    ensures Next(pools, s, MarkFailed(p, conf)).Some?
    ensures var t := Next(pools, s, MarkFailed(p, conf)).value;
            && (HotAt(t.shared, q, c) <==> HotAt(s.shared, q, c) && !(q == p && s.shared.slots[p].value.conf == conf))
            && (HotAt(s.shared, p, c) && s.shared.slots[p].value.conf == conf ==> Gone(t, c))
            && t.shared.out == s.shared.out
  {
    MarkFailedHot(pools, s, p, conf, q, c);
    if HotAt(s.shared, p, c) && s.shared.slots[p].value.conf == conf {
      MarkFailedHot(pools, s, p, conf, p, c);
      ReachableInv(pools, s);
      LeavingIsGone(pools, s, MarkFailed(p, conf), p, c);
    }
  }

  lemma MarkFailedHot(pools: Pools, s: State, p: Id, conf: Id, q: Id, c: Id)
    requires Known(s.shared, p)
    ensures Next(pools, s, MarkFailed(p, conf)).Some?
    ensures var t := Next(pools, s, MarkFailed(p, conf)).value;
            && (HotAt(t.shared, q, c) <==> HotAt(s.shared, q, c) && !(q == p && s.shared.slots[p].value.conf == conf))
            && t.shared.out == s.shared.out
  {
  }

  /** A tunnel marked failed is left to the idle loop: no health reap starts on it, an
      idle one exactly when its count is zero. */
  lemma FailedLeftToIdle(pools: Pools, s: State, p: Id, k: nat)
    requires Reachable(pools, s) && p in pools && Known(s.shared, p) && s.shared.slots[p].Some? && k !in s.killers
    ensures var conf := s.shared.slots[p].value.conf;
            && Next(pools, s, MarkFailed(p, conf)).Some?
            && Next(pools, Next(pools, s, MarkFailed(p, conf)).value, BeginReap(k, p, false)).None?
            && (Next(pools, Next(pools, s, MarkFailed(p, conf)).value, BeginReap(k, p, true)).Some? <==>
                  s.shared.slots[p].value.inFlight == 0)
  {
    InFlightBounds(pools, s, p);
  }

  /** A reaper's mark takes out of service exactly the container its snapshot saw. */
  lemma MarkReapingExactly(pools: Pools, s: State, k: nat, q: Id, c: Id)
    requires Reachable(pools, s) && k in s.killers && s.killers[k].Marking?
    ensures Next(pools, s, MarkReaping(k)).Some?
    ensures HotAt(Next(pools, s, MarkReaping(k)).value.shared, q, c) <==> HotAt(s.shared, q, c) && c != s.killers[k].container
  {
    ReachableInv(pools, s);
    assert KillerOk(s.shared, s.killers[k]);
    MarkReapingHot(pools, s, k, q, c);
  }

  lemma MarkReapingHot(pools: Pools, s: State, k: nat, q: Id, c: Id)
    requires k in s.killers && s.killers[k].Marking? && Known(s.shared, s.killers[k].pool)
    requires q in s.shared.slots && q != s.killers[k].pool ==> !HotAt(s.shared, q, s.killers[k].container)
    ensures Next(pools, s, MarkReaping(k)).Some?
    ensures HotAt(Next(pools, s, MarkReaping(k)).value.shared, q, c) <==> HotAt(s.shared, q, c) && c != s.killers[k].container
  {
  }

  // ---------- What a holder can do ----------

  /** Whoever holds a container can give it back, whatever became of its tunnel, and can
      have a lease issued for it as long as the cell has a URL; the lease then names that
      pool, container and URL. */
  lemma HolderMay(pools: Pools, s: State, p: Id, c: Id, l: Id)
    requires Reachable(pools, s) && p in s.shared.out
    ensures Next(pools, s, Release(p, c)).Some? <==> c in s.shared.out[p]
    ensures c in s.shared.out[p] && c in s.shared.born ==>
              var t := Next(pools, s, IssueLease(l, p, c));
              && (t.Some? <==> s.shared.born[c].Some?)
              && (t.Some? ==> l in t.value.leases && t.value.leases[l].pool == p && t.value.leases[l].container == c
                              && Some(t.value.leases[l].url) == s.shared.born[c])
  {
    ReachableInv(pools, s);
  }
}
