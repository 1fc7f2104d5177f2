/** Acquirers, leases, reaper and destroy calls over the pools: every step is
    one critical section, or the start or end of a Spawn or Kill. */
module PoolMachine {
  import opened Wrappers
  import opened Tunnels

  /** What a successful acquisition hands out. */
  datatype Acq = Acq(pool: Id, container: Id)

  // ---------- State ----------

  /** The pools' slots, plus the history the properties speak about. */
  datatype Shared = Shared(
    slots: map<Id, Option<Tunnel>>,
    born: map<Id, Option<Url>>,        // every container ever spawned, with its URL
    out: map<Id, multiset<Id>>,        // outstanding acquisitions, by pool
    acquired: map<Id, nat>,            // acquisitions so far, by pool
    outlived: set<Id>,                 // pools with acquisitions that may have outlived their tunnel
    published: map<Id, seq<Id>>        // containers published, by pool, in order
  )

  /** Where a request stands inside acquireFromPool. */
  datatype Phase =
    | Fast(pool: Id)                     // first acquire, no lock held
    | Queued(pool: Id)                   // waiting for the pool's spawn mutex
    | Recheck(pool: Id)                  // mutex held, second acquire
    | Picking(pool: Id)                  // mutex held, about to pickConf
    | InSpawn(pool: Id, conf: Id)        // mutex held, spawner running
    | Publishing(pool: Id, tunnel: Tunnel)
    | Unlocking(pool: Id, result: Option<Acq>)
    | Done(result: Option<Acq>)

  datatype Request = Request(
    exclude: Option<Url>,
    excludedCell: Option<Id>,            // the leased cell behind `exclude`, if a lease named it
    fallbackOk: bool,
    escalated: bool,                     // already on the fallback pool
    start: Id,                           // history: the pool asked for
    phase: Phase
  )

  /** killTunnel, DestroyCell or Close at work on a pool, for the container its
      snapshot saw there; `seen` and `pubs` are the pool's acquisitions and
      publications by then. */
  datatype Killer =
    | Marking(pool: Id, container: Id, idle: bool, seen: nat, pubs: nat) // reapIdle or checkHealth, before the mark
    | Killing(pool: Id, container: Id, marked: bool, pubs: nat)          // Kill next; Close does not mark
    | Clearing(pool: Id, container: Id, pubs: nat)                       // Kill returned, setTunnel(nil) next

  datatype Lease = Lease(pool: Id, container: Id, url: Url)

  datatype State = State(
    shared: Shared,
    locks: map<Id, nat>,                 // held spawn mutexes, with the request holding each
    reqs: map<nat, Request>,
    killers: map<nat, Killer>,
    killed: set<Id>,                     // containers Kill was called on
    leases: map<Id, Lease>,
    looked: set<Lease>                   // records that a lookup has returned to some caller
  )

  /** Pool names with their optional fallback. */
  type Pools = map<Id, Option<Id>>

  function Init(pools: Pools): State {
    State(Shared(map p | p in pools :: None, map[], map p | p in pools :: multiset{}, map p | p in pools :: 0, {},
                 map p | p in pools :: []),
          map[], map[], map[], {}, map[], {})
  }

  // ---------- Slot operations ----------

  /** An acquisition of the tunnel in pool p. */
  function Take(h: Shared, p: Id): Shared
    requires p in h.slots && h.slots[p].Some? && p in h.out && p in h.acquired
  {
    h.(slots := h.slots[p := Some(Taken(h.slots[p].value))],
       out := h.out[p := h.out[p] + multiset{h.slots[p].value.container}],
       acquired := h.acquired[p := h.acquired[p] + 1])
  }

  /** setTunnel: the slot is overwritten, whatever it held. */
  function Overwrite(h: Shared, p: Id, t: Option<Tunnel>): Shared
    requires p in h.out
  {
    h.(slots := h.slots[p := t], outlived := if h.out[p] == multiset{} then h.outlived else h.outlived + {p})
  }

  /** The end of spawnFromState: InFlight is 1 before the single publish. */
  function Publish(h: Shared, p: Id, t: Tunnel): Shared
    requires p in h.out && p in h.acquired && p in h.published
  {
    var w := Overwrite(h, p, Some(t));
    w.(out := w.out[p := w.out[p] + multiset{t.container}], acquired := w.acquired[p := w.acquired[p] + 1],
       published := w.published[p := w.published[p] + [t.container]])
  }

  /** Release: keyed by pool; the caller gives one outstanding acquisition back. */
  function GiveBack(h: Shared, p: Id, c: Id): Shared
    requires p in h.slots && p in h.out
  {
    var rest := h.out[p] - multiset{c};
    h.(slots := h.slots[p := Released(h.slots[p])], out := h.out[p := rest],
       outlived := if rest == multiset{} then h.outlived - {p} else h.outlived)
  }

  // ---------- Requests ----------

  datatype ReqEvent = Try | Lock | PickFails | Pick(conf: Id) | SpawnFails | SpawnOk(container: Id, url: Option<Url>, gateway: string)
                    | DoPublish | Unlock

  predicate Known(h: Shared, p: Id) { p in h.slots && p in h.out && p in h.acquired && p in h.published }

  /** One step of request q; returns the slots and q's next phase. The mutex
      itself is handled in Next. */
  function NextReq(h: Shared, q: Request, e: ReqEvent): Option<(Shared, Phase)> {
    match e
    case Try =>
      if (q.phase.Fast? || q.phase.Recheck?) && Known(h, q.phase.pool) then
        var p := q.phase.pool;
        if Refuses(h.slots[p], q.exclude).None? then
          var got := Some(Acq(p, h.slots[p].value.container));
          Some((Take(h, p), if q.phase.Fast? then Done(got) else Unlocking(p, got)))
        else Some((h, if q.phase.Fast? then Queued(p) else Picking(p)))
      else None
    case Lock => if q.phase.Queued? then Some((h, Recheck(q.phase.pool))) else None
    case PickFails => if q.phase.Picking? then Some((h, Unlocking(q.phase.pool, None))) else None
    case Pick(conf) => if q.phase.Picking? then Some((h, InSpawn(q.phase.pool, conf))) else None
    case SpawnFails => if q.phase.InSpawn? then Some((h, Unlocking(q.phase.pool, None))) else None
    case SpawnOk(c, url, gateway) =>
      if q.phase.InSpawn? && c !in h.born then
        Some((h.(born := h.born[c := url]),
              Publishing(q.phase.pool, Tunnel(c, q.phase.conf, url, gateway, Hot, 1))))
      else None
    case DoPublish =>
      if q.phase.Publishing? && Known(h, q.phase.pool) then
        Some((Publish(h, q.phase.pool, q.phase.tunnel),
              Unlocking(q.phase.pool, Some(Acq(q.phase.pool, q.phase.tunnel.container)))))
      else None
    case Unlock => if q.phase.Unlocking? then Some((h, Done(q.phase.result))) else None
  }

  /** Whether the phase holds the spawn mutex of its pool. */
  predicate Locked(f: Phase) {
    f.Recheck? || f.Picking? || f.InSpawn? || f.Publishing? || f.Unlocking?
  }

  /** After a failed first pool: one hop to the fallback, if asked and known. */
  function Escalate(pools: Pools, p: Id, q: Request): Request {
    if q.phase == Done(None) && q.fallbackOk && !q.escalated && p in pools && pools[p].Some? && pools[p].value in pools
    then q.(escalated := true, phase := Fast(pools[p].value))
    else q
  }

  // ---------- The whole machine ----------

  datatype Event =
    | Start(r: nat, pool: Id, exclude: Option<Url>, fallbackOk: bool)
    | StartExcludingLease(r: nat, pool: Id, record: Lease, fallbackOk: bool)
    | Step(r: nat, e: ReqEvent)
    | Release(pool: Id, container: Id)
    | IssueLease(lease: Id, pool: Id, container: Id)
    | DropLease(lease: Id)                     // expiry, at any time
    | LookupLease(lease: Id)
    | AcquireLease(record: Lease)              // reserve, for a record looked up before
    | MarkFailed(pool: Id, conf: Id)
    | BeginReap(k: nat, pool: Id, idle: bool)  // snapshot of reapIdle or checkHealth
    | MarkReaping(k: nat)
    | BeginClose(k: nat, pool: Id)             // snapshot of Close
    | Kill(k: nat)
    | KillListed(container: Id)                // Kill by DestroyCell or the orphan pass: any listed container
    | BeginClear(k: nat, pool: Id)             // DestroyCell found the slot of the container it killed
    | Clear(k: nat)

  function NextShared(h: Shared, e: Event): Shared
    requires e.Release? || e.MarkFailed?
    requires Known(h, e.pool)
  {
    match e
    case Release(p, c) => GiveBack(h, p, c)
    case MarkFailed(p, conf) => h.(slots := h.slots[p := Condemned(h.slots[p], conf)])
  }

  function NextKill(s: State, e: Event): Option<State> {
    match e
    case BeginReap(k, p, idle) =>
      if k !in s.killers && Known(s.shared, p) && s.shared.slots[p].Some?
         && (if idle then s.shared.slots[p].value.inFlight <= 0 else s.shared.slots[p].value.state.Hot?) then
        Some(s.(killers := s.killers[k := Marking(p, s.shared.slots[p].value.container, idle, s.shared.acquired[p],
                                                  |s.shared.published[p]|)]))
      else None
    case MarkReaping(k) =>
      if k in s.killers && s.killers[k].Marking? && Known(s.shared, s.killers[k].pool) then
        var p, c := s.killers[k].pool, s.killers[k].container;
        Some(s.(shared := s.shared.(slots := s.shared.slots[p := Reaped(s.shared.slots[p], c)]),
                killers := s.killers[k := Killing(p, c, true, s.killers[k].pubs)]))
      else None
    case BeginClose(k, p) =>
      if k !in s.killers && Known(s.shared, p) && s.shared.slots[p].Some? then
        Some(s.(killers := s.killers[k := Killing(p, s.shared.slots[p].value.container, false, |s.shared.published[p]|)]))
      else None
    case Kill(k) =>
      if k in s.killers && s.killers[k].Killing? then
        Some(s.(killers := s.killers[k := Clearing(s.killers[k].pool, s.killers[k].container, s.killers[k].pubs)],
                killed := s.killed + {s.killers[k].container}))
      else None
    case KillListed(c) => Some(s.(killed := s.killed + {c}))
    case BeginClear(k, p) =>
      if k !in s.killers && Known(s.shared, p) && s.shared.slots[p].Some?
         && s.shared.slots[p].value.container in s.killed then
        Some(s.(killers := s.killers[k := Clearing(p, s.shared.slots[p].value.container, |s.shared.published[p]|)]))
      else None
    case Clear(k) =>
      if k in s.killers && s.killers[k].Clearing? && Known(s.shared, s.killers[k].pool) then
        Some(s.(shared := Overwrite(s.shared, s.killers[k].pool, None), killers := s.killers - {k}))
      else None
    case _ => None
  }

  function NextLease(s: State, e: Event): Option<State> {
    match e
    case IssueLease(l, p, c) =>
      if Known(s.shared, p) && c in s.shared.out[p] && c in s.shared.born && s.shared.born[c].Some? then
        Some(s.(leases := s.leases[l := Lease(p, c, s.shared.born[c].value)]))
      else None
    case DropLease(l) => Some(s.(leases := s.leases - {l}))
    case LookupLease(l) => if l in s.leases then Some(s.(looked := s.looked + {s.leases[l]})) else None
    case AcquireLease(rec) =>
      if rec in s.looked && Known(s.shared, rec.pool) && Holds(s.shared.slots[rec.pool], rec.container) then
        Some(s.(shared := Take(s.shared, rec.pool)))
      else None
    case _ => None
  }

  function NextStep(pools: Pools, s: State, r: nat, e: ReqEvent): Option<State> {
    if r !in s.reqs || (e.Lock? && s.reqs[r].phase.Queued? && s.reqs[r].phase.pool in s.locks) then None
    else
      var q := s.reqs[r];
      match NextReq(s.shared, q, e)
      case None => None
      case Some((h, f)) =>
        var locks := if e.Lock? then s.locks[q.phase.pool := r]
                     else if e.Unlock? then s.locks - {q.phase.pool}
                     else s.locks;
        var q' := if e.Unlock? then Escalate(pools, q.phase.pool, q.(phase := f)) else q.(phase := f);
        Some(s.(shared := h, locks := locks, reqs := s.reqs[r := q']))
  }

  function Next(pools: Pools, s: State, e: Event): Option<State> {
    match e
    case Start(r, p, exclude, fb) =>
      if r !in s.reqs then
        Some(s.(reqs := s.reqs[r := Request(exclude, None, fb, false, p, if p in pools then Fast(p) else Done(None))]))
      else None
    case StartExcludingLease(r, p, rec, fb) =>
      if r !in s.reqs && rec in s.looked then
        Some(s.(reqs := s.reqs[r := Request(Some(rec.url), Some(rec.container), fb, false, p,
                                            if p in pools then Fast(p) else Done(None))]))
      else None
    case Step(r, ev) => NextStep(pools, s, r, ev)
    case Release(p, c) => if Known(s.shared, p) && c in s.shared.out[p] then Some(s.(shared := NextShared(s.shared, e))) else None
    case MarkFailed(p, conf) => if Known(s.shared, p) then Some(s.(shared := NextShared(s.shared, e))) else None
    case IssueLease(_, _, _) => NextLease(s, e)
    case DropLease(_) => NextLease(s, e)
    case LookupLease(_) => NextLease(s, e)
    case AcquireLease(_) => NextLease(s, e)
    case BeginReap(_, _, _) => NextKill(s, e)
    case MarkReaping(_) => NextKill(s, e)
    case BeginClose(_, _) => NextKill(s, e)
    case Kill(_) => NextKill(s, e)
    case KillListed(_) => NextKill(s, e)
    case BeginClear(_, _) => NextKill(s, e)
    case Clear(_) => NextKill(s, e)
  }

  function Exec(pools: Pools, s: State, es: seq<Event>): Option<State>
    decreases |es|
  {
    if es == [] then Some(s)
    else match Next(pools, s, es[0])
      case None => None
      case Some(t) => Exec(pools, t, es[1..])
  }

  // ---------- How the slots move ----------

  /** The ways an event can change the shared part. */
  datatype Move =
    | Stay
    | Bear(container: Id, url: Option<Url>)
    | TakeIn(pool: Id)
    | GiveIn(pool: Id, container: Id)
    | PublishIn(pool: Id, tunnel: Tunnel)
    | ClearIn(pool: Id)
    | Demote(pool: Id, to: TunnelState)      // the tunnel stops being hot

  ghost predicate Moves(h: Shared, m: Move, h': Shared) {
    match m
    case Stay => h' == h
    case Bear(c, url) => c !in h.born && h' == h.(born := h.born[c := url])
    case TakeIn(p) => Known(h, p) && h.slots[p].Some? && h.slots[p].value.state.Hot? && h' == Take(h, p)
    case GiveIn(p, c) => Known(h, p) && c in h.out[p] && h' == GiveBack(h, p, c)
    case PublishIn(p, t) => Known(h, p) && h' == Publish(h, p, t)
    case ClearIn(p) => Known(h, p) && h' == Overwrite(h, p, None)
    case Demote(p, to) =>
      Known(h, p) && h.slots[p].Some? && !to.Hot? && h' == h.(slots := h.slots[p := Some(h.slots[p].value.(state := to))])
  }

  function ReqMove(h: Shared, q: Request, e: ReqEvent): Move {
    match e
    case Try => if (q.phase.Fast? || q.phase.Recheck?) && q.phase.pool in h.slots && Refuses(h.slots[q.phase.pool], q.exclude).None?
                then TakeIn(q.phase.pool) else Stay
    case SpawnOk(c, url, _) => Bear(c, url)
    case DoPublish => if q.phase.Publishing? then PublishIn(q.phase.pool, q.phase.tunnel) else Stay
    case _ => Stay
  }

  function MoveOf(s: State, e: Event): Move {
    match e
    case Step(r, ev) => if r in s.reqs then ReqMove(s.shared, s.reqs[r], ev) else Stay
    case Release(p, c) => GiveIn(p, c)
    case AcquireLease(rec) => TakeIn(rec.pool)
    case MarkFailed(p, conf) =>
      if p in s.shared.slots && s.shared.slots[p].Some? && s.shared.slots[p].value.conf == conf then Demote(p, Unhealthy) else Stay
    case MarkReaping(k) =>
      if k in s.killers && s.killers[k].Marking? && s.killers[k].pool in s.shared.slots
         && s.shared.slots[s.killers[k].pool].Some?
         && s.shared.slots[s.killers[k].pool].value.container == s.killers[k].container
      then Demote(s.killers[k].pool, Reaping) else Stay
    case Clear(k) => if k in s.killers then ClearIn(s.killers[k].pool) else Stay
    case _ => Stay
  }

  lemma ReqMoves(h: Shared, q: Request, e: ReqEvent)
    requires NextReq(h, q, e).Some?
    ensures Moves(h, ReqMove(h, q, e), NextReq(h, q, e).value.0)
  {
  }

  /** Every event moves the slots in one of these ways. */
  lemma EventMoves(pools: Pools, s: State, e: Event)
    requires Next(pools, s, e).Some?
    ensures Moves(s.shared, MoveOf(s, e), Next(pools, s, e).value.shared)
  {
    match e
    case Step(r, ev) => ReqMoves(s.shared, s.reqs[r], ev);
    case MarkFailed(p, conf) => SlotSame(s.shared, p);
    case MarkReaping(k) => SlotSame(s.shared, s.killers[k].pool);
    case _ =>
  }

  lemma SlotSame(h: Shared, p: Id)
    requires p in h.slots
    ensures h.(slots := h.slots[p := h.slots[p]]) == h
  {
    assert h.slots[p := h.slots[p]] == h.slots;
  }

  /** What an event that is no request step may do outside the slots: add one
      fresh request, or one killer of the pool it names. */
  ghost predicate OtherRel(s: State, e: Event, t: State) {
    && t.locks == s.locks
    && (forall r | r in s.reqs :: r in t.reqs && t.reqs[r] == s.reqs[r])
    && (forall r | r in t.reqs && r !in s.reqs :: FreshReq(s, e, t.reqs[r]))
    && (forall k | k in t.killers && k in s.killers ::
          t.killers[k] == s.killers[k] || Follows(s.killers[k], t.killers[k], t.shared))
    && (forall k | k in t.killers && k !in s.killers :: FreshKiller(s, e, t.killers[k]))
  }

  ghost predicate FreshReq(s: State, e: Event, q: Request) {
    && (q.phase.Fast? || q.phase == Done(None))
    && match e
       case Start(_, _, exclude, _) => q.exclude == exclude && q.excludedCell.None?
       case StartExcludingLease(_, _, rec, _) =>
         rec in s.looked && q.exclude == Some(rec.url) && q.excludedCell == Some(rec.container)
       case _ => false
  }

  /** A killer's own next stage: marked, unless the slot holds something else, or killed. */
  ghost predicate Follows(k: Killer, k': Killer, h: Shared) {
    || (k.Marking? && k' == Killing(k.pool, k.container, true, k.pubs) && !HotAt(h, k.pool, k.container))
    || (k.Killing? && k' == Clearing(k.pool, k.container, k.pubs))
  }

  ghost predicate FreshKiller(s: State, e: Event, k: Killer) {
    match e
    case BeginReap(_, p, idle) =>
      && Known(s.shared, p) && s.shared.slots[p].Some? && (idle ==> s.shared.slots[p].value.inFlight <= 0)
      && k == Marking(p, s.shared.slots[p].value.container, idle, s.shared.acquired[p], |s.shared.published[p]|)
    case BeginClose(_, p) =>
      && Known(s.shared, p) && s.shared.slots[p].Some?
      && k == Killing(p, s.shared.slots[p].value.container, false, |s.shared.published[p]|)
    case BeginClear(_, p) =>
      && Known(s.shared, p) && s.shared.slots[p].Some?
      && k == Clearing(p, s.shared.slots[p].value.container, |s.shared.published[p]|)
    case _ => false
  }

  lemma OtherFrame(pools: Pools, s: State, e: Event)
    requires !e.Step? && Next(pools, s, e).Some?
    ensures OtherRel(s, e, Next(pools, s, e).value)
  {
    if e.BeginReap? || e.MarkReaping? || e.BeginClose? || e.Kill? || e.KillListed? || e.BeginClear? || e.Clear? {
      KillFrame(s, e);
    }
  }

  lemma KillFrame(s: State, e: Event)
    requires NextKill(s, e).Some?
    ensures OtherRel(s, e, NextKill(s, e).value)
  {
  }

  // ---------- In-flight conservation ----------

  ghost predicate FlightAt(h: Shared, p: Id)
    requires Known(h, p)
  {
    && (h.slots[p].Some? ==> 0 <= h.slots[p].value.inFlight <= |h.out[p]|)
    && (p !in h.outlived ==>
          if h.slots[p].Some? then h.slots[p].value.inFlight == |h.out[p]| else h.out[p] == multiset{})
  }

  ghost predicate InvFlight(h: Shared) {
    && h.slots.Keys == h.out.Keys == h.acquired.Keys == h.published.Keys
    && forall p | p in h.slots :: FlightAt(h, p)
  }

  /** Pools other than p are as they were. */
  ghost predicate SameElsewhere(h: Shared, h': Shared, p: Id) {
    && h.slots.Keys == h'.slots.Keys == h'.out.Keys == h'.acquired.Keys == h'.published.Keys
    && h.slots.Keys == h.out.Keys == h.acquired.Keys == h.published.Keys
    && (forall x | x in h.slots && x != p ::
          h'.slots[x] == h.slots[x] && h'.out[x] == h.out[x] && (x in h'.outlived <==> x in h.outlived))
  }

  lemma FlightElsewhere(h: Shared, h': Shared, p: Id)
    requires InvFlight(h) && SameElsewhere(h, h', p) && p in h.slots && FlightAt(h', p)
    ensures InvFlight(h')
  {
    forall x | x in h'.slots ensures FlightAt(h', x) {
      if x != p { assert FlightAt(h, x); }
    }
  }

  lemma FlightTake(h: Shared, p: Id)
    requires InvFlight(h) && p in h.slots && h.slots[p].Some?
    ensures InvFlight(Take(h, p))
  {
    assert FlightAt(h, p);
    FlightElsewhere(h, Take(h, p), p);
  }

  lemma FlightGive(h: Shared, p: Id, c: Id)
    requires InvFlight(h) && p in h.slots && c in h.out[p]
    ensures InvFlight(GiveBack(h, p, c))
  {
    assert FlightAt(h, p);
    assert |h.out[p] - multiset{c}| == |h.out[p]| - 1;
    FlightElsewhere(h, GiveBack(h, p, c), p);
  }

  lemma PublishElsewhere(h: Shared, p: Id, t: Tunnel)
    requires h.slots.Keys == h.out.Keys == h.acquired.Keys == h.published.Keys && p in h.slots
    ensures SameElsewhere(h, Publish(h, p, t), p)
  {
  }

  lemma FlightPublish(h: Shared, p: Id, t: Tunnel)
    requires InvFlight(h) && p in h.slots && t.inFlight == 1
    ensures InvFlight(Publish(h, p, t))
  {
    assert FlightAt(h, p);
    PublishElsewhere(h, p, t);
    FlightElsewhere(h, Publish(h, p, t), p);
  }

  lemma FlightClear(h: Shared, p: Id)
    requires InvFlight(h) && p in h.slots
    ensures InvFlight(Overwrite(h, p, None))
  {
    FlightElsewhere(h, Overwrite(h, p, None), p);
  }

  lemma FlightMoves(h: Shared, m: Move, h': Shared)
    requires InvFlight(h) && Moves(h, m, h')
    requires m.PublishIn? ==> m.tunnel.inFlight == 1
    ensures InvFlight(h')
  {
    match m
    case Stay =>
    case Bear(c, url) => assert forall p | p in h.slots :: FlightAt(h, p) ==> FlightAt(h', p);
    case TakeIn(p) => FlightTake(h, p);
    case GiveIn(p, c) => FlightGive(h, p, c);
    case PublishIn(p, t) => FlightPublish(h, p, t);
    case ClearIn(p) => FlightClear(h, p);
    case Demote(p, to) =>
      assert FlightAt(h, p);
      FlightElsewhere(h, h', p);
  }

  // ---------- Containers are published once ----------

  /** Slots hold born containers under their birth URL, never one in two slots. */
  ghost predicate CellsOf(h: Shared) {
    && (forall p | p in h.slots && h.slots[p].Some? ::
          h.slots[p].value.container in h.born && h.slots[p].value.url == h.born[h.slots[p].value.container])
    && (forall p, p' | p in h.slots && p' in h.slots && h.slots[p].Some? && h.slots[p'].Some? && p != p' ::
          h.slots[p].value.container != h.slots[p'].value.container)
  }

  /** A tunnel waiting to be published: hot, one acquisition, in no slot yet. */
  ghost predicate PubOk(h: Shared, t: Tunnel) {
    && t.container in h.born && t.url == h.born[t.container] && t.inFlight == 1 && t.state.Hot?
    && forall p | p in h.slots && h.slots[p].Some? :: h.slots[p].value.container != t.container
  }

  ghost predicate PubsOf(h: Shared, reqs: map<nat, Request>) {
    && (forall r | r in reqs && reqs[r].phase.Publishing? :: PubOk(h, reqs[r].phase.tunnel))
    && (forall r, r' | r in reqs && r' in reqs && reqs[r].phase.Publishing? && reqs[r'].phase.Publishing? && r != r' ::
          reqs[r].phase.tunnel.container != reqs[r'].phase.tunnel.container)
  }

  lemma CellsMove(h: Shared, m: Move, h': Shared)
    requires CellsOf(h) && Moves(h, m, h') && (m.PublishIn? ==> PubOk(h, m.tunnel))
    ensures CellsOf(h')
  {
  }

  /** A waiting tunnel is disturbed by no move but its own publication. */
  lemma PubMove(h: Shared, m: Move, h': Shared, t: Tunnel)
    requires Moves(h, m, h') && PubOk(h, t) && (m.PublishIn? ==> m.tunnel.container != t.container)
    ensures PubOk(h', t)
  {
  }

  lemma PubsKeptByStep(pools: Pools, s: State, r: nat, e: ReqEvent)
    requires CellsOf(s.shared) && PubsOf(s.shared, s.reqs) && NextStep(pools, s, r, e).Some?
    ensures PubsOf(NextStep(pools, s, r, e).value.shared, NextStep(pools, s, r, e).value.reqs)
  {
    var t := NextStep(pools, s, r, e).value;
    ReqMoves(s.shared, s.reqs[r], e);
    var m := ReqMove(s.shared, s.reqs[r], e);
    forall x | x in s.reqs && x != r && s.reqs[x].phase.Publishing? ensures PubOk(t.shared, s.reqs[x].phase.tunnel) {
      PubMove(s.shared, m, t.shared, s.reqs[x].phase.tunnel);
    }
  }

  lemma PublishesOk(s: State, e: Event)
    requires PubsOf(s.shared, s.reqs)
    ensures MoveOf(s, e).PublishIn? ==> PubOk(s.shared, MoveOf(s, e).tunnel)
  {
  }

  lemma CellsKept(pools: Pools, s: State, e: Event)
    requires CellsOf(s.shared) && PubsOf(s.shared, s.reqs) && Next(pools, s, e).Some?
    ensures CellsOf(Next(pools, s, e).value.shared)
    ensures PubsOf(Next(pools, s, e).value.shared, Next(pools, s, e).value.reqs)
  {
    var t := Next(pools, s, e).value;
    var m := MoveOf(s, e);
    EventMoves(pools, s, e);
    PublishesOk(s, e);
    CellsMove(s.shared, m, t.shared);
    if e.Step? {
      PubsKeptByStep(pools, s, e.r, e.e);
    } else {
      forall x | x in s.reqs && s.reqs[x].phase.Publishing? ensures PubOk(t.shared, s.reqs[x].phase.tunnel) {
        PubMove(s.shared, m, t.shared, s.reqs[x].phase.tunnel);
      }
    }
  }

  // ---------- Spawn locks ----------

  /** A mutex is held exactly by the request inside its pool's locked section. */
  ghost predicate InvLock(s: State) {
    && (forall p | p in s.locks :: s.locks[p] in s.reqs && Locked(s.reqs[s.locks[p]].phase)
                                   && s.reqs[s.locks[p]].phase.pool == p)
    && (forall r | r in s.reqs && Locked(s.reqs[r].phase) ::
          s.reqs[r].phase.pool in s.locks && s.locks[s.reqs[r].phase.pool] == r)
  }

  /** What a request step does to its own phase. */
  lemma PhaseStep(h: Shared, q: Request, e: ReqEvent)
    requires NextReq(h, q, e).Some?
    ensures var f := NextReq(h, q, e).value.1;
            && (e.Lock? <==> q.phase.Queued?) && (e.Unlock? <==> q.phase.Unlocking?)
            && (q.phase.Queued? ==> Locked(f) && f.pool == q.phase.pool)
            && (Locked(q.phase) && !e.Unlock? ==> Locked(f) && f.pool == q.phase.pool)
            && (Locked(f) ==> (q.phase.Queued? || Locked(q.phase)))
            && (e.Unlock? ==> f == Done(q.phase.result))
  {
  }

  lemma LockKept(pools: Pools, s: State, e: Event)
    requires InvLock(s) && Next(pools, s, e).Some?
    ensures InvLock(Next(pools, s, e).value)
  {
    if e.Step? { LockKeptByStep(pools, s, e.r, e.e); }
  }

  lemma LockKeptByStep(pools: Pools, s: State, r: nat, e: ReqEvent)
    requires InvLock(s) && NextStep(pools, s, r, e).Some?
    ensures InvLock(NextStep(pools, s, r, e).value)
  {
    PhaseStep(s.shared, s.reqs[r], e);
  }

  // ---------- Exclusion ----------

  /** Nothing this phase has obtained is container c. */
  predicate NotGiven(f: Phase, c: Id) {
    match f
    case Publishing(_, t) => t.container != c
    case Unlocking(_, got) => got.Some? ==> got.value.container != c
    case Done(got) => got.Some? ==> got.value.container != c
    case _ => true
  }

  ghost predicate Avoids(h: Shared, q: Request) {
    q.excludedCell.Some? ==>
      && q.excludedCell.value in h.born
      && q.exclude.Some? && h.born[q.excludedCell.value] == q.exclude
      && NotGiven(q.phase, q.excludedCell.value)
  }

  ghost predicate InvExclude(s: State) {
    && LeasesOk(s.shared, s.leases, s.looked)
    && (forall r | r in s.reqs :: Avoids(s.shared, s.reqs[r]))
  }

  lemma AvoidsStep(pools: Pools, s: State, r: nat, e: ReqEvent)
    requires CellsOf(s.shared) && r in s.reqs && Avoids(s.shared, s.reqs[r]) && NextStep(pools, s, r, e).Some?
    ensures Avoids(NextStep(pools, s, r, e).value.shared, NextStep(pools, s, r, e).value.reqs[r])
  {
  }

  /** Leases name born containers by their birth URL. */
  ghost predicate LeasesOk(h: Shared, leases: map<Id, Lease>, looked: set<Lease>) {
    && (forall l | l in leases :: leases[l].container in h.born && h.born[leases[l].container] == Some(leases[l].url))
    && (forall rec | rec in looked :: rec.container in h.born && h.born[rec.container] == Some(rec.url))
  }

  lemma LeasesKept(pools: Pools, s: State, e: Event)
    requires LeasesOk(s.shared, s.leases, s.looked) && Next(pools, s, e).Some?
    ensures LeasesOk(s.shared, Next(pools, s, e).value.leases, Next(pools, s, e).value.looked)
  {
  }

  ghost predicate BornMore(h: Shared, h': Shared) {
    forall c | c in h.born :: c in h'.born && h'.born[c] == h.born[c]
  }

  lemma BornMove(h: Shared, m: Move, h': Shared)
    requires Moves(h, m, h')
    ensures BornMore(h, h')
  {
  }

  lemma AvoidsMore(h: Shared, h': Shared, reqs: map<nat, Request>, leases: map<Id, Lease>,
                   looked: set<Lease>)
    requires BornMore(h, h') && LeasesOk(h, leases, looked) && forall r | r in reqs :: Avoids(h, reqs[r])
    ensures LeasesOk(h', leases, looked) && forall r | r in reqs :: Avoids(h', reqs[r])
  {
  }

  lemma AvoidsOther(s: State, e: Event, t: State)
    requires InvExclude(s) && OtherRel(s, e, t)
    ensures forall r | r in t.reqs :: Avoids(s.shared, t.reqs[r])
  {
    forall r | r in t.reqs ensures Avoids(s.shared, t.reqs[r]) {
      if r in s.reqs { assert Avoids(s.shared, s.reqs[r]); }
    }
  }

  lemma ExcludeKeptByStep(pools: Pools, s: State, r: nat, e: ReqEvent)
    requires CellsOf(s.shared) && InvExclude(s) && NextStep(pools, s, r, e).Some?
    ensures InvExclude(NextStep(pools, s, r, e).value)
  {
    var t := NextStep(pools, s, r, e).value;
    ReqMoves(s.shared, s.reqs[r], e);
    BornMove(s.shared, ReqMove(s.shared, s.reqs[r], e), t.shared);
    AvoidsMore(s.shared, t.shared, s.reqs, s.leases, s.looked);
    AvoidsStep(pools, s, r, e);
  }

  lemma ExcludeKept(pools: Pools, s: State, e: Event)
    requires CellsOf(s.shared) && InvExclude(s) && Next(pools, s, e).Some?
    ensures InvExclude(Next(pools, s, e).value)
  {
    if e.Step? {
      ExcludeKeptByStep(pools, s, e.r, e.e);
    } else {
      var t := Next(pools, s, e).value;
      EventMoves(pools, s, e);
      BornMove(s.shared, MoveOf(s, e), t.shared);
      OtherFrame(pools, s, e);
      AvoidsOther(s, e, t);
      LeasesKept(pools, s, e);
      AvoidsMore(s.shared, t.shared, t.reqs, t.leases, t.looked);
    }
  }

  // ---------- What a killer's snapshot still says ----------

  /** The slot of the killer's pool holds its container or nothing exactly until the
      next publication there; after an idle snapshot the count is bounded by the
      acquisitions made since. */
  ghost predicate TrailOk(h: Shared, k: Killer) {
    && Known(h, k.pool) && k.container in h.born && k.pubs <= |h.published[k.pool]|
    && (h.slots[k.pool].Some? ==>
          (h.slots[k.pool].value.container == k.container <==> |h.published[k.pool]| == k.pubs))
    && (k.Marking? && k.idle ==>
          && k.seen <= h.acquired[k.pool]
          && (h.slots[k.pool].Some? && h.slots[k.pool].value.container == k.container ==>
                h.slots[k.pool].value.inFlight <= h.acquired[k.pool] - k.seen))
  }

  /** A container to be marked is hot at most where it was seen, a marked one nowhere. */
  ghost predicate MarkOk(h: Shared, k: Killer) {
    && (k.Marking? ==> forall x | x in h.slots && x != k.pool :: !HotAt(h, x, k.container))
    && (k.Killing? && k.marked ==> forall x | x in h.slots :: !HotAt(h, x, k.container))
  }

  ghost predicate KillerOk(h: Shared, k: Killer) { TrailOk(h, k) && MarkOk(h, k) }

  /** No waiting tunnel is the one a killer has seen in a slot. */
  ghost predicate UnseenPubs(reqs: map<nat, Request>, k: Killer) {
    forall r | r in reqs && reqs[r].phase.Publishing? :: reqs[r].phase.tunnel.container != k.container
  }

  ghost predicate InvKillers(s: State) {
    && (forall k | k in s.killers :: KillerOk(s.shared, s.killers[k]))
    && (forall k {:trigger UnseenPubs(s.reqs, s.killers[k])} | k in s.killers :: UnseenPubs(s.reqs, s.killers[k]))
  }

  lemma KillerMove(h: Shared, m: Move, h': Shared, k: Killer)
    requires Moves(h, m, h') && KillerOk(h, k) && (m.PublishIn? ==> m.tunnel.container != k.container)
    ensures KillerOk(h', k)
  {
    TrailMove(h, m, h', k);
    MarkMove(h, m, h', k);
  }

  lemma TrailMove(h: Shared, m: Move, h': Shared, k: Killer)
    requires Moves(h, m, h') && TrailOk(h, k) && (m.PublishIn? ==> m.tunnel.container != k.container)
    ensures TrailOk(h', k)
  {
  }

  lemma MarkMove(h: Shared, m: Move, h': Shared, k: Killer)
    requires Moves(h, m, h') && MarkOk(h, k) && (m.PublishIn? ==> m.tunnel.container != k.container)
    ensures MarkOk(h', k)
  {
    forall x | x in h'.slots && !HotAt(h, x, k.container) ensures !HotAt(h', x, k.container) {
      ColdMove(h, m, h', x, k.container);
    }
  }

  lemma ColdMove(h: Shared, m: Move, h': Shared, x: Id, c: Id)
    requires Moves(h, m, h') && !HotAt(h, x, c) && (m.PublishIn? ==> m.tunnel.container != c)
    ensures !HotAt(h', x, c)
  {
  }

  lemma UnseenKept(pools: Pools, s: State, r: nat, e: ReqEvent, k: Killer)
    requires NextStep(pools, s, r, e).Some? && UnseenPubs(s.reqs, k) && k.container in s.shared.born
    ensures UnseenPubs(NextStep(pools, s, r, e).value.reqs, k)
  {
  }

  lemma KillersKeptByStep(pools: Pools, s: State, r: nat, e: ReqEvent)
    requires InvKillers(s) && NextStep(pools, s, r, e).Some?
    ensures InvKillers(NextStep(pools, s, r, e).value)
  {
    var t := NextStep(pools, s, r, e).value;
    ReqMoves(s.shared, s.reqs[r], e);
    forall k | k in s.killers ensures KillerOk(t.shared, s.killers[k]) && UnseenPubs(t.reqs, s.killers[k]) {
      assert UnseenPubs(s.reqs, s.killers[k]);
      KillerMove(s.shared, ReqMove(s.shared, s.reqs[r], e), t.shared, s.killers[k]);
      UnseenKept(pools, s, r, e, s.killers[k]);
    }
  }

  lemma FreshKillerOk(s: State, e: Event, k: Killer)
    requires CellsOf(s.shared) && PubsOf(s.shared, s.reqs) && FreshKiller(s, e, k)
    ensures KillerOk(s.shared, k) && UnseenPubs(s.reqs, k)
  {
  }

  lemma FollowsOk(h: Shared, k: Killer, k': Killer)
    requires KillerOk(h, k) && Follows(k, k', h)
    ensures KillerOk(h, k') && k'.container == k.container
  {
  }

  lemma OldKiller(s: State, e: Event, t: State, m: Move, k: nat)
    requires InvKillers(s) && OtherRel(s, e, t) && k in s.killers && k in t.killers
    requires Moves(s.shared, m, t.shared) && !m.PublishIn?
    ensures KillerOk(t.shared, t.killers[k]) && UnseenPubs(t.reqs, t.killers[k])
  {
    assert UnseenPubs(s.reqs, s.killers[k]);
    KillerMove(s.shared, m, t.shared, s.killers[k]);
    if t.killers[k] != s.killers[k] { FollowsOk(t.shared, s.killers[k], t.killers[k]); }
  }

  lemma KillersOther(s: State, e: Event, t: State, m: Move)
    requires CellsOf(s.shared) && PubsOf(s.shared, s.reqs) && InvKillers(s) && OtherRel(s, e, t)
    requires Moves(s.shared, m, t.shared) && !m.PublishIn? && (e.BeginReap? || e.BeginClose? || e.BeginClear? ==> m.Stay?)
    ensures InvKillers(t)
  {
    forall k | k in t.killers ensures KillerOk(t.shared, t.killers[k]) && UnseenPubs(t.reqs, t.killers[k]) {
      if k in s.killers { OldKiller(s, e, t, m, k); } else { FreshKillerOk(s, e, t.killers[k]); }
    }
  }

  lemma KillersKept(pools: Pools, s: State, e: Event)
    requires CellsOf(s.shared) && PubsOf(s.shared, s.reqs) && InvKillers(s) && Next(pools, s, e).Some?
    ensures InvKillers(Next(pools, s, e).value)
  {
    if e.Step? {
      KillersKeptByStep(pools, s, e.r, e.e);
    } else {
      EventMoves(pools, s, e);
      OtherFrame(pools, s, e);
      KillersOther(s, e, Next(pools, s, e).value, MoveOf(s, e));
    }
  }

  // ---------- Pools stay known ----------

  ghost predicate InvPools(pools: Pools, s: State) {
    && s.shared.slots.Keys == pools.Keys
    && forall r | r in s.reqs :: PhaseOk(pools, s.reqs[r].phase)
  }

  predicate PhaseOk(pools: Pools, f: Phase) {
    && (!f.Done? ==> f.pool in pools)
    && (f.Unlocking? && f.result.Some? ==> f.result.value.pool == f.pool)
  }

  lemma PoolsMove(h: Shared, m: Move, h': Shared)
    requires Moves(h, m, h')
    ensures h'.slots.Keys == h.slots.Keys
  {
  }

  lemma PoolsStep(pools: Pools, s: State, r: nat, e: ReqEvent)
    requires InvPools(pools, s) && NextStep(pools, s, r, e).Some?
    ensures PhaseOk(pools, NextStep(pools, s, r, e).value.reqs[r].phase)
  {
  }

  lemma PoolsKept(pools: Pools, s: State, e: Event)
    requires InvPools(pools, s) && Next(pools, s, e).Some?
    ensures InvPools(pools, Next(pools, s, e).value)
  {
    EventMoves(pools, s, e);
    PoolsMove(s.shared, MoveOf(s, e), Next(pools, s, e).value.shared);
    if e.Step? { PoolsStep(pools, s, e.r, e.e); }
  }

  // ---------- Every reachable state ----------

  ghost predicate Inv(pools: Pools, s: State) {
    && InvPools(pools, s)
    && InvFlight(s.shared) && CellsOf(s.shared) && PubsOf(s.shared, s.reqs)
    && InvLock(s) && InvExclude(s) && InvKillers(s)
  }

  lemma FlightKept(pools: Pools, s: State, e: Event)
    requires InvFlight(s.shared) && PubsOf(s.shared, s.reqs) && Next(pools, s, e).Some?
    ensures InvFlight(Next(pools, s, e).value.shared)
  {
    EventMoves(pools, s, e);
    FlightMoves(s.shared, MoveOf(s, e), Next(pools, s, e).value.shared);
  }

  lemma InvKept(pools: Pools, s: State, e: Event)
    requires Inv(pools, s) && Next(pools, s, e).Some?
    ensures Inv(pools, Next(pools, s, e).value)
  {
    PoolsKept(pools, s, e);
    FlightKept(pools, s, e);
    CellsKept(pools, s, e);
    LockKept(pools, s, e);
    ExcludeKept(pools, s, e);
    KillersKept(pools, s, e);
  }

  /** A property kept by every allowed event holds after every allowed run. */
  lemma {:induction false} ExecKeeps(pools: Pools, s: State, es: seq<Event>, keeps: State -> bool, allowed: Event -> bool)
    requires keeps(s) && Exec(pools, s, es).Some?
    requires forall i | 0 <= i < |es| :: allowed(es[i])
    requires forall x, e | keeps(x) && allowed(e) && Next(pools, x, e).Some? :: keeps(Next(pools, x, e).value)
    ensures keeps(Exec(pools, s, es).value)
    decreases |es|
  {
    if es != [] {
      assert allowed(es[0]);
      ExecKeeps(pools, Next(pools, s, es[0]).value, es[1..], keeps, allowed);
    }
  }

  lemma ExecInv(pools: Pools, s: State, es: seq<Event>)
    requires Inv(pools, s) && Exec(pools, s, es).Some?
    ensures Inv(pools, Exec(pools, s, es).value)
  {
    forall x, e | Inv(pools, x) && Next(pools, x, e).Some? ensures Inv(pools, Next(pools, x, e).value) {
      InvKept(pools, x, e);
    }
    ExecKeeps(pools, s, es, x => Inv(pools, x), e => true);
  }

  ghost predicate Reachable(pools: Pools, s: State) {
    exists es :: Exec(pools, Init(pools), es) == Some(s)
  }

  lemma ReachableInv(pools: Pools, s: State)
    requires Reachable(pools, s)
    ensures Inv(pools, s)
  {
    var es :| Exec(pools, Init(pools), es) == Some(s);
    assert Inv(pools, Init(pools)) by { forall p | p in pools ensures FlightAt(Init(pools).shared, p) { } }
    ExecInv(pools, Init(pools), es);
  }

  // ---------- Theorems: spawning ----------

  /** At most one spawn per pool at any time, and no request holds two pools'
      spawn mutexes. */
  lemma SpawnExclusive(pools: Pools, s: State)
    requires Reachable(pools, s)
    ensures forall r, r' | r in s.reqs && r' in s.reqs && s.reqs[r].phase.InSpawn? && s.reqs[r'].phase.InSpawn?
                           && s.reqs[r].phase.pool == s.reqs[r'].phase.pool :: r == r'
    ensures forall p, p' | p in s.locks && p' in s.locks && s.locks[p] == s.locks[p'] :: p == p'
  {
    ReachableInv(pools, s);
  }

  /** Steps a request has left on its pool, at most. */
  function PhaseRank(f: Phase): nat {
    match f
    case Fast(_) => 7
    case Queued(_) => 6
    case Recheck(_) => 5
    case Picking(_) => 4
    case InSpawn(_, _) => 3
    case Publishing(_, _) => 2
    case Unlocking(_, _) => 1
    case Done(_) => 0
  }

  /** What the holder of a mutex can do next without waiting for anyone. */
  function OwnMove(f: Phase): ReqEvent {
    match f
    case Recheck(_) => Try
    case Picking(_) => PickFails
    case InSpawn(_, _) => SpawnFails
    case Publishing(_, _) => DoPublish
    case _ => Unlock
  }

  lemma OwnMoveEnabled(h: Shared, q: Request)
    requires Locked(q.phase) && Known(h, q.phase.pool)
    ensures var n := NextReq(h, q, OwnMove(q.phase));
            n.Some? && (!q.phase.Unlocking? ==> PhaseRank(n.value.1) < PhaseRank(q.phase))
  {
  }

  /** The holder of a spawn mutex is never stuck: a step of its own is enabled
      that waits for no one and either frees the mutex or lowers its rank while
      keeping every mutex as it is. So fallbacks that point at each
      other cannot deadlock. */
  lemma HolderProgress(pools: Pools, s: State, p: Id)
    requires Reachable(pools, s) && p in s.locks
    ensures s.locks[p] in s.reqs
    ensures var r := s.locks[p];
            var n := Next(pools, s, Step(r, OwnMove(s.reqs[r].phase)));
            && n.Some?
            && (s.reqs[r].phase.Unlocking? ==> p !in n.value.locks)
            && (!s.reqs[r].phase.Unlocking? ==>
                  n.value.locks == s.locks && PhaseRank(n.value.reqs[r].phase) < PhaseRank(s.reqs[r].phase))
  {
    ReachableInv(pools, s);
    HolderKnown(pools, s, p);
    HolderStep(pools, s, s.locks[p]);
  }

  lemma HolderKnown(pools: Pools, s: State, p: Id)
    requires InvPools(pools, s) && InvFlight(s.shared) && InvLock(s) && p in s.locks
    ensures s.locks[p] in s.reqs && Locked(s.reqs[s.locks[p]].phase) && s.reqs[s.locks[p]].phase.pool == p
    ensures Known(s.shared, p)
  {
    assert PhaseOk(pools, s.reqs[s.locks[p]].phase);
  }

  lemma HolderStep(pools: Pools, s: State, r: nat)
    requires r in s.reqs && Locked(s.reqs[r].phase) && Known(s.shared, s.reqs[r].phase.pool)
    ensures var q := s.reqs[r];
            var n := NextStep(pools, s, r, OwnMove(q.phase));
            && n.Some?
            && (q.phase.Unlocking? ==> q.phase.pool !in n.value.locks)
            && (!q.phase.Unlocking? ==> n.value.locks == s.locks && PhaseRank(n.value.reqs[r].phase) < PhaseRank(q.phase))
  {
    OwnMoveEnabled(s.shared, s.reqs[r]);
    PhaseStep(s.shared, s.reqs[r], OwnMove(s.reqs[r].phase));
  }

  /** No deadlock anywhere: in every reachable state with an unfinished request
      some request can take a step. */
  lemma NoDeadlock(pools: Pools, s: State, r: nat) returns (x: nat, e: ReqEvent)
    requires Reachable(pools, s) && r in s.reqs && !s.reqs[r].phase.Done?
    ensures Next(pools, s, Step(x, e)).Some?
  {
    ReachableInv(pools, s);
    var f := s.reqs[r].phase;
    assert PhaseOk(pools, f);
    if f.Fast? {
      x, e := r, Try;
    } else if f.Queued? && f.pool !in s.locks {
      x, e := r, Lock;
    } else {
      x := s.locks[f.pool];
      HolderProgress(pools, s, f.pool);
      e := OwnMove(s.reqs[x].phase);
    }
  }

  /** Steps a request has left, the fallback hop included. */
  function StepsLeft(q: Request): nat { PhaseRank(q.phase) + if q.escalated then 0 else 7 }

  /** One hop only: every step of a request uses up one of its remaining steps;
      it moves to another pool at most once, to the fallback of the pool that just
      failed it, with that pool's mutex released. */
  lemma RequestEnds(pools: Pools, s: State, r: nat, e: ReqEvent)
    requires NextStep(pools, s, r, e).Some?
    ensures r in s.reqs && r in NextStep(pools, s, r, e).value.reqs
    ensures var t := NextStep(pools, s, r, e).value;
            var q, q' := s.reqs[r], t.reqs[r];
            && StepsLeft(q') < StepsLeft(q)
            && (q.escalated ==> q'.escalated)
            && (!q'.phase.Done? && (q.phase.Done? || q'.phase.pool != q.phase.pool || q'.escalated != q.escalated) ==>
                  && q.phase == Unlocking(q.phase.pool, None) && q.fallbackOk && !q.escalated && q'.escalated
                  && q.phase.pool in pools && pools[q.phase.pool].Some? && q'.phase == Fast(pools[q.phase.pool].value)
                  && q.phase.pool !in t.locks)
  {
  }

  // ---------- Whose acquisitions the count stands for ----------

  /** How a move changes, per pool, the acquisitions of the slot's tunnel that its
      count has lost: release is keyed by pool, so giving back another container's
      acquisition lowers the count, and an own one that finds zero makes up for it. */
  function LostBy(h: Shared, m: Move, lost: map<Id, int>): map<Id, int> {
    match m
    case PublishIn(p, _) => lost[p := 0]
    case GiveIn(p, c) =>
      if p in lost && p in h.slots && h.slots[p].Some? then
        var t := h.slots[p].value;
        if t.inFlight > 0 && t.container != c then lost[p := lost[p] + 1]
        else if t.inFlight <= 0 && t.container == c then lost[p := lost[p] - 1]
        else lost
      else lost
    case _ => lost
  }

  /** The same along a run. */
  function LostAlong(pools: Pools, s: State, lost: map<Id, int>, es: seq<Event>): map<Id, int>
    decreases |es|
  {
    if es == [] then lost
    else match Next(pools, s, es[0])
      case None => lost
      case Some(t) => LostAlong(pools, t, LostBy(s.shared, MoveOf(s, es[0]), lost), es[1..])
  }

  ghost predicate LedgerAt(h: Shared, p: Id, n: int)
    requires Known(h, p)
  {
    && (h.slots[p].Some? ==> n >= 0 && h.out[p][h.slots[p].value.container] == h.slots[p].value.inFlight + n)
    && (p !in h.outlived && h.slots[p].Some? ==> n == 0)
    && (p !in h.outlived ==> forall c | c in h.out[p] :: h.slots[p].Some? && c == h.slots[p].value.container)
  }

  ghost predicate Ledger(h: Shared, lost: map<Id, int>) {
    && h.slots.Keys == h.out.Keys == h.acquired.Keys == h.published.Keys == lost.Keys
    && forall p | p in h.slots :: LedgerAt(h, p, lost[p])
  }

  lemma LedgerElsewhere(h: Shared, h': Shared, p: Id, lost: map<Id, int>, lost': map<Id, int>)
    requires Ledger(h, lost) && SameElsewhere(h, h', p) && p in h.slots && lost'.Keys == lost.Keys
    requires (forall x | x in lost && x != p :: lost'[x] == lost[x]) && LedgerAt(h', p, lost'[p])
    ensures Ledger(h', lost')
  {
    forall x | x in h'.slots ensures LedgerAt(h', x, lost'[x]) {
      if x != p { assert LedgerAt(h, x, lost[x]); }
    }
  }

  lemma LedgerGive(h: Shared, p: Id, c: Id, lost: map<Id, int>)
    requires InvFlight(h) && Ledger(h, lost) && p in h.slots && c in h.out[p]
    ensures Ledger(GiveBack(h, p, c), LostBy(h, GiveIn(p, c), lost))
  {
    assert FlightAt(h, p) && LedgerAt(h, p, lost[p]);
    assert |h.out[p] - multiset{c}| == |h.out[p]| - 1;
    LedgerGiveAt(h, p, c, lost[p]);
    LostElsewhere(h, p, c, lost);
    LedgerElsewhere(h, GiveBack(h, p, c), p, lost, LostBy(h, GiveIn(p, c), lost));
  }

  lemma LostElsewhere(h: Shared, p: Id, c: Id, lost: map<Id, int>)
    requires p in lost
    ensures var lost' := LostBy(h, GiveIn(p, c), lost);
            && lost'.Keys == lost.Keys && (forall x | x in lost && x != p :: lost'[x] == lost[x])
            && lost'[p] == LostBy(h, GiveIn(p, c), map[p := lost[p]])[p]
  {
  }

  lemma LedgerGiveAt(h: Shared, p: Id, c: Id, n: int)
    requires Known(h, p) && FlightAt(h, p) && LedgerAt(h, p, n) && c in h.out[p]
    requires |h.out[p] - multiset{c}| == |h.out[p]| - 1
    ensures LedgerAt(GiveBack(h, p, c), p, LostBy(h, GiveIn(p, c), map[p := n])[p])
  {
  }

  lemma LedgerTake(h: Shared, p: Id, lost: map<Id, int>)
    requires Ledger(h, lost) && p in h.slots && h.slots[p].Some?
    ensures Ledger(Take(h, p), lost)
  {
    assert LedgerAt(h, p, lost[p]);
    LedgerElsewhere(h, Take(h, p), p, lost, lost);
  }

  lemma LedgerPublish(h: Shared, p: Id, t: Tunnel, lost: map<Id, int>)
    requires Ledger(h, lost) && p in h.slots && t.inFlight == 1 && t.container !in h.out[p]
    ensures Ledger(Publish(h, p, t), lost[p := 0])
  {
    assert LedgerAt(Publish(h, p, t), p, 0);
    PublishElsewhere(h, p, t);
    LedgerElsewhere(h, Publish(h, p, t), p, lost, lost[p := 0]);
  }

  lemma LedgerClear(h: Shared, p: Id, lost: map<Id, int>)
    requires Ledger(h, lost) && p in h.slots
    ensures Ledger(Overwrite(h, p, None), lost)
  {
    assert LedgerAt(h, p, lost[p]);
    LedgerElsewhere(h, Overwrite(h, p, None), p, lost, lost);
  }

  lemma LedgerDemote(h: Shared, p: Id, to: TunnelState, lost: map<Id, int>)
    requires Ledger(h, lost) && p in h.slots && h.slots[p].Some?
    ensures Ledger(h.(slots := h.slots[p := Some(h.slots[p].value.(state := to))]), lost)
  {
    assert LedgerAt(h, p, lost[p]);
    LedgerElsewhere(h, h.(slots := h.slots[p := Some(h.slots[p].value.(state := to))]), p, lost, lost);
  }

  lemma LedgerMove(h: Shared, m: Move, h': Shared, lost: map<Id, int>)
    requires InvFlight(h) && Ledger(h, lost) && Moves(h, m, h')
    requires m.PublishIn? ==> m.tunnel.inFlight == 1 && (m.pool in h.out ==> m.tunnel.container !in h.out[m.pool])
    ensures Ledger(h', LostBy(h, m, lost))
  {
    match m
    case Stay =>
    case Bear(c, url) => assert forall p | p in h.slots :: LedgerAt(h, p, lost[p]) ==> LedgerAt(h', p, lost[p]);
    case TakeIn(p) => LedgerTake(h, p, lost);
    case GiveIn(p, c) => LedgerGive(h, p, c, lost);
    case PublishIn(p, t) => LedgerPublish(h, p, t, lost);
    case ClearIn(p) => LedgerClear(h, p, lost);
    case Demote(p, to) => LedgerDemote(h, p, to, lost);
  }

  /** Only born containers are outstanding, and none that waits to be published. */
  ghost predicate OutOk(h: Shared, reqs: map<nat, Request>) {
    && (forall p, c | p in h.out && c in h.out[p] :: c in h.born)
    && (forall r, p | r in reqs && reqs[r].phase.Publishing? && p in h.out :: reqs[r].phase.tunnel.container !in h.out[p])
  }

  lemma OutBornMove(h: Shared, m: Move, h': Shared)
    requires CellsOf(h) && Moves(h, m, h') && (m.PublishIn? ==> m.tunnel.container in h.born)
    requires forall p, c | p in h.out && c in h.out[p] :: c in h.born
    ensures forall p, c | p in h'.out && c in h'.out[p] :: c in h'.born
  {
    BornMove(h, m, h');
  }

  /** A container in no slot that is not just published gains no acquisition. */
  lemma OutMove(h: Shared, m: Move, h': Shared, c: Id)
    requires Moves(h, m, h') && (m.PublishIn? ==> m.tunnel.container != c)
    requires forall p | p in h.slots && h.slots[p].Some? :: h.slots[p].value.container != c
    requires forall p | p in h.out :: c !in h.out[p]
    ensures forall p | p in h'.out :: c !in h'.out[p]
  {
  }

  lemma OutStays(h: Shared, m: Move, h': Shared, reqs: map<nat, Request>, r: nat)
    requires Moves(h, m, h') && PubsOf(h, reqs) && OutOk(h, reqs) && r in reqs && reqs[r].phase.Publishing?
    requires m.PublishIn? ==> m.tunnel.container != reqs[r].phase.tunnel.container
    ensures forall p | p in h'.out :: reqs[r].phase.tunnel.container !in h'.out[p]
  {
    OutMove(h, m, h', reqs[r].phase.tunnel.container);
  }

  lemma OutKeptByStep(pools: Pools, s: State, r: nat, e: ReqEvent)
    requires CellsOf(s.shared) && PubsOf(s.shared, s.reqs) && OutOk(s.shared, s.reqs) && NextStep(pools, s, r, e).Some?
    ensures OutOk(NextStep(pools, s, r, e).value.shared, NextStep(pools, s, r, e).value.reqs)
  {
    var t := NextStep(pools, s, r, e).value;
    var m := ReqMove(s.shared, s.reqs[r], e);
    ReqMoves(s.shared, s.reqs[r], e);
    OutBornMove(s.shared, m, t.shared);
    forall x, p | x in t.reqs && t.reqs[x].phase.Publishing? && p in t.shared.out
      ensures t.reqs[x].phase.tunnel.container !in t.shared.out[p]
    {
      if x != r { OutStays(s.shared, m, t.shared, s.reqs, x); } else { OwnPublishing(pools, s, r, e); }
    }
  }

  /** A request that starts to wait for publication has a newborn container. */
  lemma OwnPublishing(pools: Pools, s: State, r: nat, e: ReqEvent)
    requires OutOk(s.shared, s.reqs) && NextStep(pools, s, r, e).Some?
    requires NextStep(pools, s, r, e).value.reqs[r].phase.Publishing?
    ensures forall p | p in NextStep(pools, s, r, e).value.shared.out ::
              NextStep(pools, s, r, e).value.reqs[r].phase.tunnel.container !in NextStep(pools, s, r, e).value.shared.out[p]
  {
  }

  lemma OutOther(s: State, e: Event, t: State, m: Move)
    requires CellsOf(s.shared) && PubsOf(s.shared, s.reqs) && OutOk(s.shared, s.reqs) && OtherRel(s, e, t)
    requires Moves(s.shared, m, t.shared) && !m.PublishIn?
    ensures OutOk(t.shared, t.reqs)
  {
    OutBornMove(s.shared, m, t.shared);
    forall x, p | x in t.reqs && t.reqs[x].phase.Publishing? && p in t.shared.out
      ensures t.reqs[x].phase.tunnel.container !in t.shared.out[p]
    {
      OutStays(s.shared, m, t.shared, s.reqs, x);
    }
  }

  lemma OutKept(pools: Pools, s: State, e: Event)
    requires CellsOf(s.shared) && PubsOf(s.shared, s.reqs) && OutOk(s.shared, s.reqs) && Next(pools, s, e).Some?
    ensures OutOk(Next(pools, s, e).value.shared, Next(pools, s, e).value.reqs)
  {
    if e.Step? {
      OutKeptByStep(pools, s, e.r, e.e);
    } else {
      EventMoves(pools, s, e);
      OtherFrame(pools, s, e);
      OutOther(s, e, Next(pools, s, e).value, MoveOf(s, e));
    }
  }

  ghost predicate Booked(pools: Pools, s: State, lost: map<Id, int>) {
    Inv(pools, s) && OutOk(s.shared, s.reqs) && Ledger(s.shared, lost)
  }

  lemma BookedStep(pools: Pools, s: State, e: Event, lost: map<Id, int>)
    requires Booked(pools, s, lost) && Next(pools, s, e).Some?
    ensures Booked(pools, Next(pools, s, e).value, LostBy(s.shared, MoveOf(s, e), lost))
  {
    InvKept(pools, s, e);
    OutKept(pools, s, e);
    LedgerKept(pools, s, e, lost);
  }

  lemma LedgerKept(pools: Pools, s: State, e: Event, lost: map<Id, int>)
    requires InvFlight(s.shared) && PubsOf(s.shared, s.reqs) && OutOk(s.shared, s.reqs) && Ledger(s.shared, lost)
    requires Next(pools, s, e).Some?
    ensures Ledger(Next(pools, s, e).value.shared, LostBy(s.shared, MoveOf(s, e), lost))
  {
    EventMoves(pools, s, e);
    PublishesFresh(s, e);
    LedgerMove(s.shared, MoveOf(s, e), Next(pools, s, e).value.shared, lost);
  }

  lemma PublishesFresh(s: State, e: Event)
    requires PubsOf(s.shared, s.reqs) && OutOk(s.shared, s.reqs)
    ensures var m := MoveOf(s, e);
            m.PublishIn? ==> m.tunnel.inFlight == 1 && (m.pool in s.shared.out ==> m.tunnel.container !in s.shared.out[m.pool])
  {
  }

  lemma {:induction false} BookedRun(pools: Pools, s: State, es: seq<Event>, lost: map<Id, int>)
    requires Booked(pools, s, lost) && Exec(pools, s, es).Some?
    ensures Booked(pools, Exec(pools, s, es).value, LostAlong(pools, s, lost, es))
    decreases |es|
  {
    if es != [] {
      BookedStep(pools, s, es[0], lost);
      BookedRun(pools, Next(pools, s, es[0]).value, es[1..], LostBy(s.shared, MoveOf(s, es[0]), lost));
    }
  }

  /** Acquisitions the counts have lost, by pool, along a run from the start. */
  function Lost(pools: Pools, es: seq<Event>): map<Id, int> {
    LostAlong(pools, Init(pools), map p | p in pools :: 0, es)
  }

  lemma InitBooked(pools: Pools)
    ensures Booked(pools, Init(pools), map p | p in pools :: 0)
  {
    forall p | p in pools ensures FlightAt(Init(pools).shared, p) && LedgerAt(Init(pools).shared, p, 0) { }
  }

  // ---------- Theorems: in-flight counts ----------

  /** In every reachable state the count is between zero and the outstanding
      acquisitions, exact while none has outlived its tunnel, and zero once all are
      given back. */
  lemma InFlightBounds(pools: Pools, s: State, p: Id)
    requires Reachable(pools, s) && p in pools
    ensures Known(s.shared, p)
    ensures s.shared.slots[p].Some? ==> 0 <= s.shared.slots[p].value.inFlight <= |s.shared.out[p]|
    ensures s.shared.slots[p].Some? && p !in s.shared.outlived ==> s.shared.slots[p].value.inFlight == |s.shared.out[p]|
    ensures s.shared.slots[p].Some? && s.shared.out[p] == multiset{} ==> s.shared.slots[p].value.inFlight == 0
  {
    ReachableInv(pools, s);
    assert FlightAt(s.shared, p);
  }

  /** After any run the slot's tunnel is in use, by somebody who acquired this very
      container and has not released it, exactly when its count or what the count
      lost is positive; and nothing is lost while no acquisition of the pool has
      outlived its tunnel. */
  lemma InUseExact(pools: Pools, es: seq<Event>, s: State, p: Id)
    requires Exec(pools, Init(pools), es) == Some(s) && p in pools
    ensures Known(s.shared, p) && p in Lost(pools, es)
    ensures s.shared.slots[p].Some? ==>
              var t := s.shared.slots[p].value;
              && s.shared.out[p][t.container] == t.inFlight + Lost(pools, es)[p]
              && (t.container in s.shared.out[p] <==> t.inFlight > 0 || Lost(pools, es)[p] > 0)
              && (p !in s.shared.outlived ==> Lost(pools, es)[p] == 0)
  {
    InitBooked(pools);
    BookedRun(pools, Init(pools), es, map x | x in pools :: 0);
    assert FlightAt(s.shared, p) && LedgerAt(s.shared, p, Lost(pools, es)[p]);
  }

  /** The idle reaper about to mark its snapshotted tunnel, with no acquisition on
      the pool since the snapshot: the count is zero, the tunnel is in use exactly
      when the count has lost acquisitions, and it is not in use when no acquisition
      of the pool has outlived its tunnel. */
  lemma IdleReapExact(pools: Pools, es: seq<Event>, s: State, k: nat)
    requires Exec(pools, Init(pools), es) == Some(s) && k in s.killers && s.killers[k].Marking? && s.killers[k].idle
    requires s.killers[k].pool in pools && Known(s.shared, s.killers[k].pool)
    requires s.shared.acquired[s.killers[k].pool] == s.killers[k].seen
    requires s.shared.slots[s.killers[k].pool].Some?
    requires s.shared.slots[s.killers[k].pool].value.container == s.killers[k].container
    ensures var p, c := s.killers[k].pool, s.killers[k].container;
            && s.shared.slots[p].value.inFlight == 0
            && p in Lost(pools, es) && (c in s.shared.out[p] <==> Lost(pools, es)[p] > 0)
            && (p !in s.shared.outlived ==> c !in s.shared.out[p])
  {
    ReachableInv(pools, s);
    assert FlightAt(s.shared, s.killers[k].pool);
    assert KillerOk(s.shared, s.killers[k]);
    InUseExact(pools, es, s, s.killers[k].pool);
  }

  // ---------- Theorems: pinning ----------

  predicate HotAt(h: Shared, p: Id, c: Id) { p in h.slots && Holds(h.slots[p], c) }

  /** Container c was born, is hot in no slot and waits in no request. */
  ghost predicate Gone(s: State, c: Id) {
    && c in s.shared.born
    && (forall p | p in s.shared.slots :: !HotAt(s.shared, p, c))
    && (forall r | r in s.reqs && s.reqs[r].phase.Publishing? :: s.reqs[r].phase.tunnel.container != c)
  }

  /** A move that does not publish c cannot make it hot anywhere. */
  lemma GoneMove(h: Shared, m: Move, h': Shared, c: Id)
    requires Moves(h, m, h') && (m.PublishIn? ==> m.tunnel.container != c)
    requires forall p | p in h.slots :: !HotAt(h, p, c)
    ensures forall p | p in h'.slots :: !HotAt(h', p, c)
  {
    forall p | p in h'.slots ensures !HotAt(h', p, c) {
      if p in h.slots { assert !HotAt(h, p, c); }
      ColdMove(h, m, h', p, c);
    }
  }

  /** While c is hot nowhere, no move adds an acquisition of it. */
  lemma GoneOut(h: Shared, m: Move, h': Shared, c: Id)
    requires Moves(h, m, h') && (m.PublishIn? ==> m.tunnel.container != c)
    requires forall p | p in h.slots :: !HotAt(h, p, c)
    ensures forall p | p in h.out :: p in h'.out && h'.out[p][c] <= h.out[p][c]
  {
    if m.TakeIn? { assert !HotAt(h, m.pool, c); }
  }

  lemma GonePubs(pools: Pools, s: State, e: Event, c: Id)
    requires Gone(s, c) && Next(pools, s, e).Some?
    ensures forall r | r in Next(pools, s, e).value.reqs && Next(pools, s, e).value.reqs[r].phase.Publishing? ::
              Next(pools, s, e).value.reqs[r].phase.tunnel.container != c
  {
  }

  lemma GoneStep(pools: Pools, s: State, e: Event, c: Id)
    requires Gone(s, c) && Next(pools, s, e).Some?
    ensures Gone(Next(pools, s, e).value, c)
    ensures forall p | p in s.shared.out ::
              p in Next(pools, s, e).value.shared.out && Next(pools, s, e).value.shared.out[p][c] <= s.shared.out[p][c]
  {
    EventMoves(pools, s, e);
    GoneMove(s.shared, MoveOf(s, e), Next(pools, s, e).value.shared, c);
    GoneOut(s.shared, MoveOf(s, e), Next(pools, s, e).value.shared, c);
    GonePubs(pools, s, e, c);
  }

  /** Gone, with at most n acquisitions of it outstanding on pool p. */
  ghost predicate GoneWithin(pools: Pools, s: State, c: Id, p: Id, n: nat) {
    Inv(pools, s) && Gone(s, c) && p in s.shared.out && s.shared.out[p][c] <= n
  }

  /** Along any run: once gone, a container stays gone, and no acquire or lease
      acquire ever returns it again, so its outstanding acquisitions only shrink. */
  lemma GoneForever(pools: Pools, s: State, es: seq<Event>, c: Id, p: Id)
    requires Inv(pools, s) && Gone(s, c) && Exec(pools, s, es).Some? && p in s.shared.out
    ensures GoneWithin(pools, Exec(pools, s, es).value, c, p, s.shared.out[p][c])
  {
    var n := s.shared.out[p][c];
    forall x, e | GoneWithin(pools, x, c, p, n) && Next(pools, x, e).Some?
      ensures GoneWithin(pools, Next(pools, x, e).value, c, p, n)
    {
      GoneStep(pools, x, e, c);
      InvKept(pools, x, e);
    }
    ExecKeeps(pools, s, es, x => GoneWithin(pools, x, c, p, n), e => true);
  }

  /** A container that leaves Hot or leaves its slot is gone from then on. */
  lemma LeavingIsGone(pools: Pools, s: State, e: Event, p: Id, c: Id)
    requires Inv(pools, s) && Next(pools, s, e).Some? && HotAt(s.shared, p, c)
    requires !HotAt(Next(pools, s, e).value.shared, p, c)
    ensures Gone(Next(pools, s, e).value, c)
  {
    LeavesHot(pools, s, e, p, c);
    LeavingPubs(pools, s, e, p, c);
  }

  lemma LeavesHot(pools: Pools, s: State, e: Event, p: Id, c: Id)
    requires CellsOf(s.shared) && PubsOf(s.shared, s.reqs) && Next(pools, s, e).Some? && HotAt(s.shared, p, c)
    requires !HotAt(Next(pools, s, e).value.shared, p, c)
    ensures var h := Next(pools, s, e).value.shared; c in h.born && forall x | x in h.slots :: !HotAt(h, x, c)
  {
    EventMoves(pools, s, e);
    PublishesOk(s, e);
    LeavingMove(s.shared, MoveOf(s, e), Next(pools, s, e).value.shared, p, c);
  }

  lemma LeavingMove(h: Shared, m: Move, h': Shared, p: Id, c: Id)
    requires CellsOf(h) && Moves(h, m, h') && (m.PublishIn? ==> PubOk(h, m.tunnel))
    requires HotAt(h, p, c) && !HotAt(h', p, c)
    ensures c in h'.born && forall x | x in h'.slots :: !HotAt(h', x, c)
  {
  }

  lemma LeavingPubs(pools: Pools, s: State, e: Event, p: Id, c: Id)
    requires CellsOf(s.shared) && PubsOf(s.shared, s.reqs) && Next(pools, s, e).Some? && HotAt(s.shared, p, c)
    ensures forall r | r in Next(pools, s, e).value.reqs && Next(pools, s, e).value.reqs[r].phase.Publishing? ::
              Next(pools, s, e).value.reqs[r].phase.tunnel.container != c
  {
    if e.Step? {
      var t := NextStep(pools, s, e.r, e.e).value;
      forall r | r in t.reqs && t.reqs[r].phase.Publishing? ensures t.reqs[r].phase.tunnel.container != c {
        if r == e.r { LeavingOwn(pools, s, r, e.e, p, c); }
      }
    } else {
      OtherFrame(pools, s, e);
    }
  }

  lemma LeavingOwn(pools: Pools, s: State, r: nat, e: ReqEvent, p: Id, c: Id)
    requires CellsOf(s.shared) && NextStep(pools, s, r, e).Some? && HotAt(s.shared, p, c)
    ensures var f := NextStep(pools, s, r, e).value.reqs[r].phase; f.Publishing? ==> f.tunnel.container != c
  {
  }

  /** Until the same ID is issued again, a lease on record is the one issued. */
  lemma LeasePinned(pools: Pools, s: State, es: seq<Event>, l: Id)
    requires l in s.leases && Exec(pools, s, es).Some?
    requires forall i | 0 <= i < |es| :: !(es[i].IssueLease? && es[i].lease == l)
    ensures l in Exec(pools, s, es).value.leases ==> Exec(pools, s, es).value.leases[l] == s.leases[l]
  {
    var issued := s.leases[l];
    forall x: State, e: Event | (l in x.leases ==> x.leases[l] == issued) && !(e.IssueLease? && e.lease == l) && Next(pools, x, e).Some?
      ensures l in Next(pools, x, e).value.leases ==> Next(pools, x, e).value.leases[l] == issued
    {
      LeaseStep(pools, x, e, l);
    }
    ExecKeeps(pools, s, es, (x: State) => l in x.leases ==> x.leases[l] == issued,
              (e: Event) => !(e.IssueLease? && e.lease == l));
  }

  lemma LeaseStep(pools: Pools, s: State, e: Event, l: Id)
    requires Next(pools, s, e).Some? && !(e.IssueLease? && e.lease == l)
    ensures l in Next(pools, s, e).value.leases ==> l in s.leases && Next(pools, s, e).value.leases[l] == s.leases[l]
  {
  }

  /** A lease stays on record, as issued, along any run that neither issues its ID again
      nor lets it expire. */
  lemma LeaseKept(pools: Pools, s: State, es: seq<Event>, l: Id)
    requires l in s.leases && Exec(pools, s, es).Some?
    requires forall i | 0 <= i < |es| :: !(es[i].IssueLease? && es[i].lease == l) && es[i] != DropLease(l)
    ensures l in Exec(pools, s, es).value.leases && Exec(pools, s, es).value.leases[l] == s.leases[l]
  {
    var issued := s.leases[l];
    forall x: State, e: Event | l in x.leases && x.leases[l] == issued && !(e.IssueLease? && e.lease == l) && e != DropLease(l)
                                && Next(pools, x, e).Some?
      ensures l in Next(pools, x, e).value.leases && Next(pools, x, e).value.leases[l] == issued
    {
      LeaseStays(pools, x, e, l);
    }
    ExecKeeps(pools, s, es, (x: State) => l in x.leases && x.leases[l] == issued,
              (e: Event) => !(e.IssueLease? && e.lease == l) && e != DropLease(l));
  }

  lemma LeaseStays(pools: Pools, s: State, e: Event, l: Id)
    requires Next(pools, s, e).Some? && !(e.IssueLease? && e.lease == l) && e != DropLease(l) && l in s.leases
    ensures l in Next(pools, s, e).value.leases && Next(pools, s, e).value.leases[l] == s.leases[l]
  {
  }

  /** A record in hand can be reserved exactly while its pool's slot holds its container
      hot, whatever else is going on there. */
  lemma LeaseUsableExactly(pools: Pools, s: State, rec: Lease)
    requires Reachable(pools, s) && rec in s.looked
    ensures Next(pools, s, AcquireLease(rec)).Some? <==>
            && rec.pool in s.shared.slots && s.shared.slots[rec.pool].Some?
            && s.shared.slots[rec.pool].value.state == Hot && s.shared.slots[rec.pool].value.container == rec.container
  {
    ReachableInv(pools, s);
  }

  /** Along any run without a second issue of the ID, a lookup that finds the lease
      returns the record as issued; whenever that record is reserved later, the cell
      is hot in the pool on record and gains exactly one acquisition. */
  lemma LeaseYieldsIssued(pools: Pools, s: State, es: seq<Event>, l: Id, later: seq<Event>)
    requires l in s.leases && Exec(pools, s, es).Some?
    requires forall i | 0 <= i < |es| :: !(es[i].IssueLease? && es[i].lease == l)
    requires Next(pools, Exec(pools, s, es).value, LookupLease(l)).Some?
    requires Exec(pools, Next(pools, Exec(pools, s, es).value, LookupLease(l)).value, later).Some?
    ensures var rec := s.leases[l];
            var found := Next(pools, Exec(pools, s, es).value, LookupLease(l)).value;
            var t := Exec(pools, found, later).value;
            && found.looked == Exec(pools, s, es).value.looked + {rec}
            && rec in t.looked
            && (Next(pools, t, AcquireLease(rec)).Some? ==>
                  && HotAt(t.shared, rec.pool, rec.container) && rec.pool in t.shared.out
                  && Next(pools, t, AcquireLease(rec)).value.shared.out ==
                     t.shared.out[rec.pool := t.shared.out[rec.pool] + multiset{rec.container}])
  {
    LeasePinned(pools, s, es, l);
    var found := Next(pools, Exec(pools, s, es).value, LookupLease(l)).value;
    LookedStays(pools, found, later, s.leases[l]);
    AcquireAdds(pools, Exec(pools, found, later).value, s.leases[l]);
  }

  lemma LookedStays(pools: Pools, s: State, es: seq<Event>, rec: Lease)
    requires rec in s.looked && Exec(pools, s, es).Some?
    ensures rec in Exec(pools, s, es).value.looked
  {
    forall x: State, e: Event | rec in x.looked && Next(pools, x, e).Some? ensures rec in Next(pools, x, e).value.looked {
      LookedStep(pools, x, e);
    }
    ExecKeeps(pools, s, es, (x: State) => rec in x.looked, (e: Event) => true);
  }

  lemma LookedStep(pools: Pools, s: State, e: Event)
    requires Next(pools, s, e).Some?
    ensures s.looked <= Next(pools, s, e).value.looked
  {
  }

  lemma AcquireAdds(pools: Pools, s: State, rec: Lease)
    ensures Next(pools, s, AcquireLease(rec)).Some? ==>
              && HotAt(s.shared, rec.pool, rec.container) && rec.pool in s.shared.out
              && Next(pools, s, AcquireLease(rec)).value.shared.out ==
                 s.shared.out[rec.pool := s.shared.out[rec.pool] + multiset{rec.container}]
  {
  }

  /** Once a container is gone no record of it can be reserved, along any run,
      whether it was looked up before or is looked up later. */
  lemma DeadLease(pools: Pools, s: State, es: seq<Event>, rec: Lease)
    requires Inv(pools, s) && Gone(s, rec.container) && Exec(pools, s, es).Some?
    ensures Next(pools, Exec(pools, s, es).value, AcquireLease(rec)).None?
  {
    GoneStays(pools, s, es, rec.container);
    GoneServesNone(pools, Exec(pools, s, es).value, rec);
  }

  lemma GoneServesNone(pools: Pools, s: State, rec: Lease)
    requires Gone(s, rec.container)
    ensures Next(pools, s, AcquireLease(rec)).None?
  {
    if rec.pool in s.shared.slots { assert !HotAt(s.shared, rec.pool, rec.container); }
  }

  lemma GoneStays(pools: Pools, s: State, es: seq<Event>, c: Id)
    requires Inv(pools, s) && Gone(s, c) && Exec(pools, s, es).Some?
    ensures Gone(Exec(pools, s, es).value, c)
  {
    forall x, e | Inv(pools, x) && Gone(x, c) && Next(pools, x, e).Some?
      ensures Inv(pools, Next(pools, x, e).value) && Gone(Next(pools, x, e).value, c)
    {
      GoneStep(pools, x, e, c);
      InvKept(pools, x, e);
    }
    ExecKeeps(pools, s, es, x => Inv(pools, x) && Gone(x, c), e => true);
  }

  // ---------- Theorem: exclusion ----------

  /** A request that excludes a valid lease never ends with that lease's cell, on
      its own pool or on the fallback, in any interleaving. */
  lemma ExcludedCellNotReturned(pools: Pools, s: State, r: nat)
    requires Reachable(pools, s) && r in s.reqs && s.reqs[r].excludedCell.Some?
    requires s.reqs[r].phase.Done? && s.reqs[r].phase.result.Some?
    ensures s.reqs[r].phase.result.value.container != s.reqs[r].excludedCell.value
  {
    ReachableInv(pools, s);
    assert Avoids(s.shared, s.reqs[r]);
  }

  // ---------- Theorem: one spawn serves every caller ----------

  /** Pool p is cold: empty slot, nobody spawning, nobody clearing, and no live
      request excludes anything. */
  ghost predicate Cold(s: State, p: Id) {
    && p in s.shared.slots && s.shared.slots[p].None? && p !in s.locks
    && (forall k | k in s.killers :: s.killers[k].pool != p)
    && (forall r | r in s.reqs && !s.reqs[r].phase.Done? :: s.reqs[r].exclude.None?)
  }

  /** No exclusion anywhere, no kill and no health failure on p. */
  predicate Quiet(e: Event, p: Id) {
    match e
    case Start(_, _, exclude, _) => exclude.None?
    case StartExcludingLease(_, _, _, _) => false
    case MarkFailed(pool, _) => pool != p
    case BeginReap(_, pool, _) => pool != p
    case BeginClose(_, pool) => pool != p
    case BeginClear(_, pool) => pool != p
    case _ => true
  }

  function Settled(s: State): set<nat> { set r | r in s.reqs && s.reqs[r].phase.Done? }

  /** What the request holds on pool p, if anything. */
  function Held(f: Phase, p: Id): Option<Id> {
    if (f.Done? || f.Unlocking?) && f.result.Some? && f.result.value.pool == p then Some(f.result.value.container) else None
  }

  ghost predicate ReqQuiet(slot: Option<Tunnel>, p: Id, q: Request) {
    && (!q.phase.Done? ==> q.exclude.None?)
    && ((q.phase.Picking? || q.phase.InSpawn? || q.phase.Publishing?) && q.phase.pool == p ==> slot.None?)
    && (Held(q.phase, p).Some? ==> slot.Some? && slot.value.container == Held(q.phase, p).value)
  }

  ghost predicate SlotQuiet(h: Shared, p: Id, base: seq<Id>) {
    && Known(h, p)
    && (if h.slots[p].None? then h.published[p] == base
        else h.slots[p].value.state.Hot? && h.published[p] == base + [h.slots[p].value.container])
  }

  ghost predicate InvQuiet(s: State, p: Id, base: seq<Id>, settled: set<nat>) {
    && SlotQuiet(s.shared, p, base)
    && (forall k | k in s.killers :: s.killers[k].pool != p)
    && (forall r | r in s.reqs && r !in settled :: ReqQuiet(s.shared.slots[p], p, s.reqs[r]))
    && (forall r | r in settled :: r in s.reqs && s.reqs[r].phase.Done?)
  }

  lemma SlotQuietMove(h: Shared, m: Move, h': Shared, p: Id, base: seq<Id>)
    requires Moves(h, m, h') && SlotQuiet(h, p, base)
    requires m.ClearIn? || m.Demote? ==> m.pool != p
    requires m.PublishIn? && m.pool == p ==> h.slots[p].None? && m.tunnel.state.Hot?
    ensures SlotQuiet(h', p, base)
    ensures h.slots[p].Some? ==> h'.slots[p].Some? && h'.slots[p].value.container == h.slots[p].value.container
    ensures h.slots[p].None? && !(m.PublishIn? && m.pool == p) ==> h'.slots[p].None?
  {
  }

  /** The request's own step on a quiet pool. */
  lemma OwnQuiet(pools: Pools, s: State, r: nat, e: ReqEvent, p: Id, base: seq<Id>)
    requires r in s.reqs && SlotQuiet(s.shared, p, base) && ReqQuiet(s.shared.slots[p], p, s.reqs[r])
    requires NextStep(pools, s, r, e).Some?
    requires s.reqs[r].phase.Unlocking? && s.reqs[r].phase.result.Some? ==> s.reqs[r].phase.result.value.pool == s.reqs[r].phase.pool
    ensures p in NextStep(pools, s, r, e).value.shared.slots
    ensures ReqQuiet(NextStep(pools, s, r, e).value.shared.slots[p], p, NextStep(pools, s, r, e).value.reqs[r])
  {
  }

  /** Other requests, when r publishes on p: the mutex kept them out. */
  lemma OthersOut(s: State, r: nat, x: nat, p: Id)
    requires InvLock(s) && r in s.reqs && x in s.reqs && x != r && Locked(s.reqs[r].phase) && s.reqs[r].phase.pool == p
    ensures !(Locked(s.reqs[x].phase) && s.reqs[x].phase.pool == p)
  {
  }

  lemma QuietKeptByStep(pools: Pools, s: State, r: nat, e: ReqEvent, p: Id, base: seq<Id>, settled: set<nat>)
    requires InvPools(pools, s) && PubsOf(s.shared, s.reqs) && InvLock(s) && InvQuiet(s, p, base, settled)
    requires NextStep(pools, s, r, e).Some?
    ensures InvQuiet(NextStep(pools, s, r, e).value, p, base, settled)
  {
    var t := NextStep(pools, s, r, e).value;
    var m := ReqMove(s.shared, s.reqs[r], e);
    ReqMoves(s.shared, s.reqs[r], e);
    assert r !in settled;
    SlotQuietMove(s.shared, m, t.shared, p, base);
    OwnQuiet(pools, s, r, e, p, base);
    forall x | x in s.reqs && x !in settled && x != r ensures ReqQuiet(t.shared.slots[p], p, s.reqs[x]) {
      if m.PublishIn? && m.pool == p { OthersOut(s, r, x, p); }
    }
  }

  lemma QuietOther(s: State, e: Event, t: State, m: Move, p: Id, base: seq<Id>, settled: set<nat>)
    requires InvQuiet(s, p, base, settled) && Quiet(e, p) && OtherRel(s, e, t) && Moves(s.shared, m, t.shared)
    requires !m.PublishIn? && (m.ClearIn? || m.Demote? ==> m.pool != p)
    ensures InvQuiet(t, p, base, settled)
  {
    SlotQuietMove(s.shared, m, t.shared, p, base);
  }

  lemma QuietKeptByOther(pools: Pools, s: State, e: Event, p: Id, base: seq<Id>, settled: set<nat>)
    requires InvQuiet(s, p, base, settled) && Quiet(e, p) && !e.Step? && Next(pools, s, e).Some?
    ensures InvQuiet(Next(pools, s, e).value, p, base, settled)
  {
    OtherFrame(pools, s, e);
    EventMoves(pools, s, e);
    OtherMove(s, e, p);
    QuietOther(s, e, Next(pools, s, e).value, MoveOf(s, e), p, base, settled);
  }

  lemma OtherMove(s: State, e: Event, p: Id)
    requires Quiet(e, p) && !e.Step? && forall k | k in s.killers :: s.killers[k].pool != p
    ensures var m := MoveOf(s, e); !m.PublishIn? && (m.ClearIn? || m.Demote? ==> m.pool != p)
  {
  }

  ghost predicate QuietState(pools: Pools, s: State, p: Id, base: seq<Id>, settled: set<nat>) {
    Inv(pools, s) && InvQuiet(s, p, base, settled)
  }

  lemma QuietKept(pools: Pools, s: State, e: Event, p: Id, base: seq<Id>, settled: set<nat>)
    requires QuietState(pools, s, p, base, settled) && Quiet(e, p) && Next(pools, s, e).Some?
    ensures QuietState(pools, Next(pools, s, e).value, p, base, settled)
  {
    InvKept(pools, s, e);
    if e.Step? {
      QuietKeptByStep(pools, s, e.r, e.e, p, base, settled);
    } else {
      QuietKeptByOther(pools, s, e, p, base, settled);
    }
  }

  lemma QuietRun(pools: Pools, s: State, es: seq<Event>, p: Id, base: seq<Id>, settled: set<nat>)
    requires QuietState(pools, s, p, base, settled) && Exec(pools, s, es).Some?
    requires forall i | 0 <= i < |es| :: Quiet(es[i], p)
    ensures QuietState(pools, Exec(pools, s, es).value, p, base, settled)
  {
    forall x, e | QuietState(pools, x, p, base, settled) && Quiet(e, p) && Next(pools, x, e).Some?
      ensures QuietState(pools, Next(pools, x, e).value, p, base, settled)
    {
      QuietKept(pools, x, e, p, base, settled);
    }
    ExecKeeps(pools, s, es, x => QuietState(pools, x, p, base, settled), e => Quiet(e, p));
  }

  lemma ColdIsQuiet(pools: Pools, s: State, p: Id)
    requires InvPools(pools, s) && InvFlight(s.shared) && InvLock(s) && Cold(s, p)
    ensures Known(s.shared, p) && InvQuiet(s, p, s.shared.published[p], Settled(s))
  {
    forall r | r in s.reqs && r !in Settled(s) ensures ReqQuiet(s.shared.slots[p], p, s.reqs[r]) {
      assert PhaseOk(pools, s.reqs[r].phase);
    }
  }

  /** From a cold pool, however many callers race: without exclusions, kills or
      health failures at most one spawn is published, and every caller that ends
      with a cell of the pool has that one. */
  lemma OneSpawnForAll(pools: Pools, s: State, es: seq<Event>, p: Id)
    requires Reachable(pools, s) && Cold(s, p) && Exec(pools, s, es).Some?
    requires forall i | 0 <= i < |es| :: Quiet(es[i], p)
    ensures p in s.shared.published && p in Exec(pools, s, es).value.shared.published
    ensures var t := Exec(pools, s, es).value;
            var base := s.shared.published[p];
            && (t.shared.published[p] == base || exists c :: t.shared.published[p] == base + [c])
            && (forall r | r in t.reqs && r !in Settled(s) && Held(t.reqs[r].phase, p).Some? ::
                  t.shared.published[p] == base + [Held(t.reqs[r].phase, p).value])
  {
    ReachableInv(pools, s);
    ColdIsQuiet(pools, s, p);
    QuietRun(pools, s, es, p, s.shared.published[p], Settled(s));
    QuietMeans(pools, Exec(pools, s, es).value, p, s.shared.published[p], Settled(s));
  }

  lemma QuietMeans(pools: Pools, s: State, p: Id, base: seq<Id>, settled: set<nat>)
    requires QuietState(pools, s, p, base, settled)
    ensures Known(s.shared, p)
    ensures s.shared.published[p] == base || exists c :: s.shared.published[p] == base + [c]
    ensures forall r | r in s.reqs && r !in settled && Held(s.reqs[r].phase, p).Some? ::
              s.shared.published[p] == base + [Held(s.reqs[r].phase, p).value]
  {
  }
}
