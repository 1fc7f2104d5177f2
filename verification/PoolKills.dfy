/** Kills against use: when reapers, DestroyCell, Close and the orphan pass hit a
    cell somebody holds, and what becomes of a killed cell. */
module PoolKills {
  import opened Wrappers
  import opened Tunnels
  import opened PoolMachine
  import Orphans

  // ---------- Reaching states ----------

  lemma {:induction false} ReachNext(pools: Pools, s: State, es: seq<Event>, e: Event, t: State)
    requires Exec(pools, s, es).Some? && Next(pools, Exec(pools, s, es).value, e) == Some(t)
    ensures Exec(pools, s, es + [e]) == Some(t)
    decreases |es|
  {
    if es == [] {
      assert [e][1..] == [] && es + [e] == [e];
    } else {
      ReachNext(pools, Next(pools, s, es[0]).value, es[1..], e, t);
      assert (es + [e])[1..] == es[1..] + [e];
    }
  }

  lemma Reach(pools: Pools, s: State, e: Event)
    requires Reachable(pools, s) && Next(pools, s, e).Some?
    ensures Reachable(pools, Next(pools, s, e).value)
  {
    var es :| Exec(pools, Init(pools), es) == Some(s);
    ReachNext(pools, Init(pools), es, e, Next(pools, s, e).value);
  }

  /** What a reaper's snapshot of pool p records. */
  function Seen(h: Shared, p: Id, idle: bool): Killer
    requires Known(h, p) && h.slots[p].Some?
  {
    Marking(p, h.slots[p].value.container, idle, h.acquired[p], |h.published[p]|)
  }

  lemma RaceSnapshot(pools: Pools, s: State, p: Id, k: nat, idle: bool)
    requires Known(s.shared, p) && s.shared.slots[p].Some? && k !in s.killers
    requires if idle then s.shared.slots[p].value.inFlight <= 0 else s.shared.slots[p].value.state.Hot?
    ensures Next(pools, s, BeginReap(k, p, idle)) == Some(s.(killers := s.killers[k := Seen(s.shared, p, idle)]))
  {
  }

  lemma RaceStart(pools: Pools, s: State, p: Id, r: nat)
    requires p in pools && r !in s.reqs
    ensures Next(pools, s, Start(r, p, None, false)) ==
            Some(s.(reqs := s.reqs[r := Request(None, None, false, false, p, Fast(p))]))
  {
  }

  lemma RaceTake(pools: Pools, s: State, p: Id, r: nat)
    requires Known(s.shared, p) && s.shared.slots[p].Some? && s.shared.slots[p].value.state.Hot?
    requires r in s.reqs && s.reqs[r] == Request(None, None, false, false, p, Fast(p))
    ensures Next(pools, s, Step(r, Try)).Some?
    ensures Next(pools, s, Step(r, Try)).value.shared == Take(s.shared, p)
    ensures Next(pools, s, Step(r, Try)).value.killers == s.killers
  {
  }

  /** The state with plain request r for pool p in phase f. */
  function With(s: State, r: nat, p: Id, f: Phase): State {
    s.(reqs := s.reqs[r := Request(None, None, false, false, p, f)])
  }

  lemma WithTwice(s: State, r: nat, p: Id, f: Phase, f': Phase)
    ensures With(With(s, r, p, f), r, p, f') == With(s, r, p, f')
  {
    assert With(With(s, r, p, f), r, p, f').reqs == With(s, r, p, f').reqs;
  }

  /** A step of the plain request that leaves the mutexes alone. */
  lemma StepWith(pools: Pools, s: State, r: nat, p: Id, f: Phase, e: ReqEvent, h: Shared, f': Phase)
    requires Reachable(pools, With(s, r, p, f)) && !e.Lock? && !e.Unlock?
    requires NextReq(s.shared, Request(None, None, false, false, p, f), e) == Some((h, f'))
    ensures Reachable(pools, With(s.(shared := h), r, p, f'))
  {
    WithTwice(s.(shared := h), r, p, f, f');
    Reach(pools, With(s, r, p, f), Step(r, e));
  }

  lemma LockWith(pools: Pools, s: State, r: nat, p: Id)
    requires Reachable(pools, With(s, r, p, Queued(p))) && p !in s.locks
    ensures Reachable(pools, With(s.(locks := s.locks[p := r]), r, p, Recheck(p)))
  {
    WithTwice(s.(locks := s.locks[p := r]), r, p, Queued(p), Recheck(p));
    Reach(pools, With(s, r, p, Queued(p)), Step(r, Lock));
  }

  lemma UnlockWith(pools: Pools, s: State, r: nat, p: Id, got: Option<Acq>)
    requires Reachable(pools, With(s.(locks := s.locks[p := r]), r, p, Unlocking(p, got))) && p !in s.locks
    ensures Reachable(pools, With(s, r, p, Done(got)))
  {
    var u := s.(locks := s.locks[p := r]);
    WithTwice(u, r, p, Unlocking(p, got), Done(got));
    assert u.locks - {p} == s.locks;
    Reach(pools, With(u, r, p, Unlocking(p, got)), Step(r, Unlock));
  }

  function Newborn(c: Id, conf: Id): Tunnel { Tunnel(c, conf, None, "", Hot, 1) }

  function Spawned(h: Shared, p: Id, c: Id, conf: Id): Shared
    requires Known(h, p)
  {
    Publish(h.(born := h.born[c := None]), p, Newborn(c, conf))
  }

  /** A new caller queues up for a pool that cannot serve it, and gets its mutex. */
  lemma QueueUp(pools: Pools, s: State, p: Id, r: nat)
    requires Reachable(pools, s) && p in pools && Known(s.shared, p) && p !in s.locks && r !in s.reqs
    requires s.shared.slots[p].Some? ==> !s.shared.slots[p].value.state.Hot?
    ensures Reachable(pools, With(s.(locks := s.locks[p := r]), r, p, Picking(p)))
  {
    RaceStart(pools, s, p, r);
    Reach(pools, s, Start(r, p, None, false));
    StepWith(pools, s, r, p, Fast(p), Try, s.shared, Queued(p));
    LockWith(pools, s, r, p);
    StepWith(pools, s.(locks := s.locks[p := r]), r, p, Recheck(p), Try, s.shared, Picking(p));
  }

  /** The holder of the mutex spawns and publishes. */
  lemma SpawnHeld(pools: Pools, u: State, p: Id, r: nat, c: Id, conf: Id)
    requires Reachable(pools, With(u, r, p, Picking(p))) && Known(u.shared, p) && c !in u.shared.born
    ensures Reachable(pools, With(u.(shared := Spawned(u.shared, p, c, conf)), r, p, Unlocking(p, Some(Acq(p, c)))))
  {
    var h := u.shared.(born := u.shared.born[c := None]);
    StepWith(pools, u, r, p, Picking(p), Pick(conf), u.shared, InSpawn(p, conf));
    StepWith(pools, u, r, p, InSpawn(p, conf), SpawnOk(c, None, ""), h, Publishing(p, Newborn(c, conf)));
    StepWith(pools, u.(shared := h), r, p, Publishing(p, Newborn(c, conf)), DoPublish, Spawned(u.shared, p, c, conf),
             Unlocking(p, Some(Acq(p, c))));
  }

  /** From any reachable state a pool that cannot serve spawns for a new caller. */
  lemma SpawnInto(pools: Pools, s: State, p: Id, r: nat, c: Id, conf: Id) returns (t: State)
    requires Reachable(pools, s) && p in pools && Known(s.shared, p) && p !in s.locks && r !in s.reqs && c !in s.shared.born
    requires s.shared.slots[p].Some? ==> !s.shared.slots[p].value.state.Hot?
    ensures Reachable(pools, t) && t.shared == Spawned(s.shared, p, c, conf)
    ensures t.killers == s.killers && t.killed == s.killed && t.locks == s.locks && t.reqs.Keys == s.reqs.Keys + {r}
  {
    QueueUp(pools, s, p, r);
    SpawnHeld(pools, s.(locks := s.locks[p := r]), p, r, c, conf);
    var v := s.(shared := Spawned(s.shared, p, c, conf));
    UnlockWith(pools, v, r, p, Some(Acq(p, c)));
    t := With(v, r, p, Done(Some(Acq(p, c))));
  }

  const CELL_1 := Id("c1")
  const CELL_2 := Id("c2")
  const CONF_1 := Id("k1")
  const CONF_2 := Id("k2")

  lemma FirstSpawn(pools: Pools, p: Id) returns (s: State)
    requires p in pools
    ensures Reachable(pools, s) && Known(s.shared, p) && s.shared.slots[p] == Some(Newborn(CELL_1, CONF_1))
    ensures s.shared.out[p] == multiset{CELL_1} && s.shared.born.Keys == {CELL_1} && p !in s.shared.outlived
    ensures |s.shared.published[p]| == 1
    ensures s.killers == map[] && s.killed == {} && s.locks == map[] && s.reqs.Keys == {0}
  {
    var init := Init(pools);
    assert Exec(pools, init, []) == Some(init);
    s := SpawnInto(pools, init, p, 0, CELL_1, CONF_1);
  }

  /** A health reap of the first cell has marked it when a second takes its place. */
  lemma ReplacedSpawn(pools: Pools, p: Id) returns (s: State)
    requires p in pools
    ensures Reachable(pools, s) && Known(s.shared, p) && s.shared.slots[p] == Some(Newborn(CELL_2, CONF_2))
    ensures s.shared.out[p] == multiset{CELL_1, CELL_2} && s.shared.born.Keys == {CELL_1, CELL_2}
    ensures s.killers == map[8 := Killing(p, CELL_1, true, 1)] && s.killed == {}
  {
    var u := MarkedSpawn(pools, p);
    s := SpawnInto(pools, u, p, 1, CELL_2, CONF_2);
  }

  lemma MarkedSpawn(pools: Pools, p: Id) returns (s: State)
    requires p in pools
    ensures Reachable(pools, s) && Known(s.shared, p)
    ensures s.shared.slots[p] == Some(Newborn(CELL_1, CONF_1).(state := Reaping))
    ensures s.shared.out[p] == multiset{CELL_1} && s.shared.born.Keys == {CELL_1}
    ensures s.killers == map[8 := Killing(p, CELL_1, true, 1)] && s.killed == {} && s.locks == map[] && s.reqs.Keys == {0}
  {
    var u := FirstSpawn(pools, p);
    RaceSnapshot(pools, u, p, 8, false);
    Reach(pools, u, BeginReap(8, p, false));
    s := Next(pools, u, BeginReap(8, p, false)).value;
    Reach(pools, s, MarkReaping(8));
    s := Next(pools, s, MarkReaping(8)).value;
  }

  // ---------- Reapers and tunnels in use ----------

  /** Against the promise that an in-flight tunnel is not reaped: the idle check
      reads a snapshot, so from every reachable state with an idle hot tunnel a
      later acquisition goes unseen and the busy tunnel is about to be marked. */
  lemma IdleReapRace(pools: Pools, s: State, p: Id, k: nat, r: nat) returns (t: State)
    requires Reachable(pools, s) && p in pools && Known(s.shared, p) && s.shared.slots[p].Some?
    requires s.shared.slots[p].value.state.Hot? && s.shared.slots[p].value.inFlight == 0
    requires k !in s.killers && r !in s.reqs
    ensures Reachable(pools, t) && k in t.killers && Known(t.shared, p) && t.shared.slots[p].Some?
    ensures t.killers[k] == Seen(s.shared, p, true)
    ensures t.shared.slots[p].value == s.shared.slots[p].value.(inFlight := 1)
    ensures t.shared.slots[p].value.container in t.shared.out[p]
  {
    RaceSnapshot(pools, s, p, k, true);
    Reach(pools, s, BeginReap(k, p, true));
    var s1 := s.(killers := s.killers[k := Seen(s.shared, p, true)]);
    RaceStart(pools, s1, p, r);
    Reach(pools, s1, Start(r, p, None, false));
    var s2 := s1.(reqs := s1.reqs[r := Request(None, None, false, false, p, Fast(p))]);
    RaceTake(pools, s2, p, r);
    Reach(pools, s2, Step(r, Try));
    t := Next(pools, s2, Step(r, Try)).value;
  }

  /** Every pool can hold an idle hot tunnel, so the race above can happen. */
  lemma IdleHotReachable(pools: Pools, p: Id) returns (s: State)
    requires p in pools
    ensures Reachable(pools, s) && Known(s.shared, p) && s.shared.slots[p].Some?
    ensures s.shared.slots[p].value.state.Hot? && s.shared.slots[p].value.inFlight == 0
    ensures s.killers == map[] && s.reqs.Keys == {0}
  {
    var u := FirstSpawn(pools, p);
    Reach(pools, u, Release(p, CELL_1));
    s := Next(pools, u, Release(p, CELL_1)).value;
  }

  /** A second way, with no acquisition after the snapshot: in every pool a release
      of a former tunnel's acquisition can lower the count of the tunnel that
      replaced it, which the idle reaper then marks while in use. */
  lemma LostReleaseRace(pools: Pools, p: Id) returns (s: State)
    requires p in pools
    ensures Reachable(pools, s) && Known(s.shared, p) && 9 in s.killers && s.shared.slots[p].Some?
    ensures s.killers[9] == Seen(s.shared, p, true)
    ensures HotAt(s.shared, p, CELL_2) && CELL_2 in s.shared.out[p]
  {
    var u := ReplacedSpawn(pools, p);
    Reach(pools, u, Release(p, CELL_1));
    var v := Next(pools, u, Release(p, CELL_1)).value;
    assert v.shared.out[p] == multiset{CELL_2};
    RaceSnapshot(pools, v, p, 9, true);
    Reach(pools, v, BeginReap(9, p, true));
    s := Next(pools, v, BeginReap(9, p, true)).value;
  }

  /** A third: the health loop never looks at the count. From every reachable state
      with a hot tunnel, whatever is in flight on it, a health reap marks it. */
  lemma HealthReapIgnoresUse(pools: Pools, s: State, p: Id, k: nat) returns (t: State, u: State)
    requires Reachable(pools, s) && Known(s.shared, p) && s.shared.slots[p].Some?
    requires s.shared.slots[p].value.state.Hot? && k !in s.killers
    ensures Reachable(pools, t) && t == s.(killers := s.killers[k := Seen(s.shared, p, false)])
    ensures Reachable(pools, u) && u.shared.out == s.shared.out && Known(u.shared, p)
    ensures u.shared.slots[p] == Some(s.shared.slots[p].value.(state := Reaping))
    ensures k in u.killers && u.killers[k].Killing? && u.killers[k].container == s.shared.slots[p].value.container
  {
    RaceSnapshot(pools, s, p, k, false);
    Reach(pools, s, BeginReap(k, p, false));
    t := s.(killers := s.killers[k := Seen(s.shared, p, false)]);
    Reach(pools, t, MarkReaping(k));
    u := Next(pools, t, MarkReaping(k)).value;
  }

  /** It happens with nothing acquired since the snapshot and nothing outlived. */
  lemma HealthReapHitsUse(pools: Pools, p: Id) returns (s: State)
    requires p in pools
    ensures Reachable(pools, s) && Known(s.shared, p) && 9 in s.killers && s.shared.slots[p].Some?
    ensures s.killers[9] == Seen(s.shared, p, false) && p !in s.shared.outlived
    ensures HotAt(s.shared, p, CELL_1) && s.shared.slots[p].value.inFlight == 1 && CELL_1 in s.shared.out[p]
  {
    var u := FirstSpawn(pools, p);
    var t, _ := HealthReapIgnoresUse(pools, u, p, 9);
    s := t;
  }

  /** Every reaper, idle or health, about to mark the tunnel it saw: the tunnel is in
      use exactly when its count or what the count lost is positive. */
  lemma MarkExact(pools: Pools, es: seq<Event>, s: State, k: nat)
    requires Exec(pools, Init(pools), es) == Some(s) && k in s.killers && s.killers[k].Marking?
    requires s.killers[k].pool in pools && Known(s.shared, s.killers[k].pool)
    requires s.shared.slots[s.killers[k].pool].Some?
    requires s.shared.slots[s.killers[k].pool].value.container == s.killers[k].container
    ensures var p := s.killers[k].pool;
            && p in Lost(pools, es)
            && (s.killers[k].container in s.shared.out[p] <==>
                  s.shared.slots[p].value.inFlight > 0 || Lost(pools, es)[p] > 0)
  {
    InUseExact(pools, es, s, s.killers[k].pool);
  }

  /** Releases of container c to pool p along a run. */
  function Returned(es: seq<Event>, p: Id, c: Id): nat {
    if es == [] then 0 else (if es[0] == Release(p, c) then 1 else 0) + Returned(es[1..], p, c)
  }

  /** Whether the move acquires container c on pool p. */
  function Takes(h: Shared, m: Move, p: Id, c: Id): nat {
    match m
    case TakeIn(q) => if q == p && p in h.slots && h.slots[p].Some? && h.slots[p].value.container == c then 1 else 0
    case PublishIn(q, t) => if q == p && t.container == c then 1 else 0
    case _ => 0
  }

  /** Acquisitions of container c on pool p along a run. */
  function Acquired(pools: Pools, s: State, es: seq<Event>, p: Id, c: Id): nat
    decreases |es|
  {
    if es == [] then 0
    else match Next(pools, s, es[0])
      case None => 0
      case Some(t) => Takes(s.shared, MoveOf(s, es[0]), p, c) + Acquired(pools, t, es[1..], p, c)
  }

  lemma HoldersMove(h: Shared, m: Move, h': Shared, p: Id, c: Id)
    requires Moves(h, m, h') && p in h.out && p in h.acquired
    ensures p in h'.out && p in h'.acquired && h.acquired[p] + Takes(h, m, p, c) <= h'.acquired[p]
    ensures h'.out[p][c] + (if m == GiveIn(p, c) then 1 else 0) == h.out[p][c] + Takes(h, m, p, c)
  {
  }

  /** Along any run the holders of a container change by exactly its acquisitions and
      its releases, and the former are among the pool's. */
  lemma {:induction false} HoldersSince(pools: Pools, s: State, es: seq<Event>, p: Id, c: Id)
    requires Exec(pools, s, es).Some? && p in s.shared.out && p in s.shared.acquired
    ensures var h, h' := s.shared, Exec(pools, s, es).value.shared;
            && p in h'.out && p in h'.acquired
            && h'.out[p][c] + Returned(es, p, c) == h.out[p][c] + Acquired(pools, s, es, p, c)
            && h.acquired[p] + Acquired(pools, s, es, p, c) <= h'.acquired[p]
    decreases |es|
  {
    if es != [] {
      EventMoves(pools, s, es[0]);
      HoldersMove(s.shared, MoveOf(s, es[0]), Next(pools, s, es[0]).value.shared, p, c);
      HoldersSince(pools, Next(pools, s, es[0]).value, es[1..], p, c);
    }
  }

  /** Every Kill, by whichever loop or call, any time after its snapshot and whatever
      the slot holds by then: the container is in use exactly when fewer of its
      acquisitions were released since the snapshot than were outstanding at it or
      made since; without an acquisition on the pool since, than were outstanding. */
  lemma KillExact(pools: Pools, s: State, es: seq<Event>, p: Id, c: Id)
    requires Exec(pools, s, es).Some? && p in s.shared.out && p in s.shared.acquired
    ensures var t := Exec(pools, s, es).value;
            && p in t.shared.out && p in t.shared.acquired
            && (c in t.shared.out[p] <==> Returned(es, p, c) < s.shared.out[p][c] + Acquired(pools, s, es, p, c))
            && (t.shared.acquired[p] == s.shared.acquired[p] ==>
                  (c in t.shared.out[p] <==> Returned(es, p, c) < s.shared.out[p][c]))
  {
    HoldersSince(pools, s, es, p, c);
  }

  /** The idle loop alone honours the count, and this far: its Kill hits nobody when
      at the snapshot no acquisition of the pool had outlived its tunnel and none was
      made since, whatever the slot holds by then. */
  lemma IdleKillSafe(pools: Pools, before: seq<Event>, s: State, k: nat, p: Id, es: seq<Event>)
    requires Exec(pools, Init(pools), before) == Some(s) && p in pools && p !in s.shared.outlived
    requires Next(pools, s, BeginReap(k, p, true)).Some?
    requires Exec(pools, Next(pools, s, BeginReap(k, p, true)).value, es).Some?
    ensures Known(s.shared, p) && s.shared.slots[p].Some?
    ensures var t := Exec(pools, Next(pools, s, BeginReap(k, p, true)).value, es).value;
            && p in t.shared.acquired && p in t.shared.out
            && (t.shared.acquired[p] == s.shared.acquired[p] ==>
                  s.shared.slots[p].value.container !in t.shared.out[p])
  {
    var u := Next(pools, s, BeginReap(k, p, true)).value;
    InUseExact(pools, before, s, p);
    KillExact(pools, u, es, p, s.shared.slots[p].value.container);
  }

  // ---------- The orphan pass and tunnels in use ----------

  /** The keep set of an orphan pass. */
  function Kept(h: Shared): set<Id> { set p | p in h.slots && h.slots[p].Some? :: h.slots[p].value.container }

  /** Nobody holds through one pool what sits in another. */
  ghost predicate HomeOk(h: Shared) {
    forall p, q, c {:trigger AwayAt(h, p, q, c)} :: !AwayAt(h, p, q, c)
  }

  /** Container c is held through pool p and sits in pool q. */
  predicate AwayAt(h: Shared, p: Id, q: Id, c: Id) {
    p in h.out && q in h.slots && q != p && c in h.out[p] && h.slots[q].Some? && h.slots[q].value.container == c
  }

  lemma HomeMove(h: Shared, m: Move, h': Shared)
    requires CellsOf(h) && HomeOk(h) && Moves(h, m, h')
    requires m.PublishIn? ==> PubOk(h, m.tunnel) && forall p | p in h.out :: m.tunnel.container !in h.out[p]
    ensures HomeOk(h')
  {
    forall p, q, c ensures !AwayAt(h', p, q, c) { AwayMove(h, m, h', p, q, c); }
  }

  lemma AwayMove(h: Shared, m: Move, h': Shared, p: Id, q: Id, c: Id)
    requires !AwayAt(h, p, q, c) && Moves(h, m, h')
    requires p != q && p in h.slots && q in h.slots && h.slots[p].Some? && h.slots[q].Some? ==>
               h.slots[p].value.container != h.slots[q].value.container
    requires m.PublishIn? ==>
               && (p in h.out ==> m.tunnel.container !in h.out[p])
               && (q in h.slots && h.slots[q].Some? ==> m.tunnel.container != h.slots[q].value.container)
    ensures !AwayAt(h', p, q, c)
  {
  }

  ghost predicate Homed(pools: Pools, s: State) {
    Inv(pools, s) && OutOk(s.shared, s.reqs) && HomeOk(s.shared)
  }

  lemma PublishesUnheld(s: State, e: Event)
    requires OutOk(s.shared, s.reqs)
    ensures MoveOf(s, e).PublishIn? ==> forall p | p in s.shared.out :: MoveOf(s, e).tunnel.container !in s.shared.out[p]
  {
  }

  lemma HomeKept(pools: Pools, s: State, e: Event)
    requires CellsOf(s.shared) && PubsOf(s.shared, s.reqs) && OutOk(s.shared, s.reqs)
    requires HomeOk(s.shared) && Next(pools, s, e).Some?
    ensures HomeOk(Next(pools, s, e).value.shared)
  {
    EventMoves(pools, s, e);
    PublishesOk(s, e);
    PublishesUnheld(s, e);
    HomeMove(s.shared, MoveOf(s, e), Next(pools, s, e).value.shared);
  }

  lemma HomedStep(pools: Pools, s: State, e: Event)
    requires Homed(pools, s) && Next(pools, s, e).Some?
    ensures Homed(pools, Next(pools, s, e).value)
  {
    InvKept(pools, s, e);
    OutKept(pools, s, e);
    HomeKept(pools, s, e);
  }

  lemma HomedRun(pools: Pools, es: seq<Event>)
    requires Exec(pools, Init(pools), es).Some?
    ensures Homed(pools, Exec(pools, Init(pools), es).value)
  {
    InitBooked(pools);
    forall x, e | Homed(pools, x) && Next(pools, x, e).Some? ensures Homed(pools, Next(pools, x, e).value) {
      HomedStep(pools, x, e);
    }
    ExecKeeps(pools, Init(pools), es, x => Homed(pools, x), e => true);
  }

  lemma ReachableHomed(pools: Pools, s: State)
    requires Reachable(pools, s)
    ensures Homed(pools, s)
  {
    var es :| Exec(pools, Init(pools), es) == Some(s);
    HomedRun(pools, es);
  }

  /** A listed container that somebody holds is killed by an orphan pass over this
      state exactly when it is old enough, reapable and no longer in its pool's slot;
      and then an acquisition of the pool has outlived its tunnel. */
  lemma OrphanHeldExact(pools: Pools, s: State, p: Id, cell: Orphans.Container, now: int, timeout: int)
    requires Reachable(pools, s) && p in pools && Known(s.shared, p) && cell.id in s.shared.out[p]
    ensures Orphans.Doomed(cell, Kept(s.shared), true, now, timeout) <==>
            && now - cell.created * Orphans.SECOND >= Orphans.MinAge(timeout) && Orphans.Reapable(cell.state)
            && !(s.shared.slots[p].Some? && s.shared.slots[p].value.container == cell.id)
    ensures !(s.shared.slots[p].Some? && s.shared.slots[p].value.container == cell.id) ==> p in s.shared.outlived
  {
    ReachableHomed(pools, s);
    KeptHeld(s.shared, p, cell.id);
    if p !in s.shared.outlived { NotOutlived(pools, s, p, cell.id); }
  }

  lemma KeptHeld(h: Shared, p: Id, c: Id)
    requires HomeOk(h) && p in h.out && p in h.slots && c in h.out[p]
    ensures c in Kept(h) <==> h.slots[p].Some? && h.slots[p].value.container == c
  {
    if c in Kept(h) {
      var q :| q in h.slots && h.slots[q].Some? && h.slots[q].value.container == c;
      assert !AwayAt(h, p, q, c);
    }
  }

  lemma NotOutlived(pools: Pools, s: State, p: Id, c: Id)
    requires Reachable(pools, s) && p in pools && Known(s.shared, p) && c in s.shared.out[p] && p !in s.shared.outlived
    ensures s.shared.slots[p].Some? && s.shared.slots[p].value.container == c
  {
    var es :| Exec(pools, Init(pools), es) == Some(s);
    InitBooked(pools);
    BookedRun(pools, Init(pools), es, map x | x in pools :: 0);
    assert LedgerAt(s.shared, p, Lost(pools, es)[p]);
  }

  /** In every pool: a cell somebody holds has lost its slot to a successor, and an
      orphan pass kills it as soon as it is old enough. */
  lemma OrphanKillsHeld(pools: Pools, p: Id, now: int, timeout: int) returns (s: State)
    requires p in pools && now >= Orphans.MinAge(timeout)
    ensures Reachable(pools, s) && Known(s.shared, p) && CELL_1 in s.shared.out[p]
    ensures Orphans.Doomed(Orphans.Container(CELL_1, 0, "running"), Kept(s.shared), true, now, timeout)
  {
    s := ReplacedSpawn(pools, p);
    OrphanHeldExact(pools, s, p, Orphans.Container(CELL_1, 0, "running"), now, timeout);
  }

  /** A container outside the keep set that somebody holds by the time of its Kill:
      either it was not published yet when the keep set was taken, which is what the
      age bound is for, or it was held then already and had outlived its tunnel. */
  lemma OrphanGap(pools: Pools, s: State, es: seq<Event>, p: Id, c: Id)
    requires Reachable(pools, s) && p in pools && Known(s.shared, p) && Exec(pools, s, es).Some? && c !in Kept(s.shared)
    requires p in Exec(pools, s, es).value.shared.out && c in Exec(pools, s, es).value.shared.out[p]
    ensures || c !in s.shared.born
            || (exists r :: r in s.reqs && s.reqs[r].phase.Publishing? && s.reqs[r].phase.tunnel.container == c)
            || (c in s.shared.out[p] && p in s.shared.outlived)
  {
    if c in s.shared.born && forall r | r in s.reqs && s.reqs[r].phase.Publishing? :: s.reqs[r].phase.tunnel.container != c {
      UnkeptGone(s, c);
      ReachableInv(pools, s);
      GoneForever(pools, s, es, c, p);
      if p !in s.shared.outlived { NotOutlived(pools, s, p, c); }
    }
  }

  lemma UnkeptGone(s: State, c: Id)
    requires c in s.shared.born && c !in Kept(s.shared)
    requires forall r | r in s.reqs && s.reqs[r].phase.Publishing? :: s.reqs[r].phase.tunnel.container != c
    ensures Gone(s, c)
  {
    forall p | p in s.shared.slots ensures !HotAt(s.shared, p, c) {
      if s.shared.slots[p].Some? { assert s.shared.slots[p].value.container in Kept(s.shared); }
    }
  }

  // ---------- What becomes of a killed cell ----------

  /** After the run, event e hands container c of pool p to somebody. */
  ghost predicate HandsOut(pools: Pools, s: State, es: seq<Event>, e: Event, p: Id, c: Id) {
    && Exec(pools, s, es).Some? && Next(pools, Exec(pools, s, es).value, e).Some?
    && p in Exec(pools, s, es).value.shared.out && p in Next(pools, Exec(pools, s, es).value, e).value.shared.out
    && Next(pools, Exec(pools, s, es).value, e).value.shared.out[p][c] > Exec(pools, s, es).value.shared.out[p][c]
  }

  lemma GoneNotHandedOut(pools: Pools, s: State, es: seq<Event>, e: Event, p: Id, c: Id)
    requires Inv(pools, s) && Gone(s, c)
    ensures !HandsOut(pools, s, es, e, p, c)
  {
    if HandsOut(pools, s, es, e, p, c) {
      GoneStays(pools, s, es, c);
      GoneStep(pools, Exec(pools, s, es).value, e, c);
    }
  }

  lemma {:induction false} FreshNat(s: set<nat>) returns (r: nat)
    ensures forall x | x in s :: x < r
    decreases |s|
  {
    if s == {} {
      r := 0;
    } else {
      var x :| x in s;
      var q := FreshNat(s - {x});
      r := if q <= x then x + 1 else q;
      forall y | y in s ensures y < r { if y != x { assert y in s - {x}; } }
    }
  }

  lemma HotHandedOut(pools: Pools, s: State, p: Id, c: Id)
    requires Inv(pools, s) && p in s.shared.slots && HotAt(s.shared, p, c)
    ensures exists es, e :: HandsOut(pools, s, es, e, p, c)
  {
    var r := FreshNat(s.reqs.Keys);
    RaceStart(pools, s, p, r);
    var t := s.(reqs := s.reqs[r := Request(None, None, false, false, p, Fast(p))]);
    assert [Start(r, p, None, false)][1..] == [];
    assert Exec(pools, t, []) == Some(t);
    assert Exec(pools, s, [Start(r, p, None, false)]) == Some(t);
    RaceTake(pools, t, p, r);
    assert HandsOut(pools, s, [Start(r, p, None, false)], Step(r, Try), p, c);
  }

  lemma WaitingHandedOut(pools: Pools, s: State, r: nat, c: Id)
    requires Inv(pools, s) && r in s.reqs && s.reqs[r].phase.Publishing? && s.reqs[r].phase.tunnel.container == c
    ensures exists es, e :: HandsOut(pools, s, es, e, s.reqs[r].phase.pool, c)
  {
    assert PhaseOk(pools, s.reqs[r].phase);
    PublishTakes(pools, s, r);
    assert Exec(pools, s, []) == Some(s);
    assert HandsOut(pools, s, [], Step(r, DoPublish), s.reqs[r].phase.pool, c);
  }

  lemma PublishTakes(pools: Pools, s: State, r: nat)
    requires r in s.reqs && s.reqs[r].phase.Publishing? && Known(s.shared, s.reqs[r].phase.pool)
    ensures Next(pools, s, Step(r, DoPublish)).Some?
    ensures var p, c := s.reqs[r].phase.pool, s.reqs[r].phase.tunnel.container;
            Next(pools, s, Step(r, DoPublish)).value.shared.out == s.shared.out[p := s.shared.out[p] + multiset{c}]
  {
  }

  /** A container, killed or not, can still be handed out in some continuation exactly
      while it is hot in a slot or waits to be published; Kill changes neither. */
  lemma HandedOutExactly(pools: Pools, s: State, c: Id)
    requires Reachable(pools, s) && c in s.shared.born
    ensures (exists es, e, p :: HandsOut(pools, s, es, e, p, c)) <==> !Gone(s, c)
  {
    ReachableInv(pools, s);
    if Gone(s, c) {
      forall es, e, p ensures !HandsOut(pools, s, es, e, p, c) { GoneNotHandedOut(pools, s, es, e, p, c); }
    } else if p :| p in s.shared.slots && HotAt(s.shared, p, c) {
      HotHandedOut(pools, s, p, c);
    } else {
      var r :| r in s.reqs && s.reqs[r].phase.Publishing? && s.reqs[r].phase.tunnel.container == c;
      WaitingHandedOut(pools, s, r, c);
    }
  }

  /** The reapers mark first: a container is gone by the time they kill it, whatever
      its slot holds by then, so it is never handed out after that. */
  lemma ReaperKillsGone(pools: Pools, s: State, k: nat)
    requires Reachable(pools, s) && k in s.killers && s.killers[k].Killing? && s.killers[k].marked
    ensures Gone(s, s.killers[k].container)
  {
    ReachableInv(pools, s);
    assert KillerOk(s.shared, s.killers[k]) && UnseenPubs(s.reqs, s.killers[k]);
  }

  /** DestroyCell kills before it clears and marks nothing: in every pool a killed
      cell can be hot in its slot, and it is handed out. */
  lemma DestroyedStillServed(pools: Pools, p: Id) returns (s: State)
    requires p in pools
    ensures Reachable(pools, s) && CELL_1 in s.killed && HotAt(s.shared, p, CELL_1)
    ensures exists es, e :: HandsOut(pools, s, es, e, p, CELL_1)
  {
    var u := FirstSpawn(pools, p);
    Reach(pools, u, KillListed(CELL_1));
    s := Next(pools, u, KillListed(CELL_1)).value;
    ReachableInv(pools, s);
    HotHandedOut(pools, s, p, CELL_1);
  }

  /** A cell killed before its publication is published hot all the same, with no
      killer at work that would ever clear it. */
  lemma KilledThenPublished(pools: Pools, p: Id) returns (s: State)
    requires p in pools
    ensures Reachable(pools, s) && CELL_1 in s.killed && HotAt(s.shared, p, CELL_1) && s.killers == map[]
  {
    var u := Init(pools);
    assert Exec(pools, u, []) == Some(u);
    Reach(pools, u, KillListed(CELL_1));
    u := Next(pools, u, KillListed(CELL_1)).value;
    s := SpawnInto(pools, u, p, 0, CELL_1, CONF_1);
  }

  // ---------- What a clear removes ----------

  ghost predicate ClearsKilled(s: State) {
    forall k | k in s.killers && s.killers[k].Clearing? :: s.killers[k].container in s.killed
  }

  lemma ClearsKilledStep(pools: Pools, s: State, e: Event)
    requires ClearsKilled(s) && Next(pools, s, e).Some?
    ensures ClearsKilled(Next(pools, s, e).value)
  {
  }

  /** Nothing is cleared before Kill was called on the container the killer saw. */
  lemma ClearedWasKilled(pools: Pools, s: State, k: nat)
    requires Reachable(pools, s) && k in s.killers && s.killers[k].Clearing?
    ensures s.killers[k].container in s.killed
  {
    var es :| Exec(pools, Init(pools), es) == Some(s);
    forall x, e | ClearsKilled(x) && Next(pools, x, e).Some? ensures ClearsKilled(Next(pools, x, e).value) {
      ClearsKilledStep(pools, x, e);
    }
    ExecKeeps(pools, Init(pools), es, x => ClearsKilled(x), e => true);
  }

  /** A clear finds a container other than its killer's exactly when the slot is taken
      and something was published there since the killer's snapshot. */
  lemma ClearExact(pools: Pools, s: State, k: nat)
    requires Reachable(pools, s) && k in s.killers && s.killers[k].Clearing?
    ensures Known(s.shared, s.killers[k].pool)
    ensures var slot := s.shared.slots[s.killers[k].pool];
            slot.Some? && slot.value.container != s.killers[k].container <==>
            slot.Some? && |s.shared.published[s.killers[k].pool]| > s.killers[k].pubs
  {
    ReachableInv(pools, s);
    assert KillerOk(s.shared, s.killers[k]);
  }

  /** In every pool: the clear that ends a health reap removes the successor spawned
      meanwhile, hot and in use, which nobody has killed; it is lost to the pool. */
  lemma ClearRemovesSuccessor(pools: Pools, p: Id) returns (s: State, t: State)
    requires p in pools
    ensures Reachable(pools, s) && 8 in s.killers && s.killers[8] == Clearing(p, CELL_1, 1)
    ensures HotAt(s.shared, p, CELL_2) && p in s.shared.out && CELL_2 in s.shared.out[p] && CELL_2 !in s.killed
    ensures Next(pools, s, Clear(8)) == Some(t) && Known(t.shared, p) && t.shared.slots[p].None?
    ensures CELL_2 in t.shared.out[p] && Gone(t, CELL_2)
  {
    s := KilledReplaced(pools, p);
    t := Next(pools, s, Clear(8)).value;
    ReachableInv(pools, s);
    LeavingIsGone(pools, s, Clear(8), p, CELL_2);
  }

  lemma KilledReplaced(pools: Pools, p: Id) returns (s: State)
    requires p in pools
    ensures Reachable(pools, s) && 8 in s.killers && s.killers[8] == Clearing(p, CELL_1, 1) && s.killed == {CELL_1}
    ensures Known(s.shared, p) && s.shared.slots[p] == Some(Newborn(CELL_2, CONF_2))
    ensures s.shared.out[p] == multiset{CELL_1, CELL_2}
  {
    var u := ReplacedSpawn(pools, p);
    Reach(pools, u, Kill(8));
    s := Next(pools, u, Kill(8)).value;
  }
}
