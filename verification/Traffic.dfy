/** Whole runs of counted connections: the bounded recorder against an unbounded
    one, and the totals against the buckets. */
module Traffic {
  import opened CellRecorder
  import opened Collections

  /** A proxied connection as countingConn wraps it. */
  class CountingConn {
    const recorder: Recorder
    const key: Dest
    var closed: bool

    constructor (recorder: Recorder, key: Dest)
      ensures this.recorder == recorder && this.key == key && !closed
    {
      this.recorder, this.key, closed := recorder, key, false;
    }

    /** n bytes came back from the destination. */
    method Read(n: int)
      modifies recorder`dests, recorder`totals
      ensures recorder.dests == if n > 0 then BumpKnown(old(recorder.dests), key, Counts(0, 0, n, 0)) else old(recorder.dests)
      ensures recorder.totals == if n > 0 then Add(old(recorder.totals), Counts(0, 0, n, 0)) else old(recorder.totals)
    {
      if n > 0 { recorder.Down(key, n); }
    }

    method Write(n: int)
      modifies recorder`dests, recorder`totals
      ensures recorder.dests == if n > 0 then BumpKnown(old(recorder.dests), key, Counts(0, n, 0, 0)) else old(recorder.dests)
      ensures recorder.totals == if n > 0 then Add(old(recorder.totals), Counts(0, n, 0, 0)) else old(recorder.totals)
    {
      if n > 0 { recorder.Up(key, n); }
    }

    /** Only the first Close reaches the recorder. */
    method Close()
      modifies this`closed, recorder`dests, recorder`totals
      ensures closed
      ensures recorder.dests == if old(closed) then old(recorder.dests) else CloseIn(old(recorder.dests), key)
      ensures recorder.totals == if old(closed) then old(recorder.totals) else CloseTotal(old(recorder.totals))
    {
      if !closed {
        closed := true;
        recorder.Close(key);
      }
    }
  }

  // ---------- Runs ----------

  /** One connection: where it goes, the bucket Open gave it, whether it lives, and
      the bytes it carried. */
  datatype Conn = Conn(dest: Dest, key: Dest, live: bool, up: int, down: int)

  /** The recorder, the same traffic counted without a bound, and the
      connections so far. */
  datatype Run = Run(dests: Buckets, totals: Counts, unbounded: Buckets, conns: seq<Conn>)

  datatype Event = OpenTo(dest: Dest) | Transfer(i: nat, up: nat, down: nat) | CloseConn(i: nat)

  const START := Run(map[], ZERO, map[], [])

  function Step(cap: nat, s: Run, e: Event): Run {
    match e
    case OpenTo(d) =>
      var key := BucketKey(cap, s.dests, d);
      Run(Bump(s.dests, key, OPENED), Add(s.totals, OPENED), Bump(s.unbounded, d, OPENED),
          s.conns + [Conn(d, key, true, 0, 0)])
    case Transfer(i, up, down) =>
      if i >= |s.conns| then s
      else
        var delta := Counts(0, up, down, 0);
        s.(dests := BumpKnown(s.dests, s.conns[i].key, delta), totals := Add(s.totals, delta),
           unbounded := Bump(s.unbounded, s.conns[i].dest, delta),
           conns := s.conns[i := s.conns[i].(up := s.conns[i].up + up, down := s.conns[i].down + down)])
    case CloseConn(i) =>
      if i >= |s.conns| || !s.conns[i].live then s
      else
        Run(CloseIn(s.dests, s.conns[i].key), CloseTotal(s.totals), Bump(s.unbounded, s.conns[i].dest, CLOSED),
            s.conns[i := s.conns[i].(live := false)])
  }

  function Play(cap: nat, s: Run, es: seq<Event>): Run
    decreases |es|
  {
    if es == [] then s else Play(cap, Step(cap, s, es[0]), es[1..])
  }

  // ---------- Sums over buckets ----------

  ghost function Sum(m: Buckets): Counts {
    if m == map[] then ZERO
    else var k :| k in m; Add(m[k], Sum(m - {k}))
  }

  lemma AddSwap(a: Counts, b: Counts, c: Counts)
    ensures Add(a, Add(b, c)) == Add(b, Add(a, c))
  {
  }

  lemma {:induction false} SumSplit(m: Buckets, k: Dest)
    requires k in m
    ensures Sum(m) == Add(m[k], Sum(m - {k}))
    decreases |m|
  {
    var j :| j in m && Sum(m) == Add(m[j], Sum(m - {j}));
    if j != k {
      SumSplit(m - {j}, k);
      SumSplit(m - {k}, j);
      var rest := (m - {j}) - {k};
      assert rest == (m - {k}) - {j};
      assert Sum(m - {j}) == Add(m[k], Sum(rest));
      assert Sum(m - {k}) == Add(m[j], Sum(rest));
      AddSwap(m[j], m[k], Sum(rest));
    }
  }

  /** Raising one bucket raises the sum by as much. */
  lemma SumBump(m: Buckets, k: Dest, delta: Counts)
    ensures Sum(Bump(m, k, delta)) == Add(Sum(m), delta)
  {
    var m' := Bump(m, k, delta);
    SumSplit(m', k);
    if k in m {
      SumSplit(m, k);
      assert m' - {k} == m - {k};
    } else {
      assert m' - {k} == m;
    }
  }

  // ---------- Counting the connections themselves ----------

  function One(live: bool): int { if live then 1 else 0 }

  /** What the connections counted in bucket k amount to. */
  function Tally(conns: seq<Conn>, k: Dest): Counts {
    if conns == [] then Counts(0, 0, 0, 0)
    else
      var rest, last := Tally(conns[..|conns| - 1], k), conns[|conns| - 1];
      if last.key != k then rest
      else Counts(rest.requests + 1, rest.up + last.up, rest.down + last.down, rest.active + One(last.live))
  }

  /** The same over all connections. */
  function TallyAll(conns: seq<Conn>): Counts {
    if conns == [] then Counts(0, 0, 0, 0)
    else
      var rest, last := TallyAll(conns[..|conns| - 1]), conns[|conns| - 1];
      Counts(rest.requests + 1, rest.up + last.up, rest.down + last.down, rest.active + One(last.live))
  }

  lemma TallyOpen(conns: seq<Conn>, c: Conn, k: Dest)
    requires c.live && c.up == 0 && c.down == 0
    ensures Tally(conns + [c], k) == if c.key == k then Add(Tally(conns, k), OPENED) else Tally(conns, k)
    ensures TallyAll(conns + [c]) == Add(TallyAll(conns), OPENED)
  {
    assert (conns + [c])[..|conns|] == conns;
  }

  /** How much connection c' counts more than c. */
  function Delta(c: Conn, c': Conn): Counts { Counts(0, c'.up - c.up, c'.down - c.down, One(c'.live) - One(c.live)) }

  lemma {:induction false} TallyChange(conns: seq<Conn>, i: nat, c: Conn, k: Dest)
    requires i < |conns| && c.key == conns[i].key
    ensures Tally(conns[i := c], k) == if c.key == k then Add(Tally(conns, k), Delta(conns[i], c)) else Tally(conns, k)
    ensures TallyAll(conns[i := c]) == Add(TallyAll(conns), Delta(conns[i], c))
  {
    var after, rest := conns[i := c], conns[..|conns| - 1];
    if i == |conns| - 1 {
      assert after[..|conns| - 1] == rest;
    } else {
      TallyChange(rest, i, c, k);
      assert after[..|conns| - 1] == rest[i := c];
    }
  }

  lemma {:induction false} TallyLive(conns: seq<Conn>, i: nat, k: Dest)
    ensures Tally(conns, k).active >= 0 && TallyAll(conns).active >= 0
    ensures i < |conns| && conns[i].live && conns[i].key == k ==> Tally(conns, k).active > 0 && TallyAll(conns).active > 0
  {
    if conns != [] { TallyLive(conns[..|conns| - 1], i, k); }
  }

  // ---------- What every run keeps ----------

  /** The buckets that stand for exactly one destination. */
  function Own(m: Buckets): set<Dest> { m.Keys - {OVERFLOW} }

  /** The bucket a seen destination is folded into. */
  function Fold(m: Buckets, d: Dest): Dest { if d in m then d else OVERFLOW }

  /** Sizes: nothing is folded before the set is full, and full means cap. */
  ghost predicate KeysOk(cap: nat, tracked: set<Dest>, seen: set<Dest>) {
    && |tracked - {OVERFLOW}| <= cap
    && tracked - {OVERFLOW} <= seen
    && (OVERFLOW !in tracked || |tracked| < cap ==> tracked == seen)
    && (|seen| < cap ==> tracked == seen)
  }

  ghost predicate InvKeys(cap: nat, s: Run) {
    KeysOk(cap, s.dests.Keys, s.unbounded.Keys)
  }

  ghost predicate InvConns(s: Run) {
    forall i | 0 <= i < |s.conns| ::
      s.conns[i].dest in s.unbounded && s.conns[i].key in s.dests && s.conns[i].key == Fold(s.dests, s.conns[i].dest)
  }

  ghost predicate InvTally(s: Run) {
    && (forall k :: Get(s.dests, k) == Tally(s.conns, k))
    && s.totals == TallyAll(s.conns)
  }

  lemma BumpKeys(m: Buckets, k: Dest, delta: Counts)
    ensures Bump(m, k, delta).Keys == m.Keys + {k}
  {
  }

  lemma KeysOpen(cap: nat, s: Run, d: Dest)
    requires InvKeys(cap, s)
    ensures InvKeys(cap, Step(cap, s, OpenTo(d)))
  {
    var t := Step(cap, s, OpenTo(d));
    BumpKeys(s.dests, BucketKey(cap, s.dests, d), OPENED);
    BumpKeys(s.unbounded, d, OPENED);
    if d in s.dests {
      KeysHit(cap, s.dests.Keys, s.unbounded.Keys, d, t.dests.Keys, t.unbounded.Keys);
    } else if |s.dests| < cap {
      KeysGrow(cap, s.dests.Keys, s.unbounded.Keys, d, t.dests.Keys, t.unbounded.Keys);
    } else {
      KeysFold(cap, s.dests.Keys, s.unbounded.Keys, d, t.dests.Keys, t.unbounded.Keys);
    }
  }

  lemma KeysHit(cap: nat, tracked: set<Dest>, seen: set<Dest>, d: Dest, tracked': set<Dest>, seen': set<Dest>)
    requires KeysOk(cap, tracked, seen) && d in tracked && tracked' == tracked + {d} && seen' == seen + {d}
    ensures KeysOk(cap, tracked', seen')
  {
    assert tracked' == tracked;
    SubsetSize(seen, seen');
    if d in seen { assert seen' == seen; }
  }

  lemma KeysGrow(cap: nat, tracked: set<Dest>, seen: set<Dest>, d: Dest, tracked': set<Dest>, seen': set<Dest>)
    requires KeysOk(cap, tracked, seen) && d !in tracked && |tracked| < cap
    requires tracked' == tracked + {d} && seen' == seen + {d}
    ensures KeysOk(cap, tracked', seen')
  {
    SubsetSize(tracked' - {OVERFLOW}, tracked');
    SubsetSize(seen, seen');
  }

  lemma KeysFold(cap: nat, tracked: set<Dest>, seen: set<Dest>, d: Dest, tracked': set<Dest>, seen': set<Dest>)
    requires KeysOk(cap, tracked, seen) && d !in tracked && |tracked| >= cap
    requires tracked' == tracked + {OVERFLOW} && seen' == seen + {d}
    ensures KeysOk(cap, tracked', seen')
  {
    assert tracked' - {OVERFLOW} == tracked - {OVERFLOW};
    SubsetSize(tracked, tracked');
    SubsetSize(seen, seen');
  }

  // ---------- The fold ----------

  /** Own buckets exact, overflow the sum of the rest, on plain maps. */
  ghost predicate FoldOk(m: Buckets, u: Buckets) {
    && (forall d | d in Own(m) :: d in u && m[d] == u[d])
    && (if OVERFLOW in m then m[OVERFLOW] == Sum(u - Own(m)) else u.Keys == Own(m))
  }

  lemma RestKeepsOwn(u: Buckets, own: set<Dest>, d: Dest, delta: Counts)
    requires d in own
    ensures Bump(u, d, delta) - own == u - own
  {
  }

  lemma RestTakesOther(u: Buckets, own: set<Dest>, d: Dest, delta: Counts)
    requires d !in own
    ensures Bump(u, d, delta) - own == Bump(u - own, d, delta)
  {
  }

  lemma FoldOwn(m: Buckets, u: Buckets, d: Dest, delta: Counts)
    requires FoldOk(m, u) && d in Own(m)
    ensures FoldOk(Bump(m, d, delta), Bump(u, d, delta))
  {
    RestKeepsOwn(u, Own(m), d, delta);
    assert Own(Bump(m, d, delta)) == Own(m);
    BumpKeys(u, d, delta);
    if OVERFLOW !in m { assert u.Keys + {d} == u.Keys; }
  }

  lemma FoldOther(m: Buckets, u: Buckets, d: Dest, delta: Counts)
    requires FoldOk(m, u) && d !in Own(m)
    ensures FoldOk(Bump(m, OVERFLOW, delta), Bump(u, d, delta))
  {
    RestTakesOther(u, Own(m), d, delta);
    assert Own(Bump(m, OVERFLOW, delta)) == Own(m);
    SumBump(u - Own(m), d, delta);
    if OVERFLOW !in m { assert u - Own(m) == map[]; }
  }

  lemma FoldGrow(m: Buckets, u: Buckets, d: Dest, delta: Counts)
    requires FoldOk(m, u) && d !in m && d !in u && d != OVERFLOW
    ensures FoldOk(Bump(m, d, delta), Bump(u, d, delta))
  {
    var m', u' := Bump(m, d, delta), Bump(u, d, delta);
    assert Own(m') == Own(m) + {d};
    assert u' - Own(m') == u - Own(m);
    BumpKeys(u, d, delta);
  }

  // ---------- One step ----------

  ghost predicate Inv(cap: nat, s: Run) {
    && InvKeys(cap, s) && FoldOk(s.dests, s.unbounded) && InvConns(s) && InvTally(s)
    && s.totals == Sum(s.dests)
  }

  lemma FoldOpen(cap: nat, s: Run, d: Dest)
    requires InvKeys(cap, s) && FoldOk(s.dests, s.unbounded)
    ensures FoldOk(Step(cap, s, OpenTo(d)).dests, Step(cap, s, OpenTo(d)).unbounded)
  {
    var key := BucketKey(cap, s.dests, d);
    if d in Own(s.dests) {
      FoldOwn(s.dests, s.unbounded, d, OPENED);
    } else if key == OVERFLOW {
      FoldOther(s.dests, s.unbounded, d, OPENED);
    } else {
      FoldGrow(s.dests, s.unbounded, d, OPENED);
    }
  }

  /** A known connection's bucket moves with its destination. */
  lemma FoldConn(s: Run, i: nat, delta: Counts)
    requires FoldOk(s.dests, s.unbounded) && InvConns(s) && i < |s.conns|
    ensures FoldOk(Bump(s.dests, s.conns[i].key, delta), Bump(s.unbounded, s.conns[i].dest, delta))
  {
    if s.conns[i].dest in Own(s.dests) {
      FoldOwn(s.dests, s.unbounded, s.conns[i].dest, delta);
    } else {
      FoldOther(s.dests, s.unbounded, s.conns[i].dest, delta);
    }
  }

  /** The guards in Close never bite: an open connection is counted in its
      bucket and in the total. */
  lemma GuardsIdle(s: Run, i: nat)
    requires InvConns(s) && InvTally(s) && i < |s.conns| && s.conns[i].live
    ensures CloseIn(s.dests, s.conns[i].key) == Bump(s.dests, s.conns[i].key, CLOSED)
    ensures CloseTotal(s.totals) == Add(s.totals, CLOSED)
  {
    TallyLive(s.conns, i, s.conns[i].key);
    assert s.dests[s.conns[i].key] == Get(s.dests, s.conns[i].key);
  }

  lemma ConnsOpen(cap: nat, s: Run, d: Dest)
    requires InvKeys(cap, s) && InvConns(s)
    ensures InvConns(Step(cap, s, OpenTo(d)))
  {
    var t := Step(cap, s, OpenTo(d));
    var key := BucketKey(cap, s.dests, d);
    BumpKeys(s.dests, key, OPENED);
    BumpKeys(s.unbounded, d, OPENED);
    forall i | 0 <= i < |t.conns| ensures t.conns[i].dest in t.unbounded && t.conns[i].key in t.dests
                                          && t.conns[i].key == Fold(t.dests, t.conns[i].dest) {
      if i < |s.conns| { assert t.conns[i] == s.conns[i]; } else { assert t.conns[i] == Conn(d, key, true, 0, 0); }
    }
  }

  lemma GetBump(m: Buckets, d: Dest, delta: Counts, k: Dest)
    ensures Get(Bump(m, d, delta), k) == if k == d then Add(Get(m, k), delta) else Get(m, k)
  {
  }

  lemma TallyAfterOpen(s: Run, c: Conn, t: Run)
    requires InvTally(s) && c.live && c.up == 0 && c.down == 0 && t.conns == s.conns + [c]
    requires t.dests == Bump(s.dests, c.key, OPENED) && t.totals == Add(s.totals, OPENED)
    ensures InvTally(t)
  {
    forall k ensures Get(t.dests, k) == Tally(t.conns, k) {
      TallyOpen(s.conns, c, k);
      GetBump(s.dests, c.key, OPENED, k);
      assert Get(s.dests, k) == Tally(s.conns, k);
    }
    TallyOpen(s.conns, c, c.key);
  }

  /** A change of one connection and of its bucket and the totals by as much. */
  lemma TallyAfterChange(s: Run, i: nat, c: Conn, t: Run)
    requires InvTally(s) && i < |s.conns| && c.key == s.conns[i].key
    requires t.conns == s.conns[i := c] && t.dests == Bump(s.dests, c.key, Delta(s.conns[i], c))
    requires t.totals == Add(s.totals, Delta(s.conns[i], c))
    ensures InvTally(t)
  {
    forall k ensures Get(t.dests, k) == Tally(t.conns, k) {
      TallyChange(s.conns, i, c, k);
      GetBump(s.dests, c.key, Delta(s.conns[i], c), k);
      assert Get(s.dests, k) == Tally(s.conns, k);
    }
    TallyChange(s.conns, i, c, c.key);
  }

  lemma TallyAfterTransfer(cap: nat, s: Run, i: nat, up: nat, down: nat)
    requires InvConns(s) && InvTally(s) && i < |s.conns|
    ensures InvTally(Step(cap, s, Transfer(i, up, down)))
  {
    var c := s.conns[i].(up := s.conns[i].up + up, down := s.conns[i].down + down);
    assert Delta(s.conns[i], c) == Counts(0, up, down, 0);
    TallyAfterChange(s, i, c, Step(cap, s, Transfer(i, up, down)));
  }

  lemma TallyAfterClose(cap: nat, s: Run, i: nat)
    requires InvConns(s) && InvTally(s) && i < |s.conns| && s.conns[i].live
    ensures InvTally(Step(cap, s, CloseConn(i)))
  {
    var c := s.conns[i].(live := false);
    assert Delta(s.conns[i], c) == CLOSED;
    GuardsIdle(s, i);
    TallyAfterChange(s, i, c, Step(cap, s, CloseConn(i)));
  }

  lemma InvOpen(cap: nat, s: Run, d: Dest)
    requires Inv(cap, s)
    ensures Inv(cap, Step(cap, s, OpenTo(d)))
  {
    KeysOpen(cap, s, d);
    FoldOpen(cap, s, d);
    ConnsOpen(cap, s, d);
    TallyAfterOpen(s, Conn(d, BucketKey(cap, s.dests, d), true, 0, 0), Step(cap, s, OpenTo(d)));
    SumBump(s.dests, BucketKey(cap, s.dests, d), OPENED);
  }

  /** Counting on a known connection touches no key and keeps the fold. */
  lemma ConnBumped(cap: nat, s: Run, i: nat, delta: Counts, t: Run)
    requires InvKeys(cap, s) && FoldOk(s.dests, s.unbounded) && InvConns(s) && i < |s.conns|
    requires t.dests == Bump(s.dests, s.conns[i].key, delta) && t.unbounded == Bump(s.unbounded, s.conns[i].dest, delta)
    requires |t.conns| == |s.conns|
    requires forall j | 0 <= j < |s.conns| :: t.conns[j].dest == s.conns[j].dest && t.conns[j].key == s.conns[j].key
    ensures InvKeys(cap, t) && FoldOk(t.dests, t.unbounded) && InvConns(t)
  {
    FoldConn(s, i, delta);
    BumpSameKeys(s.dests, s.conns[i].key, delta);
    BumpSameKeys(s.unbounded, s.conns[i].dest, delta);
    ConnsSame(s, t);
  }

  lemma BumpSameKeys(m: Buckets, k: Dest, delta: Counts)
    requires k in m
    ensures Bump(m, k, delta).Keys == m.Keys
  {
  }

  lemma ConnsSame(s: Run, t: Run)
    requires InvConns(s) && t.dests.Keys == s.dests.Keys && t.unbounded.Keys == s.unbounded.Keys
    requires |t.conns| == |s.conns|
    requires forall j | 0 <= j < |s.conns| :: t.conns[j].dest == s.conns[j].dest && t.conns[j].key == s.conns[j].key
    ensures InvConns(t)
  {
    assert forall d :: (d in t.dests <==> d in s.dests) && (d in t.unbounded <==> d in s.unbounded);
  }

  lemma InvTransfer(cap: nat, s: Run, i: nat, up: nat, down: nat)
    requires Inv(cap, s) && i < |s.conns|
    ensures Inv(cap, Step(cap, s, Transfer(i, up, down)))
  {
    var delta := Counts(0, up, down, 0);
    ConnBumped(cap, s, i, delta, Step(cap, s, Transfer(i, up, down)));
    TallyAfterTransfer(cap, s, i, up, down);
    SumBump(s.dests, s.conns[i].key, delta);
  }

  lemma InvClose(cap: nat, s: Run, i: nat)
    requires Inv(cap, s) && i < |s.conns| && s.conns[i].live
    ensures Inv(cap, Step(cap, s, CloseConn(i)))
  {
    GuardsIdle(s, i);
    ConnBumped(cap, s, i, CLOSED, Step(cap, s, CloseConn(i)));
    TallyAfterClose(cap, s, i);
    SumBump(s.dests, s.conns[i].key, CLOSED);
  }

  lemma {:induction false} InvPlay(cap: nat, s: Run, es: seq<Event>)
    requires Inv(cap, s)
    ensures Inv(cap, Play(cap, s, es))
    decreases |es|
  {
    if es != [] {
      match es[0] {
        case OpenTo(d) => InvOpen(cap, s, d);
        case Transfer(i, up, down) => if i < |s.conns| { InvTransfer(cap, s, i, up, down); }
        case CloseConn(i) => if i < |s.conns| && s.conns[i].live { InvClose(cap, s, i); }
      }
      InvPlay(cap, Step(cap, s, es[0]), es[1..]);
    }
  }

  // ---------- Theorems ----------

  lemma StartInv(cap: nat)
    ensures Inv(cap, START)
  {
  }

  /** The bounded recorder is a fold of the unbounded one: after any run every
      bucket but the overflow one equals its destination's unbounded counts, the
      overflow bucket is the sum over all destinations without a bucket of their
      own, and there are at most cap + 1 buckets. */
  lemma BoundedIsFold(cap: nat, es: seq<Event>)
    ensures var s, other := Play(cap, START, es), Dest("(other)");
            && (forall d | d in s.dests && d != other :: d in s.unbounded && s.dests[d] == s.unbounded[d])
            && (other in s.dests ==> s.dests[other] == Sum(s.unbounded - (s.dests.Keys - {other})))
            && (other !in s.dests ==> s.dests == s.unbounded)
            && |s.dests| <= cap + 1
  {
    StartInv(cap);
    InvPlay(cap, START, es);
    FoldMeans(cap, Play(cap, START, es));
  }

  lemma FoldMeans(cap: nat, s: Run)
    requires InvKeys(cap, s) && FoldOk(s.dests, s.unbounded)
    ensures OVERFLOW !in s.dests ==> s.dests == s.unbounded
    ensures |s.dests| <= cap + 1
  {
    SubsetSize(s.dests.Keys, Own(s.dests) + {OVERFLOW});
    if OVERFLOW !in s.dests { assert Own(s.dests) == s.dests.Keys; }
  }

  /** With the shipped cap of 2048 that is at most 2049 buckets, and nothing is folded
      into the overflow bucket while fewer than 2048 destinations were seen. */
  lemma ShippedBound(es: seq<Event>)
    ensures MAX_TRACKED == 2048
    ensures var s := Play(MAX_TRACKED, START, es);
            && |s.dests| <= 2049
            && (|s.unbounded| < 2048 ==> s.dests.Keys == s.unbounded.Keys)
  {
    BoundedIsFold(MAX_TRACKED, es);
    RoomLeft(MAX_TRACKED, es);
  }

  lemma RoomLeft(cap: nat, es: seq<Event>)
    ensures var s := Play(cap, START, es); |s.unbounded| < cap ==> s.dests.Keys == s.unbounded.Keys
  {
    StartInv(cap);
    InvPlay(cap, START, es);
  }

  // ---------- Counts from the events alone ----------

  function Opens(es: seq<Event>): nat {
    if es == [] then 0 else (if es[0].OpenTo? then 1 else 0) + Opens(es[1..])
  }

  /** Bytes sent over connection i by the events, of which n were open before. */
  function SentUp(es: seq<Event>, i: nat, n: nat): int {
    if es == [] then 0
    else match es[0]
      case OpenTo(_) => SentUp(es[1..], i, n + 1)
      case Transfer(j, up, _) => (if j == i && i < n then up else 0) + SentUp(es[1..], i, n)
      case CloseConn(_) => SentUp(es[1..], i, n)
  }

  function SentDown(es: seq<Event>, i: nat, n: nat): int {
    if es == [] then 0
    else match es[0]
      case OpenTo(_) => SentDown(es[1..], i, n + 1)
      case Transfer(j, _, down) => (if j == i && i < n then down else 0) + SentDown(es[1..], i, n)
      case CloseConn(_) => SentDown(es[1..], i, n)
  }

  function UpOf(conns: seq<Conn>, i: nat): int { if i < |conns| then conns[i].up else 0 }

  function DownOf(conns: seq<Conn>, i: nat): int { if i < |conns| then conns[i].down else 0 }

  /** What an event does to the connections; key is the bucket of one it opens. */
  function NextConns(conns: seq<Conn>, e: Event, key: Dest): seq<Conn> {
    match e
    case OpenTo(d) => conns + [Conn(d, key, true, 0, 0)]
    case Transfer(i, up, down) =>
      if i < |conns| then conns[i := conns[i].(up := conns[i].up + up, down := conns[i].down + down)] else conns
    case CloseConn(i) => if i < |conns| then conns[i := conns[i].(live := false)] else conns
  }

  lemma StepConns(cap: nat, s: Run, e: Event) returns (key: Dest)
    ensures Step(cap, s, e).conns == NextConns(s.conns, e, key)
  {
    key := if e.OpenTo? then BucketKey(cap, s.dests, e.dest) else OVERFLOW;
  }

  lemma ConnStep(conns: seq<Conn>, e: Event, key: Dest, i: nat)
    ensures var after := NextConns(conns, e, key);
            && |after| == |conns| + (if e.OpenTo? then 1 else 0)
            && UpOf(after, i) == UpOf(conns, i) + (if e.Transfer? && e.i == i < |conns| then e.up else 0)
            && DownOf(after, i) == DownOf(conns, i) + (if e.Transfer? && e.i == i < |conns| then e.down else 0)
  {
  }

  /** The first event's share of what is sent. */
  lemma SentStep(es: seq<Event>, i: nat, n: nat)
    requires es != []
    ensures var e := es[0];
            var n' := n + (if e.OpenTo? then 1 else 0);
            && SentUp(es, i, n) == SentUp(es[1..], i, n') + (if e.Transfer? && e.i == i < n then e.up else 0)
            && SentDown(es, i, n) == SentDown(es[1..], i, n') + (if e.Transfer? && e.i == i < n then e.down else 0)
  {
  }

  /** The first event moves its share from what is to be sent to what was. */
  lemma ShareMoves(conns: seq<Conn>, es: seq<Event>, key: Dest, i: nat)
    requires es != []
    ensures var after := NextConns(conns, es[0], key);
            && |after| + Opens(es[1..]) == |conns| + Opens(es)
            && UpOf(after, i) + SentUp(es[1..], i, |after|) == UpOf(conns, i) + SentUp(es, i, |conns|)
            && DownOf(after, i) + SentDown(es[1..], i, |after|) == DownOf(conns, i) + SentDown(es, i, |conns|)
  {
    ConnStep(conns, es[0], key, i);
    SentStep(es, i, |conns|);
  }

  lemma {:induction false} ConnHistory(cap: nat, s: Run, es: seq<Event>, i: nat)
    ensures |Play(cap, s, es).conns| == |s.conns| + Opens(es)
    ensures UpOf(Play(cap, s, es).conns, i) == UpOf(s.conns, i) + SentUp(es, i, |s.conns|)
    ensures DownOf(Play(cap, s, es).conns, i) == DownOf(s.conns, i) + SentDown(es, i, |s.conns|)
    decreases |es|
  {
    if es != [] {
      var key := StepConns(cap, s, es[0]);
      ShareMoves(s.conns, es, key, i);
      ConnHistory(cap, Step(cap, s, es[0]), es[1..], i);
    }
  }

  lemma {:induction false} TallyRequests(conns: seq<Conn>)
    ensures TallyAll(conns).requests == |conns|
  {
    if conns != [] { TallyRequests(conns[..|conns| - 1]); }
  }

  /** Conservation: after any run the totals are the sum of the buckets and the tally of
      all connections, each bucket is the tally of the connections counted there, every
      open is one request, and every connection carries what the events sent over it. */
  lemma TotalsConserved(cap: nat, es: seq<Event>, i: nat)
    ensures var s := Play(cap, START, es);
            && s.totals == Sum(s.dests) && s.totals == TallyAll(s.conns)
            && (forall k | k in s.dests :: s.dests[k] == Tally(s.conns, k))
            && s.totals.requests == Opens(es) == |s.conns|
            && (i < |s.conns| ==> s.conns[i].up == SentUp(es, i, 0) && s.conns[i].down == SentDown(es, i, 0))
  {
    StartInv(cap);
    InvPlay(cap, START, es);
    var s := Play(cap, START, es);
    ConnHistory(cap, START, es, i);
    TallyRequests(s.conns);
    forall k | k in s.dests ensures s.dests[k] == Tally(s.conns, k) { assert Get(s.dests, k) == s.dests[k]; }
  }

  /** Once folded, always folded: a destination seen without a bucket of its own
      never gets one. */
  lemma {:induction false} FoldedForever(cap: nat, s: Run, es: seq<Event>, d: Dest)
    requires Inv(cap, s) && d in s.unbounded && d !in s.dests
    ensures d !in Play(cap, s, es).dests
    decreases |es|
  {
    if es != [] {
      InvPlay(cap, s, [es[0]]);
      assert [es[0]][1..] == [] && Play(cap, s, [es[0]]) == Step(cap, s, es[0]);
      FoldedStep(cap, s, es[0], d);
      FoldedForever(cap, Step(cap, s, es[0]), es[1..], d);
    }
  }

  lemma FoldedStep(cap: nat, s: Run, e: Event, d: Dest)
    requires Inv(cap, s) && d in s.unbounded && d !in s.dests
    ensures d in Step(cap, s, e).unbounded && d !in Step(cap, s, e).dests
  {
    if e.OpenTo? {
      BumpKeys(s.dests, BucketKey(cap, s.dests, e.dest), OPENED);
      assert OVERFLOW in s.dests;
    }
  }
}
