/** Per-destination traffic counters with a bounded number of buckets. */
module CellRecorder {
  import opened Collections

  const MAX_TRACKED: nat := 2048

  datatype Dest = Dest(text: string)

  const OVERFLOW := Dest("(other)")

  datatype Counts = Counts(requests: int, up: int, down: int, active: int)

  const ZERO := Counts(0, 0, 0, 0)

  type Buckets = map<Dest, Counts>

  function Add(a: Counts, b: Counts): Counts {
    Counts(a.requests + b.requests, a.up + b.up, a.down + b.down, a.active + b.active)
  }

  function Get(m: Buckets, d: Dest): Counts { if d in m then m[d] else ZERO }

  // ---------- What each call does ----------

  /** The bucket a destination is counted in: its own while there is room. */
  function BucketKey(cap: nat, m: Buckets, d: Dest): Dest {
    if d in m then d else if |m| >= cap then OVERFLOW else d
  }

  const OPENED := Counts(1, 0, 0, 1)

  /** Add delta to bucket d, creating it when new. */
  function Bump(m: Buckets, d: Dest, delta: Counts): Buckets { m[d := Add(Get(m, d), delta)] }

  function BumpKnown(m: Buckets, d: Dest, delta: Counts): Buckets { if d in m then Bump(m, d, delta) else m }

  function Opened(c: Counts): Counts { c.(requests := c.requests + 1, active := c.active + 1) }

  const CLOSED := Counts(0, 0, 0, -1)

  /** Close, with its guard against going below zero. */
  function CloseIn(m: Buckets, d: Dest): Buckets {
    if d in m && m[d].active > 0 then Bump(m, d, CLOSED) else m
  }

  function CloseTotal(c: Counts): Counts { if c.active > 0 then Add(c, CLOSED) else c }

  function Volume(c: Counts): int { c.up + c.down }

  datatype DestStat = DestStat(destination: Dest, counts: Counts)

  datatype Stats = Stats(totals: Counts, dialFailures: int, destinations: seq<DestStat>)

  // ---------- The recorder ----------

  class Recorder {
    const cap: nat
    const topN: nat
    var dests: Buckets
    var totals: Counts
    var dialFailures: int

    constructor (topN: int)
      ensures cap == 2048
      ensures this.topN == if topN <= 0 then 2048 else topN
      ensures dests == map[] && totals == ZERO && dialFailures == 0
    {
      cap := MAX_TRACKED;
      this.topN := if topN <= 0 then MAX_TRACKED else topN;
      dests, totals, dialFailures := map[], ZERO, 0;
    }

    /** Which bucket a destination goes to, folding once the set is full. */
    method Bucket(dest: Dest) returns (key: Dest)
      ensures key == BucketKey(cap, dests, dest)
    {
      if dest in dests {
        return dest;
      }
      if |dests| >= cap {
        return OVERFLOW;
      }
      return dest;
    }

    method Open(dest: Dest) returns (key: Dest)
      modifies this`dests, this`totals
      ensures key == BucketKey(cap, old(dests), dest)
      ensures dests == Bump(old(dests), key, OPENED) && totals == Add(old(totals), OPENED)
    {
      key := Bucket(dest);
      OpenIn(key);
    }

    /** One more request, live, in the bucket and in the totals. */
    method OpenIn(key: Dest)
      modifies this`dests, this`totals
      ensures dests == Bump(old(dests), key, OPENED) && totals == Add(old(totals), OPENED)
    {
      if key !in dests { dests := dests[key := ZERO]; }
      dests := dests[key := Opened(dests[key])];
      totals := Opened(totals);
    }

    method Close(key: Dest)
      modifies this`dests, this`totals
      ensures dests == CloseIn(old(dests), key) && totals == CloseTotal(old(totals))
      ensures key !in old(dests) || old(dests)[key].active <= 0 ==> dests == old(dests)
      ensures totals.active == if old(totals.active) > 0 then old(totals.active) - 1 else old(totals.active)
    {
      if key in dests && dests[key].active > 0 {
        dests := dests[key := dests[key].(active := dests[key].active - 1)];
      }
      if totals.active > 0 {
        totals := totals.(active := totals.active - 1);
      }
    }

    method Up(key: Dest, n: int)
      modifies this`dests, this`totals
      ensures dests == BumpKnown(old(dests), key, Counts(0, n, 0, 0)) && totals == Add(old(totals), Counts(0, n, 0, 0))
      ensures key !in old(dests) ==> dests == old(dests)
    {
      if key in dests {
        dests := dests[key := dests[key].(up := dests[key].up + n)];
      }
      totals := totals.(up := totals.up + n);
    }

    method Down(key: Dest, n: int)
      modifies this`dests, this`totals
      ensures dests == BumpKnown(old(dests), key, Counts(0, 0, n, 0)) && totals == Add(old(totals), Counts(0, 0, n, 0))
      ensures key !in old(dests) ==> dests == old(dests)
    {
      if key in dests {
        dests := dests[key := dests[key].(down := dests[key].down + n)];
      }
      totals := totals.(down := totals.down + n);
    }

    method DialFailed()
      modifies this`dialFailures
      ensures dialFailures == old(dialFailures) + 1
    {
      dialFailures := dialFailures + 1;
    }

    /** Totals, and the buckets ranked by byte volume, cut off at topN: nothing
        left out is larger than anything shown. */
    method Snapshot() returns (s: Stats)
      ensures s.totals == totals && s.dialFailures == dialFailures
      ensures |s.destinations| == if |dests| < topN then |dests| else topN
      ensures forall i | 0 <= i < |s.destinations| ::
                s.destinations[i].destination in dests && s.destinations[i].counts == dests[s.destinations[i].destination]
      ensures forall i, j | 0 <= i < j < |s.destinations| ::
                s.destinations[i].destination != s.destinations[j].destination
                && s.destinations[i].counts.up + s.destinations[i].counts.down
                   >= s.destinations[j].counts.up + s.destinations[j].counts.down
      ensures forall d, i | d in dests && 0 <= i < |s.destinations| && !Listed(s.destinations, d) ::
                dests[d].up + dests[d].down <= s.destinations[i].counts.up + s.destinations[i].counts.down
    {
      var ranked := Ranked(dests);
      RankedSize(ranked, dests);
      var n := if |ranked| > topN then topN else |ranked|;
      var list := Rows(ranked[..n], dests);
      forall d, i | d in dests && 0 <= i < |list| && !Listed(list, d) ensures Volume(dests[d]) <= Volume(list[i].counts) {
        CutOff(ranked, dests, n, d, i);
      }
      s := Stats(totals, dialFailures, list);
    }
  }

  function Rows(keys: seq<Dest>, m: Buckets): (r: seq<DestStat>)
    requires forall i | 0 <= i < |keys| :: keys[i] in m
    ensures |r| == |keys| && forall i | 0 <= i < |r| :: r[i] == DestStat(keys[i], m[keys[i]])
  {
    seq(|keys|, i requires 0 <= i < |keys| => DestStat(keys[i], m[keys[i]]))
  }

  /** A bucket missing from the first n is no larger than any of them. */
  lemma CutOff(ranked: seq<Dest>, m: Buckets, n: nat, d: Dest, i: nat)
    requires IsRanking(ranked, m, m.Keys) && i < n <= |ranked| && d in m && !Listed(Rows(ranked[..n], m), d)
    ensures Volume(m[d]) <= Volume(m[ranked[i]])
  {
    var j :| 0 <= j < |ranked| && ranked[j] == d;
    assert j >= n;
  }

  ghost predicate Listed(list: seq<DestStat>, d: Dest) {
    exists i :: 0 <= i < |list| && list[i].destination == d
  }

  // ---------- Ranking ----------

  /** Every bucket once, by falling volume. */
  ghost predicate IsRanking(list: seq<Dest>, m: Buckets, covered: set<Dest>) {
    && (forall i | 0 <= i < |list| :: list[i] in m)
    && (forall i, j | 0 <= i < j < |list| :: list[i] != list[j] && Volume(Get(m, list[i])) >= Volume(Get(m, list[j])))
    && (forall d :: d in list <==> d in covered)
  }

  /** The buckets in any map order, sorted by insertion. */
  method Ranked(m: Buckets) returns (list: seq<Dest>)
    ensures IsRanking(list, m, m.Keys)
  {
    list := [];
    var todo := m.Keys;
    while todo != {}
      invariant todo <= m.Keys && IsRanking(list, m, m.Keys - todo)
    {
      var d :| d in todo;
      list := Insert(list, m, d, m.Keys - todo);
      todo := todo - {d};
      assert m.Keys - todo == m.Keys - (todo + {d}) + {d};
    }
    assert m.Keys - {} == m.Keys;
  }

  method Insert(list: seq<Dest>, m: Buckets, d: Dest, ghost covered: set<Dest>) returns (r: seq<Dest>)
    requires IsRanking(list, m, covered) && d in m && d !in covered
    ensures IsRanking(r, m, covered + {d})
  {
    var i := 0;
    while i < |list| && Volume(m[list[i]]) >= Volume(m[d])
      invariant 0 <= i <= |list|
      invariant forall j | 0 <= j < i :: Volume(Get(m, list[j])) >= Volume(m[d])
    {
      i := i + 1;
    }
    r := list[..i] + [d] + list[i..];
    InsertAt(list, m, d, covered, i);
  }

  lemma InsertAt(list: seq<Dest>, m: Buckets, d: Dest, covered: set<Dest>, i: nat)
    requires IsRanking(list, m, covered) && d in m && d !in covered && i <= |list|
    requires forall j | 0 <= j < i :: Volume(Get(m, list[j])) >= Volume(m[d])
    requires i < |list| ==> Volume(Get(m, list[i])) < Volume(m[d])
    ensures IsRanking(list[..i] + [d] + list[i..], m, covered + {d})
  {
    var r := list[..i] + [d] + list[i..];
    InsertMembers(list, d, i);
    assert forall x | 0 <= x < |r| :: r[x] == At(list, d, i, x);
    forall a, b | 0 <= a < b < |r| ensures r[a] != r[b] && Volume(Get(m, r[a])) >= Volume(Get(m, r[b])) {
      InsertOrder(list, m, d, covered, i, a, b);
    }
  }

  /** Element x of the list with d inserted at i. */
  function At(list: seq<Dest>, d: Dest, i: nat, x: nat): Dest
    requires i <= |list| && x <= |list|
  {
    if x < i then list[x] else if x == i then d else list[x - 1]
  }

  lemma InsertOrder(list: seq<Dest>, m: Buckets, d: Dest, covered: set<Dest>, i: nat, a: nat, b: nat)
    requires IsRanking(list, m, covered) && d in m && d !in covered && i <= |list| && a < b <= |list|
    requires forall j | 0 <= j < i :: Volume(Get(m, list[j])) >= Volume(m[d])
    requires i < |list| ==> Volume(Get(m, list[i])) < Volume(m[d])
    ensures At(list, d, i, a) != At(list, d, i, b)
    ensures Volume(Get(m, At(list, d, i, a))) >= Volume(Get(m, At(list, d, i, b)))
  {
    assert d !in list;
  }

  lemma InsertMembers(list: seq<Dest>, d: Dest, i: nat)
    requires i <= |list|
    ensures forall x :: x in list[..i] + [d] + list[i..] <==> x in list || x == d
  {
    assert list == list[..i] + list[i..];
  }

  lemma RankedSize(list: seq<Dest>, m: Buckets)
    requires IsRanking(list, m, m.Keys)
    ensures |list| == |m|
  {
    DistinctSize(list, m.Keys);
  }
}
