/** The orphan pass over managed containers: what it kills, and why it leaves
    cells of a spawn in progress alone. Times are in nanoseconds. */
module Orphans {
  import opened Tunnels

  const SECOND := 1_000_000_000
  const GRACE := 30 * SECOND

  /** A listed container; docker reports its creation in whole seconds. */
  datatype Container = Container(id: Id, created: int, state: string)

  predicate ShouldReapState(state: string) {
    state == "running" || state == "exited" || state == "dead" || state == "paused" || state == "restarting"
  }

  predicate Reapable(state: string) { state == "created" || ShouldReapState(state) }

  function MinAge(spawnTimeout: int): int { spawnTimeout + GRACE }

  /** The containers a pass kills. */
  predicate Doomed(c: Container, keep: set<Id>, protect: bool, now: int, spawnTimeout: int) {
    && c.id !in keep
    && (protect ==> now - c.created * SECOND >= MinAge(spawnTimeout))
    && Reapable(c.state)
  }

  /** IDs of the doomed containers, in listing order. */
  function DoomedIds(listed: seq<Container>, keep: set<Id>, protect: bool, now: int, spawnTimeout: int): seq<Id> {
    if listed == [] then []
    else
      var last := listed[|listed| - 1];
      DoomedIds(listed[..|listed| - 1], keep, protect, now, spawnTimeout) +
      if Doomed(last, keep, protect, now, spawnTimeout) then [last.id] else []
  }

  /** One pass; `killed` are the Kill calls it makes. */
  method ReapOrphans(listed: seq<Container>, keep: set<Id>, protect: bool, now: int, spawnTimeout: int)
    returns (reaped: nat, killed: seq<Id>)
    ensures killed == DoomedIds(listed, keep, protect, now, spawnTimeout)
    ensures reaped == |killed|
  {
    reaped, killed := 0, [];
    for i := 0 to |listed|
      invariant killed == DoomedIds(listed[..i], keep, protect, now, spawnTimeout)
      invariant reaped == |killed|
    {
      var c := listed[i];
      assert listed[..i + 1][..i] == listed[..i];
      if c.id in keep { continue; }
      if protect && now - c.created * SECOND < MinAge(spawnTimeout) { continue; }
      if c.state != "created" && !ShouldReapState(c.state) { continue; }
      killed := killed + [c.id];
      reaped := reaped + 1;
    }
    assert listed[..|listed|] == listed;
  }

  /** What the pass is for, by name and number; times in nanoseconds. */
  predicate Orphaned(c: Container, keep: set<Id>, protect: bool, now: int, spawnTimeout: int) {
    && c.id !in keep
    && (protect ==> now >= c.created * 1_000_000_000 + spawnTimeout + 30_000_000_000)
    && c.state in {"created", "running", "exited", "dead", "paused", "restarting"}
  }

  lemma DoomedIsOrphaned(c: Container, keep: set<Id>, protect: bool, now: int, spawnTimeout: int)
    ensures Doomed(c, keep, protect, now, spawnTimeout) <==> Orphaned(c, keep, protect, now, spawnTimeout)
  {
  }

  /** A container is killed exactly when some listing of it is outside the keep set, on
      a ticker pass at least SpawnTimeout + 30 s old, and in one of six states. */
  lemma {:induction false} KilledExactly(listed: seq<Container>, keep: set<Id>, protect: bool, now: int,
                                         spawnTimeout: int, id: Id)
    ensures id in DoomedIds(listed, keep, protect, now, spawnTimeout) <==>
            exists i :: 0 <= i < |listed| && listed[i].id == id && Orphaned(listed[i], keep, protect, now, spawnTimeout)
  {
    if listed != [] {
      var rest, last := listed[..|listed| - 1], listed[|listed| - 1];
      KilledExactly(rest, keep, protect, now, spawnTimeout, id);
      DoomedIsOrphaned(last, keep, protect, now, spawnTimeout);
      if last.id == id && Orphaned(last, keep, protect, now, spawnTimeout) {
        assert listed[|listed| - 1].id == id;
      }
      if i :| 0 <= i < |rest| && rest[i].id == id && Orphaned(rest[i], keep, protect, now, spawnTimeout) {
        assert listed[i] == rest[i];
      }
    }
  }

  /** A cell created at `born` is still unpublished at the keep-set snapshot,
      within its spawn deadline; the age check comes `gap` later. */
  predicate InFlight(born: int, snapshot: int, spawnTimeout: int) {
    born <= snapshot <= born + spawnTimeout
  }

  function Seconds(t: int): int { t / SECOND }

  /** The ticker pass kills the cell born then, although it is in flight. */
  predicate KillsInFlight(id: Id, born: int, state: string, keep: set<Id>, snapshot: int, gap: int, spawnTimeout: int) {
    && InFlight(born, snapshot, spawnTimeout)
    && Doomed(Container(id, Seconds(born), state), keep, true, snapshot + gap, spawnTimeout)
  }

  /** No cell in flight at the snapshot is killed, whatever its docker state and
      whatever is kept, exactly when the age check comes at most 29 seconds after
      the snapshot: the thirtieth second of grace covers the truncation of Created. */
  lemma SparesInFlight(spawnTimeout: int, gap: int)
    requires spawnTimeout >= 0
    ensures (exists id, born, state, keep, snapshot :: KillsInFlight(id, born, state, keep, snapshot, gap, spawnTimeout))
            <==> gap > 29_000_000_000
  {
    if id, born, state, keep, snapshot :| KillsInFlight(id, born, state, keep, snapshot, gap, spawnTimeout) {
      assert born - Seconds(born) * SECOND < SECOND;
    }
    if gap > 29 * SECOND {
      var born := SECOND - 1;
      assert Seconds(born) == 0;
      assert KillsInFlight(Id("x"), born, "running", {}, born + spawnTimeout, gap, spawnTimeout);
    }
  }

  /** A container that was created and never started is not reaped on sight: a ticker
      pass spares every young one, and reaps it from the minimum age on. */
  lemma CreatedSpared(id: Id, created: int, now: int, spawnTimeout: int)
    ensures Doomed(Container(id, created, "created"), {}, true, now, spawnTimeout) <==>
            now - created * SECOND >= MinAge(spawnTimeout)
    ensures !Doomed(Container(id, 0, "created"), {}, true, MinAge(spawnTimeout) - 1, spawnTimeout)
  {
  }
}
