/** Start order of the in-process services: the dependency graph with its
    duplicate edges, and the layered topological sort over it. */
module ServiceOrder {
  import opened Collections
  import opened Wrappers

  datatype Name = Name(text: string)

  /** The services of the process, each with the names it declares as
      dependencies: duplicates and names of absent services are allowed. */
  type Services = map<Name, seq<Name>>

  type Groups = seq<seq<Name>>

  // ---------- What the order means ----------

  ghost predicate DependsOn(services: Services, n: Name, d: Name) {
    n in services && d in services && d in services[n]
  }

  /** p[0] depends on p[1], p[1] on p[2], and so on, all in process. */
  ghost predicate Chain(services: Services, p: seq<Name>) {
    && p != []
    && (forall k | 0 <= k < |p| :: p[k] in services)
    && (forall i, j | 0 <= i && j == i + 1 && j < |p| :: DependsOn(services, p[i], p[j]))
  }

  ghost predicate ChainFrom(services: Services, n: Name, p: seq<Name>) {
    Chain(services, p) && p[0] == n
  }

  ghost predicate Cyclic(services: Services) {
    exists p :: Chain(services, p) && |p| > 1 && p[0] == p[|p| - 1]
  }

  /** The longest dependency chain starting at n has h edges. */
  ghost predicate Height(services: Services, n: Name, h: nat) {
    && (exists p :: ChainFrom(services, n, p) && |p| == h + 1)
    && (forall p :: ChainFrom(services, n, p) ==> |p| <= h + 1)
  }

  predicate Distinct(s: seq<Name>) {
    forall i, j | 0 <= i < j < |s| :: s[i] != s[j]
  }

  /** Every service in exactly one place, in the group its height names, and no
      group empty. */
  ghost predicate IsLayering(services: Services, groups: Groups) {
    && (forall i | 0 <= i < |groups| :: Distinct(groups[i]) && groups[i] != [])
    && (forall i, n | 0 <= i < |groups| && n in groups[i] :: n in services)
    && (forall i, n {:trigger Height(services, n, i)} | 0 <= i < |groups| && n in groups[i] :: Height(services, n, i))
    && (forall n {:trigger Grouped(groups, n)} | n in services :: Grouped(groups, n))
  }

  ghost predicate Grouped(groups: Groups, n: Name) {
    exists i :: 0 <= i < |groups| && n in groups[i]
  }

  // ---------- Degree counting ----------

  /** How many of the first k entries of deps name an in-process service
      outside `placed`; a dependency listed twice counts twice. */
  function PendingTo(services: Services, deps: seq<Name>, k: nat, placed: set<Name>): nat
    requires k <= |deps|
  {
    if k == 0 then 0
    else
      PendingTo(services, deps, k - 1, placed) +
      if deps[k - 1] in services && deps[k - 1] !in placed then 1 else 0
  }

  function Pending(services: Services, n: Name, placed: set<Name>): nat
    requires n in services
  {
    PendingTo(services, services[n], |services[n]|, placed)
  }

  /** How often d occurs among the first k entries of s. */
  function CountTo(s: seq<Name>, k: nat, d: Name): nat
    requires k <= |s|
  {
    if k == 0 then 0 else CountTo(s, k - 1, d) + if s[k - 1] == d then 1 else 0
  }

  function Count(s: seq<Name>, d: Name): nat {
    CountTo(s, |s|, d)
  }

  lemma {:induction false} PendingZero(services: Services, deps: seq<Name>, k: nat, placed: set<Name>, i: nat)
    requires i < k <= |deps| && PendingTo(services, deps, k, placed) == 0 && deps[i] in services
    ensures deps[i] in placed
  {
    if i < k - 1 { PendingZero(services, deps, k - 1, placed, i); }
  }

  lemma {:induction false} PendingPositive(services: Services, deps: seq<Name>, k: nat, placed: set<Name>)
    returns (i: nat)
    requires k <= |deps| && PendingTo(services, deps, k, placed) > 0
    ensures i < k && deps[i] in services && deps[i] !in placed
  {
    i := k - 1;
    if deps[i] !in services || deps[i] in placed {
      i := PendingPositive(services, deps, k - 1, placed);
    }
  }

  lemma {:induction false} CountMember(s: seq<Name>, k: nat, i: nat)
    requires i < k <= |s|
    ensures CountTo(s, k, s[i]) > 0
  {
    if i < k - 1 { CountMember(s, k - 1, i); }
  }

  lemma {:induction false} CountMonotone(s: seq<Name>, k: nat, m: nat, d: Name)
    requires k <= m <= |s|
    ensures CountTo(s, k, d) <= CountTo(s, m, d)
  {
    if k < m { CountMonotone(s, k, m - 1, d); }
  }

  lemma {:induction false} CountExtend(s: seq<Name>, x: Name, k: nat, d: Name)
    requires k <= |s|
    ensures CountTo(s + [x], k, d) == CountTo(s, k, d)
  {
    if k > 0 { CountExtend(s, x, k - 1, d); }
  }

  lemma CountAppend(s: seq<Name>, x: Name, d: Name)
    ensures Count(s + [x], d) == Count(s, d) + if x == d then 1 else 0
  {
    CountExtend(s, x, |s|, d);
  }

  /** Placing d lowers the count by the number of times d is listed. */
  lemma {:induction false} PendingPlace(services: Services, deps: seq<Name>, k: nat, placed: set<Name>, d: Name)
    requires k <= |deps| && d in services && d !in placed
    ensures PendingTo(services, deps, k, placed + {d}) == PendingTo(services, deps, k, placed) - CountTo(deps, k, d)
  {
    if k > 0 { PendingPlace(services, deps, k - 1, placed, d); }
  }

  /** The dependents recorded for d. */
  function Out(dependents: map<Name, seq<Name>>, d: Name): seq<Name> {
    if d in dependents then dependents[d] else []
  }

  /** How often n names the in-process service d. */
  function Edges(services: Services, n: Name, d: Name): nat {
    if n in services && d in services then Count(services[n], d) else 0
  }

  /** `dependents` holds the transposed edges, with multiplicity. */
  ghost predicate Mirrors(services: Services, dependents: map<Name, seq<Name>>) {
    MirrorsBut(services, dependents, {})
  }

  /** The same while the edges of the services in `todo` are still missing. */
  ghost predicate MirrorsBut(services: Services, dependents: map<Name, seq<Name>>, todo: set<Name>) {
    forall d, n {:trigger Count(Out(dependents, d), n)} ::
      Count(Out(dependents, d), n) == if n in todo then 0 else Edges(services, n, d)
  }

  ghost predicate Degrees(services: Services, inDegree: map<Name, int>, placed: set<Name>) {
    && inDegree.Keys == services.Keys
    && forall n | n in services :: inDegree[n] == Pending(services, n, placed)
  }

  /** Services and their in-degrees, visited in any map order. */
  method BuildDepGraph(services: Services)
    returns (inDegree: map<Name, int>, dependents: map<Name, seq<Name>>)
    ensures Degrees(services, inDegree, {})
    ensures Mirrors(services, dependents)
  {
    inDegree := map n | n in services :: 0;
    dependents := map[];
    var todo := services.Keys;
    while todo != {}
      invariant todo <= services.Keys == inDegree.Keys
      invariant forall n | n in services && n !in todo :: inDegree[n] == Pending(services, n, {})
      invariant forall n | n in todo :: inDegree[n] == 0
      invariant MirrorsBut(services, dependents, todo)
    {
      var name :| name in todo;
      inDegree, dependents := AddEdges(services, name, inDegree, dependents, todo);
      todo := todo - {name};
    }
  }

  /** The inner loop of BuildDepGraph: one service's declared dependencies. */
  method AddEdges(services: Services, name: Name, inDegree0: map<Name, int>, dependents0: map<Name, seq<Name>>,
                  ghost todo: set<Name>)
    returns (inDegree: map<Name, int>, dependents: map<Name, seq<Name>>)
    requires name in services && name in inDegree0 && inDegree0[name] == 0
    requires name in todo && MirrorsBut(services, dependents0, todo)
    ensures inDegree == inDegree0[name := Pending(services, name, {})]
    ensures MirrorsBut(services, dependents, todo - {name})
  {
    inDegree, dependents := inDegree0, dependents0;
    var deps := services[name];
    for k := 0 to |deps|
      invariant inDegree == inDegree0[name := PendingTo(services, deps, k, {})]
      invariant forall d, n {:trigger Count(Out(dependents, d), n)} :: Count(Out(dependents, d), n) ==
                  if n == name then (if d in services then CountTo(deps, k, d) else 0)
                  else Count(Out(dependents0, d), n)
    {
      ghost var before := dependents;
      if deps[k] in services {
        inDegree := inDegree[name := inDegree[name] + 1];
        dependents := dependents[deps[k] := Out(dependents, deps[k]) + [name]];
        forall n ensures Count(Out(dependents, deps[k]), n) == Count(Out(before, deps[k]), n) + if n == name then 1 else 0 {
          CountAppend(Out(before, deps[k]), name, n);
        }
        assert forall d | d != deps[k] :: Out(dependents, d) == Out(before, d);
      }
    }
  }

  // ---------- Levels: the sort's progress ----------

  /** n has a dependency one level below h. */
  ghost predicate Supported(services: Services, level: map<Name, nat>, n: Name, h: nat) {
    exists d :: DependsOn(services, n, d) && d in level && level[d] + 1 == h
  }

  /** Placed services sit above all their dependencies, and only just. */
  ghost predicate ValidLevels(services: Services, level: map<Name, nat>) {
    && level.Keys <= services.Keys
    && (forall n, d | n in level && DependsOn(services, n, d) :: d in level && level[d] < level[n])
    && (forall n {:trigger Supported(services, level, n, level[n])} | n in level && level[n] > 0 ::
          Supported(services, level, n, level[n]))
  }

  /** `group` lists the services at level i, each once. */
  ghost predicate GroupIs(group: seq<Name>, level: map<Name, nat>, i: nat) {
    && Distinct(group)
    && forall n :: n in group <==> n in level && level[n] == i
  }

  ghost predicate GroupsShow(groups: Groups, level: map<Name, nat>) {
    && (forall i {:trigger GroupIs(groups[i], level, i)} | 0 <= i < |groups| :: GroupIs(groups[i], level, i))
    && (forall i | 0 <= i < |groups| :: groups[i] != [])
    && (forall n | n in level :: level[n] < |groups|)
  }

  lemma {:induction false} ChainBound(services: Services, level: map<Name, nat>, p: seq<Name>)
    requires ValidLevels(services, level) && Chain(services, p) && p[0] in level
    ensures forall k | 0 <= k < |p| :: p[k] in level && level[p[k]] <= level[p[0]] - k
  {
    if |p| > 1 {
      assert DependsOn(services, p[0], p[1]);
      var q := p[1..];
      assert Chain(services, q) by {
        forall i, j | 0 <= i && j == i + 1 && j < |q| ensures DependsOn(services, q[i], q[j]) {
          assert DependsOn(services, p[i + 1], p[j + 1]);
        }
      }
      ChainBound(services, level, q);
      forall k | 0 < k < |p| ensures p[k] in level && level[p[k]] <= level[p[0]] - k {
        assert p[k] == q[k - 1];
      }
    }
  }

  lemma {:induction false} ChainOfLevel(services: Services, level: map<Name, nat>, n: Name) returns (p: seq<Name>)
    requires ValidLevels(services, level) && n in level
    ensures ChainFrom(services, n, p) && |p| == level[n] + 1
    decreases level[n]
  {
    if level[n] == 0 {
      p := [n];
    } else {
      assert Supported(services, level, n, level[n]);
      var d :| DependsOn(services, n, d) && d in level && level[d] + 1 == level[n];
      var q := ChainOfLevel(services, level, d);
      p := [n] + q;
      forall i, j | 0 <= i && j == i + 1 && j < |p| ensures DependsOn(services, p[i], p[j]) {
        if i > 0 { assert DependsOn(services, q[i - 1], q[j - 1]); }
      }
    }
  }

  lemma LevelIsHeight(services: Services, level: map<Name, nat>, n: Name)
    requires ValidLevels(services, level) && n in level
    ensures Height(services, n, level[n])
  {
    var _ := ChainOfLevel(services, level, n);
    forall p | ChainFrom(services, n, p) ensures |p| <= level[n] + 1 {
      ChainBound(services, level, p);
      assert p[|p| - 1] in level;
    }
  }

  lemma LevelsAcyclic(services: Services, level: map<Name, nat>)
    requires ValidLevels(services, level) && level.Keys == services.Keys
    ensures !Cyclic(services)
  {
    forall p | Chain(services, p) && |p| > 1 ensures p[0] != p[|p| - 1] {
      ChainBound(services, level, p);
    }
  }

  ghost predicate StaysIn(services: Services, stuck: set<Name>, n: Name) {
    exists d :: d in stuck && DependsOn(services, n, d)
  }

  /** Following dependencies inside a set that never runs out closes a cycle. */
  lemma {:induction false} StuckIsCyclic(services: Services, stuck: set<Name>, p: seq<Name>)
    requires stuck <= services.Keys
    requires forall n {:trigger StaysIn(services, stuck, n)} | n in stuck :: StaysIn(services, stuck, n)
    requires Chain(services, p) && Distinct(p) && forall k | 0 <= k < |p| :: p[k] in stuck
    ensures Cyclic(services)
    decreases |stuck| - |p|
  {
    DistinctSize(p, stuck);
    var last := p[|p| - 1];
    assert StaysIn(services, stuck, last);
    var d :| d in stuck && DependsOn(services, last, d);
    var q := p + [d];
    assert Chain(services, q);
    if d in p {
      var i :| 0 <= i < |p| && p[i] == d;
      var c := q[i..];
      assert Chain(services, c) by {
        forall a, b | 0 <= a && b == a + 1 && b < |c| ensures DependsOn(services, c[a], c[b]) {
          assert DependsOn(services, q[i + a], q[i + b]);
        }
      }
      assert c[0] == c[|c| - 1];
    } else {
      DistinctSize(q, stuck);
      StuckIsCyclic(services, stuck, q);
    }
  }

  // ---------- The sort ----------

  ghost predicate QueueOf(services: Services, inDegree: map<Name, int>, placed: set<Name>, queue: seq<Name>)
    requires inDegree.Keys == services.Keys
  {
    && Distinct(queue)
    && forall n :: n in queue <==> n in services && n !in placed && inDegree[n] == 0
  }

  /** Names placed before `queue`, plus the first q of `queue`. */
  ghost function PlacedUpTo(placed: set<Name>, queue: seq<Name>, q: nat): set<Name>
    requires q <= |queue|
  {
    placed + set n | n in queue[..q]
  }

  /** The services whose degree fell from positive to zero, each once. */
  ghost predicate NewlyZero(inDegree0: map<Name, int>, inDegree: map<Name, int>, queue: seq<Name>)
    requires inDegree0.Keys == inDegree.Keys
  {
    && Distinct(queue)
    && forall n :: n in queue <==> n in inDegree && inDegree[n] == 0 && inDegree0[n] > 0
  }

  /** Lowers the degree of every dependent of one group and collects those
      that reach zero. */
  method DrainGroup(services: Services, dependents: map<Name, seq<Name>>, inDegree0: map<Name, int>,
                    queue: seq<Name>, ghost placed: set<Name>)
    returns (inDegree: map<Name, int>, nextQueue: seq<Name>)
    requires Mirrors(services, dependents) && Degrees(services, inDegree0, placed)
    requires QueueOf(services, inDegree0, placed, queue)
    ensures Degrees(services, inDegree, PlacedUpTo(placed, queue, |queue|))
    ensures NewlyZero(inDegree0, inDegree, nextQueue)
  {
    inDegree, nextQueue := inDegree0, [];
    assert PlacedUpTo(placed, queue, 0) == placed;
    for q := 0 to |queue|
      invariant Degrees(services, inDegree, PlacedUpTo(placed, queue, q))
      invariant NewlyZero(inDegree0, inDegree, nextQueue)
      invariant forall n | n in services :: inDegree[n] <= inDegree0[n]
    {
      PlacedNext(placed, queue, q);
      assert queue[q] in queue;
      inDegree, nextQueue := DrainOne(services, dependents, inDegree0, inDegree, nextQueue, queue[q],
                                      PlacedUpTo(placed, queue, q));
    }
  }

  lemma PlacedNext(placed: set<Name>, queue: seq<Name>, q: nat)
    requires q < |queue| && Distinct(queue) && queue[q] !in placed
    ensures PlacedUpTo(placed, queue, q + 1) == PlacedUpTo(placed, queue, q) + {queue[q]}
    ensures queue[q] !in PlacedUpTo(placed, queue, q)
  {
    assert queue[..q + 1] == queue[..q] + [queue[q]];
  }

  /** The innermost loop: the dependents of one service of the group. */
  method DrainOne(services: Services, dependents: map<Name, seq<Name>>, inDegree0: map<Name, int>,
                  inDegree1: map<Name, int>, nextQueue1: seq<Name>, name: Name, ghost placed: set<Name>)
    returns (inDegree: map<Name, int>, nextQueue: seq<Name>)
    requires Mirrors(services, dependents) && inDegree0.Keys == services.Keys
    requires Degrees(services, inDegree1, placed) && name in services && name !in placed
    requires NewlyZero(inDegree0, inDegree1, nextQueue1)
    requires forall n | n in services :: inDegree1[n] <= inDegree0[n]
    ensures Degrees(services, inDegree, placed + {name})
    ensures NewlyZero(inDegree0, inDegree, nextQueue)
    ensures forall n | n in services :: inDegree[n] <= inDegree0[n]
  {
    var deps := Out(dependents, name);
    DegreesAfter(services, dependents, inDegree1, name, placed);
    inDegree, nextQueue := LowerAll(deps, inDegree0, inDegree1, nextQueue1);
    DegreesLowered(services, inDegree1, inDegree, deps, placed + {name});
  }

  method LowerAll(deps: seq<Name>, inDegree0: map<Name, int>, inDegree1: map<Name, int>, nextQueue1: seq<Name>)
    returns (inDegree: map<Name, int>, nextQueue: seq<Name>)
    requires inDegree0.Keys == inDegree1.Keys && NewlyZero(inDegree0, inDegree1, nextQueue1)
    requires forall k | 0 <= k < |deps| :: deps[k] in inDegree1
    requires forall n | n in inDegree1 :: Count(deps, n) <= inDegree1[n] <= inDegree0[n]
    ensures Lowered(inDegree1, inDegree, deps, |deps|)
    ensures NewlyZero(inDegree0, inDegree, nextQueue)
  {
    inDegree, nextQueue := inDegree1, nextQueue1;
    for j := 0 to |deps|
      invariant Lowered(inDegree1, inDegree, deps, j)
      invariant NewlyZero(inDegree0, inDegree, nextQueue)
    {
      var dep := deps[j];
      CountMonotone(deps, j + 1, |deps|, dep);
      NewlyZeroStep(inDegree0, inDegree, nextQueue, dep);
      LoweredStep(inDegree1, inDegree, deps, j);
      inDegree := inDegree[dep := inDegree[dep] - 1];
      if inDegree[dep] == 0 {
        nextQueue := nextQueue + [dep];
      }
    }
  }

  lemma LoweredStep(inDegree0: map<Name, int>, inDegree: map<Name, int>, s: seq<Name>, j: nat)
    requires j < |s| && Lowered(inDegree0, inDegree, s, j) && s[j] in inDegree
    ensures Lowered(inDegree0, inDegree[s[j] := inDegree[s[j]] - 1], s, j + 1)
  {
  }

  /** Every degree lowered by its occurrences among the first j of s. */
  ghost predicate Lowered(inDegree0: map<Name, int>, inDegree: map<Name, int>, s: seq<Name>, j: nat)
    requires j <= |s|
  {
    && inDegree.Keys == inDegree0.Keys
    && forall n | n in inDegree :: inDegree[n] == inDegree0[n] - CountTo(s, j, n)
  }

  lemma DegreesLowered(services: Services, inDegree0: map<Name, int>, inDegree: map<Name, int>, s: seq<Name>,
                       placed: set<Name>)
    requires Lowered(inDegree0, inDegree, s, |s|) && inDegree0.Keys == services.Keys
    requires forall n | n in services :: Pending(services, n, placed) == inDegree0[n] - Count(s, n)
    ensures Degrees(services, inDegree, placed)
    ensures forall n | n in services :: inDegree[n] <= inDegree0[n]
  {
  }

  /** Placing `name` takes one off for each of its recorded dependents. */
  lemma DegreesAfter(services: Services, dependents: map<Name, seq<Name>>, inDegree: map<Name, int>,
                     name: Name, placed: set<Name>)
    requires Mirrors(services, dependents) && Degrees(services, inDegree, placed)
    requires name in services && name !in placed
    ensures forall n | n in Out(dependents, name) :: n in services
    ensures forall n | n in services ::
              Pending(services, n, placed + {name}) == inDegree[n] - Count(Out(dependents, name), n)
  {
    var deps := Out(dependents, name);
    forall n | n in deps ensures n in services {
      var i :| 0 <= i < |deps| && deps[i] == n;
      CountMember(deps, |deps|, i);
      assert Count(Out(dependents, name), n) > 0;
    }
    forall n | n in services
      ensures Pending(services, n, placed + {name}) == inDegree[n] - Count(Out(dependents, name), n)
    {
      PendingPlace(services, services[n], |services[n]|, placed, name);
    }
  }

  lemma NewlyZeroStep(inDegree0: map<Name, int>, inDegree: map<Name, int>, queue: seq<Name>, dep: Name)
    requires inDegree0.Keys == inDegree.Keys && NewlyZero(inDegree0, inDegree, queue)
    requires dep in inDegree && 0 < inDegree[dep] <= inDegree0[dep]
    ensures NewlyZero(inDegree0, inDegree[dep := inDegree[dep] - 1],
                      if inDegree[dep] == 1 then queue + [dep] else queue)
  {
    assert dep !in queue;
  }

  /** The sort's loop invariant. */
  ghost predicate Progress(services: Services, inDegree: map<Name, int>, level: map<Name, nat>, queue: seq<Name>,
                           groups: Groups)
  {
    && ValidLevels(services, level)
    && GroupsShow(groups, level)
    && Degrees(services, inDegree, level.Keys)
    && QueueOf(services, inDegree, level.Keys, queue)
    && NextReady(services, level, queue, |groups|)
  }

  lemma ProgressStart(services: Services, inDegree: map<Name, int>, queue: seq<Name>)
    requires Degrees(services, inDegree, {}) && QueueOf(services, inDegree, {}, queue)
    ensures Progress(services, inDegree, map[], queue, [])
  {
    var level: map<Name, nat> := map[];
    assert level.Keys == {};
    forall n, d | n in queue ensures !DependsOn(services, n, d) {
      if DependsOn(services, n, d) {
        var i :| 0 <= i < |services[n]| && services[n][i] == d;
        PendingZero(services, services[n], |services[n]|, {}, i);
      }
    }
  }

  lemma ProgressEnd(services: Services, inDegree: map<Name, int>, level: map<Name, nat>, groups: Groups)
    requires Progress(services, inDegree, level, [], groups)
    ensures |level.Keys| != |services| <==> Cyclic(services)
    ensures |level.Keys| == |services| ==> IsLayering(services, groups)
  {
    SubsetSize(level.Keys, services.Keys);
    if level.Keys == services.Keys {
      LevelsAcyclic(services, level);
      AllPlaced(services, level, groups);
    } else {
      LeftoverCyclic(services, inDegree, level.Keys);
    }
  }

  lemma ProgressStep(services: Services, inDegree0: map<Name, int>, inDegree: map<Name, int>,
                     level: map<Name, nat>, queue: seq<Name>, nextQueue: seq<Name>, groups: Groups)
    requires Progress(services, inDegree0, level, queue, groups) && queue != []
    requires Degrees(services, inDegree, PlacedUpTo(level.Keys, queue, |queue|))
    requires NewlyZero(inDegree0, inDegree, nextQueue)
    ensures Progress(services, inDegree, Extend(level, queue, |groups|), nextQueue, groups + [queue])
    ensures |Extend(level, queue, |groups|).Keys| == |level.Keys| + |queue| <= |services|
  {
    ExtendKeys(level, queue, |groups|);
    ExtendLevels(services, level, queue, |groups|);
    ExtendGroups(groups, level, queue);
    NextStep(services, inDegree0, inDegree, level, queue, nextQueue, |groups|);
    SubsetSize(Extend(level, queue, |groups|).Keys, services.Keys);
  }

  /** The sort: an error exactly on a cycle, otherwise the layering by longest
      dependency chain, whatever order the maps are visited in. */
  method TopoSort(services: Services, inDegree0: map<Name, int>, dependents: map<Name, seq<Name>>)
    returns (r: Option<Groups>)
    requires Degrees(services, inDegree0, {}) && Mirrors(services, dependents)
    ensures r.None? <==> Cyclic(services)
    ensures r.Some? ==> IsLayering(services, r.value)
  {
    var inDegree := inDegree0;
    var groups: Groups := [];
    var processed := 0;
    var queue := ZeroDegree(services, inDegree);
    ghost var level: map<Name, nat> := map[];
    ProgressStart(services, inDegree, queue);
    while queue != []
      invariant Progress(services, inDegree, level, queue, groups)
      invariant processed == |level.Keys|
      decreases |services| - processed
    {
      ghost var before := inDegree;
      var nextQueue;
      inDegree, nextQueue := DrainGroup(services, dependents, inDegree, queue, level.Keys);
      ProgressStep(services, before, inDegree, level, queue, nextQueue, groups);
      level := Extend(level, queue, |groups|);
      groups := groups + [queue];
      processed := processed + |queue|;
      queue := nextQueue;
    }
    ProgressEnd(services, inDegree, level, groups);
    r := if processed != |services| then None else Some(groups);
  }

  method ZeroDegree(services: Services, inDegree: map<Name, int>) returns (queue: seq<Name>)
    requires inDegree.Keys == services.Keys
    ensures QueueOf(services, inDegree, {}, queue)
  {
    queue := [];
    var todo := inDegree.Keys;
    while todo != {}
      invariant todo <= inDegree.Keys
      invariant Distinct(queue)
      invariant forall n :: n in queue <==> n in inDegree && n !in todo && inDegree[n] == 0
    {
      var name :| name in todo;
      todo := todo - {name};
      if inDegree[name] == 0 { queue := queue + [name]; }
    }
  }

  /** What makes a queue a legal next group. */
  ghost predicate NextReady(services: Services, level: map<Name, nat>, queue: seq<Name>, depth: nat) {
    && (forall n | n in level :: level[n] < depth)
    && (forall n, d | n in queue && DependsOn(services, n, d) :: d in level)
    && (depth > 0 ==> forall n {:trigger Supported(services, level, n, depth)} | n in queue ::
          Supported(services, level, n, depth))
  }

  ghost function Extend(level: map<Name, nat>, queue: seq<Name>, depth: nat): map<Name, nat> {
    level + map n | n in queue :: depth
  }

  lemma ExtendKeys(level: map<Name, nat>, queue: seq<Name>, depth: nat)
    requires Distinct(queue) && forall n | n in queue :: n !in level
    ensures Extend(level, queue, depth).Keys == PlacedUpTo(level.Keys, queue, |queue|)
    ensures |Extend(level, queue, depth).Keys| == |level.Keys| + |queue|
    ensures forall n :: n in Extend(level, queue, depth) <==> n in level || n in queue
  {
    var added := set n | n in queue;
    DistinctSize(queue, added);
    assert Extend(level, queue, depth).Keys == level.Keys + added;
    assert level.Keys !! added;
    assert queue[..|queue|] == queue;
  }

  lemma ExtendLevels(services: Services, level: map<Name, nat>, queue: seq<Name>, depth: nat)
    requires ValidLevels(services, level)
    requires Distinct(queue) && forall n | n in queue :: n in services && n !in level
    requires NextReady(services, level, queue, depth)
    ensures ValidLevels(services, Extend(level, queue, depth))
  {
    var level' := Extend(level, queue, depth);
    ExtendKeys(level, queue, depth);
    forall n | n in level' && level'[n] > 0 ensures Supported(services, level', n, level'[n]) {
      assert Supported(services, level, n, level'[n]);
      var d :| DependsOn(services, n, d) && d in level && level[d] + 1 == level'[n];
      assert level'[d] == level[d];
    }
  }

  lemma ExtendGroups(groups: Groups, level: map<Name, nat>, queue: seq<Name>)
    requires GroupsShow(groups, level) && Distinct(queue) && queue != [] && forall n | n in queue :: n !in level
    ensures GroupsShow(groups + [queue], Extend(level, queue, |groups|))
  {
    ExtendKeys(level, queue, |groups|);
    var level' := Extend(level, queue, |groups|);
    var groups' := groups + [queue];
    forall i | 0 <= i < |groups'| ensures GroupIs(groups'[i], level', i) {
      if i < |groups| {
        assert GroupIs(groups[i], level, i);
        GroupKept(groups[i], level, i, queue, |groups|);
      }
    }
  }

  lemma GroupKept(group: seq<Name>, level: map<Name, nat>, i: nat, queue: seq<Name>, depth: nat)
    requires GroupIs(group, level, i) && i != depth && forall n | n in queue :: n !in level
    ensures GroupIs(group, Extend(level, queue, depth), i)
  {
  }

  lemma PlacedAreZero(services: Services, inDegree: map<Name, int>, level: map<Name, nat>)
    requires ValidLevels(services, level) && Degrees(services, inDegree, level.Keys)
    ensures forall n | n in level :: inDegree[n] == 0
  {
    forall n | n in level ensures inDegree[n] == 0 {
      if Pending(services, n, level.Keys) > 0 {
        var i := PendingPositive(services, services[n], |services[n]|, level.Keys);
        assert DependsOn(services, n, services[n][i]);
      }
    }
  }

  lemma NextStep(services: Services, inDegree0: map<Name, int>, inDegree: map<Name, int>, level: map<Name, nat>,
                 queue: seq<Name>, nextQueue: seq<Name>, depth: nat)
    requires ValidLevels(services, level) && forall n | n in level :: level[n] < depth
    requires Degrees(services, inDegree0, level.Keys) && QueueOf(services, inDegree0, level.Keys, queue)
    requires Extend(level, queue, depth).Keys == PlacedUpTo(level.Keys, queue, |queue|)
    requires Degrees(services, inDegree, Extend(level, queue, depth).Keys)
    requires NewlyZero(inDegree0, inDegree, nextQueue)
    ensures QueueOf(services, inDegree, Extend(level, queue, depth).Keys, nextQueue)
    ensures NextReady(services, Extend(level, queue, depth), nextQueue, depth + 1)
  {
    var level' := Extend(level, queue, depth);
    PlacedAreZero(services, inDegree0, level);
    forall n, d | n in nextQueue && DependsOn(services, n, d) ensures d in level' {
      var i :| 0 <= i < |services[n]| && services[n][i] == d;
      PendingZero(services, services[n], |services[n]|, level'.Keys, i);
    }
    forall n | n in nextQueue ensures Supported(services, level', n, depth + 1) {
      assert n !in queue;
      var i := PendingPositive(services, services[n], |services[n]|, level.Keys);
      var d := services[n][i];
      PendingZero(services, services[n], |services[n]|, level'.Keys, i);
      assert DependsOn(services, n, d) && d in level';
    }
  }

  /** Once the queue is empty, whatever is left over sits on a cycle. */
  lemma LeftoverCyclic(services: Services, inDegree: map<Name, int>, placed: set<Name>)
    requires placed < services.Keys
    requires Degrees(services, inDegree, placed) && QueueOf(services, inDegree, placed, [])
    ensures Cyclic(services)
  {
    var stuck := services.Keys - placed;
    forall n | n in stuck ensures StaysIn(services, stuck, n) {
      assert n !in [];
      var i := PendingPositive(services, services[n], |services[n]|, placed);
      assert services[n][i] in stuck && DependsOn(services, n, services[n][i]);
    }
    var n :| n in services.Keys && n !in placed;
    StuckIsCyclic(services, stuck, [n]);
  }

  lemma AllPlaced(services: Services, level: map<Name, nat>, groups: Groups)
    requires ValidLevels(services, level) && GroupsShow(groups, level) && level.Keys == services.Keys
    ensures IsLayering(services, groups)
  {
    forall i | 0 <= i < |groups| ensures GroupIs(groups[i], level, i) { }
    forall i, n | 0 <= i < |groups| && n in groups[i] ensures Height(services, n, i) {
      assert GroupIs(groups[i], level, i);
      LevelIsHeight(services, level, n);
    }
    forall n | n in services ensures Grouped(groups, n) {
      assert GroupIs(groups[level[n]], level, level[n]);
    }
  }

  method ResolveOrder(services: Services) returns (r: Option<Groups>)
    ensures r.None? <==> Cyclic(services)
    ensures r.Some? ==> IsLayering(services, r.value)
  {
    var inDegree, dependents := BuildDepGraph(services);
    r := TopoSort(services, inDegree, dependents);
  }

  // ---------- Consequences ----------

  lemma HeightUnique(services: Services, n: Name, h: nat, h': nat)
    requires Height(services, n, h) && Height(services, n, h')
    ensures h == h'
  {
    var p :| ChainFrom(services, n, p) && |p| == h + 1;
    var q :| ChainFrom(services, n, q) && |q| == h' + 1;
  }

  lemma HeightAboveDependency(services: Services, n: Name, d: Name, h: nat, h': nat)
    requires DependsOn(services, n, d) && Height(services, n, h) && Height(services, d, h')
    ensures h' < h
  {
    var q :| ChainFrom(services, d, q) && |q| == h' + 1;
    var p := [n] + q;
    forall i, j | 0 <= i && j == i + 1 && j < |p| ensures DependsOn(services, p[i], p[j]) {
      if i > 0 { assert DependsOn(services, q[i - 1], q[j - 1]); }
    }
    assert ChainFrom(services, n, p);
  }

  /** In a layering every dependency sits in a strictly earlier group. */
  lemma DependencyEarlier(services: Services, groups: Groups, n: Name, d: Name, i: nat)
    requires IsLayering(services, groups) && DependsOn(services, n, d) && i < |groups| && n in groups[i]
    ensures exists j :: 0 <= j < i && d in groups[j]
  {
    assert Grouped(groups, d);
    var j :| 0 <= j < |groups| && d in groups[j];
    assert Height(services, n, i) && Height(services, d, j);
    HeightAboveDependency(services, n, d, i, j);
  }

  /** The layering does not depend on iteration order: any two agree on the
      group of every service. */
  lemma LayeringUnique(services: Services, groups: Groups, groups': Groups, n: Name, i: nat, i': nat)
    requires IsLayering(services, groups) && IsLayering(services, groups')
    requires i < |groups| && n in groups[i] && i' < |groups'| && n in groups'[i']
    ensures i == i'
  {
    assert Height(services, n, i) && Height(services, n, i');
    HeightUnique(services, n, i, i');
  }

  lemma LayeringSize(services: Services, groups: Groups, groups': Groups)
    requires IsLayering(services, groups) && IsLayering(services, groups')
    ensures |groups| <= |groups'|
  {
    if |groups'| < |groups| {
      var n := groups[|groups'|][0];
      assert n in groups[|groups'|] && Grouped(groups', n);
      var i :| 0 <= i < |groups'| && n in groups'[i];
      LayeringUnique(services, groups, groups', n, |groups'|, i);
    }
  }

  /** Any two layerings have the same groups, each with the same services. */
  lemma LayeringsAgree(services: Services, groups: Groups, groups': Groups, n: Name, i: nat)
    requires IsLayering(services, groups) && IsLayering(services, groups') && i < |groups|
    ensures |groups| == |groups'| && (n in groups[i] <==> n in groups'[i])
  {
    LayeringSize(services, groups, groups');
    LayeringSize(services, groups', groups);
    if n in groups[i] || n in groups'[i] {
      assert n in services && Grouped(groups, n) && Grouped(groups', n);
      var a :| 0 <= a < |groups| && n in groups[a];
      var b :| 0 <= b < |groups'| && n in groups'[b];
      LayeringUnique(services, groups, groups', n, a, b);
      if n in groups[i] { LayeringUnique(services, groups, groups, n, i, a); }
      if n in groups'[i] { LayeringUnique(services, groups', groups', n, i, b); }
    }
  }
}
