/** A Run that was cancelled or has failed always ends: some step is enabled until
    it has returned, and every schedule takes only so many. */
module SupervisorEnds {
  import opened Collections
  import opened Wrappers
  import opened ServiceOrder
  import opened Supervisor

  // ---------- Steps left ----------

  /** Steps of a service goroutine, its launch included. */
  function Left(c: Config, n: Name, q: Proc): int
    requires n in c.maxRetries
  {
    if q.Idle? then 2 * Attempts(c, n) + 4 else StepsLeft(c, n, q)
  }

  ghost function Work(c: Config, procs: map<Name, Proc>): int
    requires procs.Keys <= c.maxRetries.Keys
    decreases |procs|
  {
    if procs == map[] then 0
    else var n :| n in procs; Left(c, n, procs[n]) + Work(c, procs - {n})
  }

  lemma {:induction false} WorkSplit(c: Config, procs: map<Name, Proc>, n: Name)
    requires procs.Keys <= c.maxRetries.Keys && n in procs
    ensures Work(c, procs) == Left(c, n, procs[n]) + Work(c, procs - {n})
    decreases |procs|
  {
    var j :| j in procs && Work(c, procs) == Left(c, j, procs[j]) + Work(c, procs - {j});
    if j != n {
      WorkSplit(c, procs - {j}, n);
      WorkSplit(c, procs - {n}, j);
      assert (procs - {j}) - {n} == (procs - {n}) - {j};
    }
  }

  /** One goroutine's step changes the work by its own share. */
  lemma WorkUpdate(c: Config, procs: map<Name, Proc>, n: Name, q: Proc)
    requires procs.Keys <= c.maxRetries.Keys && n in procs
    ensures Work(c, procs[n := q]) == Work(c, procs) - Left(c, n, procs[n]) + Left(c, n, q)
  {
    WorkSplit(c, procs, n);
    WorkSplit(c, procs[n := q], n);
    assert procs[n := q] - {n} == procs - {n};
  }

  lemma {:induction false} WorkNatural(c: Config, procs: map<Name, Proc>)
    requires procs.Keys <= c.maxRetries.Keys && forall n | n in procs :: ProcOk(c, n, procs[n])
    ensures Work(c, procs) >= 0
    decreases |procs|
  {
    if procs != map[] {
      var n :| n in procs;
      WorkSplit(c, procs, n);
      WorkNatural(c, procs - {n});
    }
  }

  function Minus(a: nat, b: nat): nat { if a > b then a - b else 0 }

  /** Startup steps for the groups from i on: test, launches, tokens, waits. */
  function GroupsLeft(groups: Groups, i: nat): nat
    decreases |groups| - i
  {
    if i >= |groups| then 0 else 3 * |groups[i]| + 6 + GroupsLeft(groups, i + 1)
  }

  function MainLeft(groups: Groups, m: Main): nat {
    match m
    case Fresh => 6 + GroupsLeft(groups, 0)
    case Ordered => 5 + GroupsLeft(groups, 0)
    case Check(i) => 4 + GroupsLeft(groups, i)
    case Launching(i, k) => if i < |groups| then 9 + GroupsLeft(groups, i + 1) + 2 * |groups[i]| + Minus(|groups[i]|, k) else 0
    case Collecting(i, got) => if i < |groups| then 8 + GroupsLeft(groups, i + 1) + |groups[i]| + Minus(|groups[i]|, |got|) else 0
    case Waiting(i, k) => if i < |groups| then 6 + GroupsLeft(groups, i + 1) + Minus(|groups[i]|, k) else 0
    case Appending(i) => 5 + GroupsLeft(groups, i + 1)
    case Selecting => 3
    case Returning(_) => 2
    case Draining(_) => 1
    case Closed(_) => 0
  }

  /** Indices below n that are not marked. */
  function Undone(n: nat, marks: set<nat>): nat {
    if n == 0 then 0 else Undone(n - 1, marks) + if n - 1 in marks then 0 else 1
  }

  lemma {:induction false} UndoneAll(n: nat)
    ensures Undone(n, {}) == n
  {
    if n > 0 { UndoneAll(n - 1); }
  }

  lemma {:induction false} UndoneMark(n: nat, marks: set<nat>, k: nat)
    requires k !in marks
    ensures Undone(n, marks + {k}) == Undone(n, marks) - if k < n then 1 else 0
  {
    if n > 0 { UndoneMark(n - 1, marks, k); }
  }

  /** Steps to stop the first i groups. */
  function StopsLeft(groups: Groups, i: nat): nat
    requires i <= |groups|
  {
    if i == 0 then 0 else StopsLeft(groups, i - 1) + 2 * |groups[i - 1]| + 1
  }

  lemma {:induction false} StopsMonotone(groups: Groups, i: nat, j: nat)
    requires i <= j <= |groups|
    ensures StopsLeft(groups, i) <= StopsLeft(groups, j)
  {
    if i < j { StopsMonotone(groups, i, j - 1); }
  }

  function StopLeft(groups: Groups, p: Stopping): nat {
    match p.phase
    case NotCalled => StopsLeft(groups, |groups|) + 2
    case Body(i, begun, done) =>
      if i == 0 || i > |groups| then 1
      else StopsLeft(groups, i - 1) + Undone(|groups[i - 1]|, begun) + Undone(|groups[i - 1]|, done) + 2
    case Finished => 0
  }

  /** All steps Run, its services and Stop can still take. */
  ghost function Total(c: Config, s: State): int
    requires s.procs.Keys <= c.maxRetries.Keys
  {
    MainLeft(c.groups, s.main) + Work(c, s.procs) + StopLeft(c.groups, s.stopping)
    + (if s.stopping.called then 0 else 1) + (if s.sig.cancelled then 0 else 1)
  }

  // ---------- Every step uses one up ----------

  /** A step of Run, of a service or of Stop; outside are cancellation, readiness and
      calls of Stop that change nothing any more. */
  predicate Own(s: State, e: Event) {
    !e.Cancel? && !e.SignalReady? && !(e.StopCall? && s.stopping.called && (s.sig.cancelled || s.main.Fresh?))
  }

  lemma StartShrinks(c: Config, s: State, b: StartEvent)
    requires Inv(c, s) && NextStart(c, s, b).Some?
    ensures var t := NextStart(c, s, b).value;
            && t.stopping == s.stopping && t.sig.cancelled == s.sig.cancelled && MainLeft(c.groups, t.main) < MainLeft(c.groups, s.main)
  {
    if b.ReceiveToken? { TokenNew(c, s, b.n); }
    MainShrinks(c, s, b);
  }

  lemma TokenNew(c: Config, s: State, n: Name)
    requires InvBegun(c, s) && s.main.Collecting? && n in s.sig.tokens
    ensures n !in s.main.got
  {
  }

  lemma MainShrinks(c: Config, s: State, b: StartEvent)
    requires InvMain(c, s) && NextStart(c, s, b).Some? && (b.ReceiveToken? && s.main.Collecting? ==> b.n !in s.main.got)
    ensures var t := NextStart(c, s, b).value;
            && t.stopping == s.stopping && t.sig.cancelled == s.sig.cancelled && MainLeft(c.groups, t.main) < MainLeft(c.groups, s.main)
  {
  }

  lemma LaunchWork(c: Config, s: State, b: StartEvent)
    requires Grounded(c) && Inv(c, s) && NextStart(c, s, b).Some?
    ensures NextStart(c, s, b).value.procs.Keys == s.procs.Keys
    ensures Work(c, NextStart(c, s, b).value.procs) <= Work(c, s.procs)
  {
    if b.Launch? {
      var n := c.groups[s.main.i][s.main.k];
      assert !Launched(s.procs, n);
      WorkUpdate(c, s.procs, n, Spawned);
    }
  }

  lemma WaitShrinks(c: Config, s: State, w: WaitEvent)
    requires NextWait(c, s.main, s.procs, s.sig, w).Some?
    ensures MainLeft(c.groups, NextWait(c, s.main, s.procs, s.sig, w).value) < MainLeft(c.groups, s.main)
  {
  }

  lemma StopShrinks(c: Config, s: State, t: StopEvent)
    requires Inv(c, s) && NextStop(s.main, s.startGroups, s.stopping, t).Some?
    ensures StopLeft(c.groups, NextStop(s.main, s.startGroups, s.stopping, t).value) < StopLeft(c.groups, s.stopping)
    ensures NextStop(s.main, s.startGroups, s.stopping, t).value.called == s.stopping.called
  {
    match t
    case BeginBody =>
      StopsMonotone(c.groups, |s.startGroups|, |c.groups|);
      if |s.startGroups| > 0 { UndoneAll(|c.groups[|s.startGroups| - 1]|); }
    case StopService(k) => UndoneMark(|c.groups[s.stopping.phase.i - 1]|, s.stopping.phase.begun, k);
    case StopServiceEnds(k) => UndoneMark(|c.groups[s.stopping.phase.i - 1]|, s.stopping.phase.done, k);
    case NextGroup => if s.stopping.phase.i > 1 { UndoneAll(|c.groups[s.stopping.phase.i - 2]|); }
    case EndBody =>
  }

  lemma ProcWork(c: Config, s: State, n: Name, p: ProcEvent)
    requires Grounded(c) && Inv(c, s) && Next(c, s, ProcStep(n, p)).Some?
    ensures Next(c, s, ProcStep(n, p)).value.procs.Keys == s.procs.Keys
    ensures Work(c, Next(c, s, ProcStep(n, p)).value.procs) < Work(c, s.procs)
    ensures Next(c, s, ProcStep(n, p)).value.sig.cancelled == s.sig.cancelled
  {
    ProcFrame(c, n, s.procs[n], s.sig, p);
    assert !s.main.Closed?;
    ProcShrinks(c, n, s.procs[n], s.sig, p);
    WorkUpdate(c, s.procs, n, NextProc(c, n, s.procs[n], s.sig, p).value.0);
  }

  lemma TotalShrinks(c: Config, s: State, e: Event)
    requires Grounded(c) && Inv(c, s) && Next(c, s, e).Some?
    ensures Next(c, s, e).value.procs.Keys <= c.maxRetries.Keys
    ensures Total(c, Next(c, s, e).value) <= Total(c, s)
    ensures Own(s, e) ==> Total(c, Next(c, s, e).value) < Total(c, s)
  {
    match e
    case ProcStep(n, p) => ProcWork(c, s, n, p);
    case StartStep(b) => StartTotal(c, s, b);
    case WaitStep(w) => WaitShrinks(c, s, w);
    case EndStep(d) => EndShrinks(c, s, d);
    case StopStep(t) => StopShrinks(c, s, t);
    case _ =>
  }

  lemma StartTotal(c: Config, s: State, b: StartEvent)
    requires Grounded(c) && Inv(c, s) && NextStart(c, s, b).Some?
    ensures NextStart(c, s, b).value.procs.Keys <= c.maxRetries.Keys
    ensures Total(c, NextStart(c, s, b).value) < Total(c, s)
  {
    StartShrinks(c, s, b);
    LaunchWork(c, s, b);
  }

  lemma EndShrinks(c: Config, s: State, d: EndEvent)
    requires NextEnd(s.main, s.procs, s.sig, s.stopping.phase, d).Some?
    ensures MainLeft(c.groups, NextEnd(s.main, s.procs, s.sig, s.stopping.phase, d).value.0) < MainLeft(c.groups, s.main)
    ensures NextEnd(s.main, s.procs, s.sig, s.stopping.phase, d).value.1.cancelled == s.sig.cancelled
  {
  }

  lemma TotalNatural(c: Config, s: State)
    requires Inv(c, s)
    ensures Total(c, s) >= 0
  {
    WorkNatural(c, s.procs);
  }

  /** Own steps along a run. */
  function OwnSteps(c: Config, s: State, es: seq<Event>): nat
    decreases |es|
  {
    if es == [] then 0
    else match Next(c, s, es[0])
      case None => 0
      case Some(t) => (if Own(s, es[0]) then 1 else 0) + OwnSteps(c, t, es[1..])
  }

  /** Bounded: from every reachable state, along any run, Run, its services and Stop
      take no more steps than the state has left. */
  lemma RunBounded(c: Config, s: State, es: seq<Event>)
    requires ValidConfig(c) && Reachable(c, s) && Exec(c, s, es).Some?
    ensures s.procs.Keys <= c.maxRetries.Keys && OwnSteps(c, s, es) <= Total(c, s)
  {
    ReachableInv(c, s);
    StepsBounded(c, s, es);
  }

  lemma {:induction false} StepsBounded(c: Config, s: State, es: seq<Event>)
    requires Grounded(c) && Inv(c, s) && Exec(c, s, es).Some?
    ensures OwnSteps(c, s, es) <= Total(c, s)
    decreases |es|
  {
    if es == [] {
      TotalNatural(c, s);
    } else {
      InvKept(c, s, es[0]);
      TotalShrinks(c, s, es[0]);
      StepsBounded(c, Next(c, s, es[0]).value, es[1..]);
    }
  }

  // ---------- Until Run has returned, some step is enabled ----------

  lemma StopMoves(c: Config, s: State) returns (t: StopEvent)
    requires Inv(c, s) && s.stopping.phase.Body?
    ensures NextStop(s.main, s.startGroups, s.stopping, t).Some?
  {
    var p := s.stopping.phase;
    if p.i == 0 {
      t := EndBody;
    } else if k :| 0 <= k < |s.startGroups[p.i - 1]| && k !in p.begun {
      t := StopService(k);
    } else if k :| 0 <= k < |s.startGroups[p.i - 1]| && k !in p.done {
      t := StopServiceEnds(k);
    } else {
      t := NextGroup;
    }
  }

  /** While tokens are missing, one is there to take or a goroutine is about to send. */
  lemma CollectMoves(c: Config, s: State) returns (e: Event)
    requires Grounded(c) && Inv(c, s) && s.main.Collecting?
    ensures Next(c, s, e).Some? && Own(s, e)
  {
    GotWithin(c, s);
    if |s.main.got| == |c.groups[s.main.i]| {
      e := StartStep(AllLaunched);
    } else if s.sig.tokens != {} {
      var n :| n in s.sig.tokens;
      e := StartStep(ReceiveToken(n));
    } else {
      var n := MissingToken(c, s);
      e := ProcStep(n, SendToken);
    }
  }

  lemma GotWithin(c: Config, s: State)
    requires Grounded(c) && InvMain(c, s) && InvBegun(c, s) && s.main.Collecting?
    ensures |s.main.got| <= |c.groups[s.main.i]|
  {
    var g := c.groups[s.main.i];
    var all := set n | n in g;
    DistinctSize(g, all);
    SubsetSize(s.main.got, all);
  }

  lemma MissingToken(c: Config, s: State) returns (n: Name)
    requires Grounded(c) && Inv(c, s) && s.main.Collecting? && s.sig.tokens == {}
    requires |s.main.got| < |c.groups[s.main.i]|
    ensures n in s.procs && s.procs[n].Spawned?
  {
    var g := c.groups[s.main.i];
    if forall k | 0 <= k < |g| :: g[k] in s.main.got {
      DistinctSize(g, s.main.got);
    }
    var k :| 0 <= k < |g| && g[k] !in s.main.got;
    n := g[k];
    assert Launched(s.procs, c.groups[s.main.i][k]);
  }

  lemma ReturnMoves(c: Config, s: State) returns (e: Event)
    requires Inv(c, s) && s.main.Returning?
    ensures Next(c, s, e).Some? && Own(s, e)
  {
    if !s.stopping.called || !s.sig.cancelled {
      e := StopCall;
    } else if s.stopping.phase.Body? {
      var t := StopMoves(c, s);
      e := StopStep(t);
    } else if s.stopping.phase.Finished? {
      e := EndStep(StopReturned);
    } else {
      e := StopStep(BeginBody);
    }
  }

  lemma DrainMoves(c: Config, s: State) returns (e: Event)
    requires Grounded(c) && Inv(c, s) && s.main.Draining?
    ensures Next(c, s, e).Some? && Own(s, e)
  {
    if n :| n in s.procs && Busy(s.procs[n]) {
      var _ := OwnStepTaken(c, s, n);
      e := ProcStep(n, OwnStep(s.procs[n]));
    } else {
      e := EndStep(CloseErrCh);
    }
  }

  lemma WaitMoves(c: Config, s: State) returns (w: WaitEvent)
    requires Inv(c, s) && (s.sig.cancelled || s.sig.failure) && s.main.Waiting?
    ensures NextWait(c, s.main, s.procs, s.sig, w).Some?
  {
    var g := c.groups[s.main.i];
    w := if s.main.k >= |g| then WaitDone
         else if g[s.main.k] !in c.notifiers then WaitSkip
         else if s.sig.cancelled then WaitCancelled else WaitFailure;
  }

  lemma StartMoves(c: Config, s: State) returns (b: StartEvent)
    requires Inv(c, s) && (s.main.Fresh? || s.main.Check? || s.main.Launching? || s.main.Appending?
                           || (s.main.Ordered? && !s.stopping.phase.Body?))
    ensures NextStart(c, s, b).Some?
  {
    b := match s.main
         case Fresh => StoreCancel
         case Ordered => TakeLock
         case Check(_) => TestFailure
         case Launching(i, k) => if k < |c.groups[i]| then Launch else EndLaunch
         case _ => AppendGroup;
  }

  /** Cancelled, failed, or past Run's final select. */
  predicate Ending(s: State) { s.sig.cancelled || s.sig.failure || s.main.Returning? || s.main.Draining? }

  lemma SelectMoves(c: Config, s: State) returns (d: EndEvent)
    requires Inv(c, s) && (s.sig.cancelled || s.sig.failure) && s.main.Selecting?
    ensures NextEnd(s.main, s.procs, s.sig, s.stopping.phase, d).Some?
  {
    d := if s.sig.cancelled then SelectDone else SelectError;
  }

  /** In every reachable state of a Run that was cancelled, has failed or is on its way
      out and has not returned, a step of Run, of a service or of Stop is enabled. As
      their number is bounded, every schedule that goes on taking them ends with Run
      returned. */
  lemma EndingMoves(c: Config, s: State) returns (e: Event)
    requires ValidConfig(c) && Reachable(c, s) && Ending(s) && !s.main.Closed?
    ensures Next(c, s, e).Some? && Own(s, e)
  {
    ReachableInv(c, s);
    match s.main
    case Collecting(_, _) => e := CollectMoves(c, s);
    case Waiting(_, _) =>
      var w := WaitMoves(c, s);
      e := WaitStep(w);
    case Selecting =>
      var d := SelectMoves(c, s);
      e := EndStep(d);
    case Returning(_) => e := ReturnMoves(c, s);
    case Draining(_) => e := DrainMoves(c, s);
    case _ =>
      if s.main.Ordered? && s.stopping.phase.Body? {
        var t := StopMoves(c, s);
        e := StopStep(t);
      } else {
        var b := StartMoves(c, s);
        e := StartStep(b);
      }
  }
}
