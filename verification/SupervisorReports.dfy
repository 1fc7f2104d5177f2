/** What a service's returns lead to, over whole schedules: retries, reports and
    the launch of every group. */
module SupervisorReports {
  import opened Wrappers
  import opened ServiceOrder
  import opened Supervisor

  // ---------- Returns of a service's Run along a schedule ----------

  function Returns(es: seq<Event>, n: Name, ok: bool): nat {
    if es == [] then 0 else (if es[0] == ProcStep(n, RunReturns(ok)) then 1 else 0) + Returns(es[1..], n, ok)
  }

  /** Where n stands after so many failed and good returns. */
  ghost predicate ReturnsShow(c: Config, s: State, n: Name, fails: nat, oks: nat) {
    && n in s.procs && n in c.maxRetries
    && match s.procs[n]
       case Idle => fails == 0 && oks == 0
       case Spawned => fails == 0 && oks == 0
       case Running(a) => fails == a && oks == 0
       case Delaying(a) => fails == a + 1 && oks == 0
       case Reporting(t, _) => fails == t && oks == 0
       case Triggering => fails == Attempts(c, n) && oks == 0
       case Exited =>
         || s.sig.cancelled
         || (oks == 1 && fails < Attempts(c, n))
         || (oks == 0 && fails == Attempts(c, n) && (n in c.allowed || s.sig.failure))
  }

  lemma OwnReturns(c: Config, s: State, n: Name, p: ProcEvent, fails: nat, oks: nat)
    requires InvError(c, s) && ReturnsShow(c, s, n, fails, oks) && Next(c, s, ProcStep(n, p)).Some?
    ensures ReturnsShow(c, Next(c, s, ProcStep(n, p)).value, n,
                        fails + (if p == RunReturns(false) then 1 else 0), oks + (if p == RunReturns(true) then 1 else 0))
  {
    assert ProcOk(c, n, s.procs[n]) && !s.main.Closed?;
  }

  /** Another event leaves n where it is, or launches it, and takes no signal back. */
  lemma OtherEvent(c: Config, s: State, e: Event, n: Name)
    requires InvMain(c, s) && InvLaunch(c, s) && n in s.procs && Next(c, s, e).Some? && !(e.ProcStep? && e.n == n)
    ensures var t := Next(c, s, e).value;
            && n in t.procs && (t.procs[n] == s.procs[n] || (s.procs[n].Idle? && t.procs[n].Spawned?))
            && (s.sig.cancelled ==> t.sig.cancelled) && (s.sig.failure ==> t.sig.failure)
  {
    if e.ProcStep? { ProcFrame(c, e.n, s.procs[e.n], s.sig, e.p); }
    if e == StartStep(Launch) { assert !Launched(s.procs, c.groups[s.main.i][s.main.k]); }
  }

  lemma ReturnsStep(c: Config, s: State, e: Event, n: Name, fails: nat, oks: nat)
    requires Inv(c, s) && ReturnsShow(c, s, n, fails, oks) && Next(c, s, e).Some?
    ensures ReturnsShow(c, Next(c, s, e).value, n, fails + (if e == ProcStep(n, RunReturns(false)) then 1 else 0),
                        oks + (if e == ProcStep(n, RunReturns(true)) then 1 else 0))
  {
    if e.ProcStep? && e.n == n { OwnReturns(c, s, n, e.p, fails, oks); } else { OtherEvent(c, s, e, n); }
  }

  lemma {:induction false} ReturnsRun(c: Config, s: State, es: seq<Event>, n: Name, fails: nat, oks: nat)
    requires Grounded(c) && Inv(c, s) && ReturnsShow(c, s, n, fails, oks) && Exec(c, s, es).Some?
    ensures ReturnsShow(c, Exec(c, s, es).value, n, fails + Returns(es, n, false), oks + Returns(es, n, true))
    decreases |es|
  {
    if es != [] {
      InvKept(c, s, es[0]);
      ReturnsStep(c, s, es[0], n, fails, oks);
      ReturnsRun(c, Next(c, s, es[0]).value, es[1..], n,
                 fails + (if es[0] == ProcStep(n, RunReturns(false)) then 1 else 0),
                 oks + (if es[0] == ProcStep(n, RunReturns(true)) then 1 else 0));
    }
  }

  lemma ReturnsHistory(c: Config, es: seq<Event>, s: State, n: Name)
    requires ValidConfig(c) && Exec(c, Init(c), es) == Some(s) && n in c.services
    ensures Inv(c, s) && ReturnsShow(c, s, n, Returns(es, n, false), Returns(es, n, true))
  {
    ConfigGrounded(c);
    InitInv(c);
    ExecInv(c, Init(c), es);
    ReturnsRun(c, Init(c), es, n, 0, 0);
  }

  /** A service that has exited without cancellation either returned well once, after
      at most MaxRetries failures, or failed exactly MaxRetries + 1 times; in the
      latter case, unless its failure is allowed, the failure signal is up and an
      error is queued or taken. */
  lemma ExitedExactly(c: Config, es: seq<Event>, s: State, n: Name)
    requires ValidConfig(c) && Exec(c, Init(c), es) == Some(s) && n in c.services
    requires HasExited(s.procs, n) && !s.sig.cancelled
    ensures n in c.maxRetries
    ensures var all := if c.maxRetries[n] < 0 then 0 else c.maxRetries[n] + 1;
            && Returns(es, n, false) <= all
            && (Returns(es, n, false) == all <==> Returns(es, n, true) == 0)
            && (Returns(es, n, false) < all <==> Returns(es, n, true) == 1)
            && (Returns(es, n, false) == all && n !in c.allowed ==> s.sig.failure && Reported(s.sig))
  {
    ReturnsHistory(c, es, s, n);
  }

  /** A failed attempt below the budget is followed by the next one: while a service
      has failed no more than MaxRetries times, never returned well and was not
      cancelled, it is not done, and when it runs it is on the next attempt. */
  lemma FailedThenRetried(c: Config, es: seq<Event>, s: State, n: Name)
    requires ValidConfig(c) && Exec(c, Init(c), es) == Some(s) && n in c.services && n in c.maxRetries
    requires !s.sig.cancelled && Returns(es, n, true) == 0 && Returns(es, n, false) <= c.maxRetries[n]
    ensures n in s.procs && !s.procs[n].Exited? && !s.procs[n].Reporting? && !s.procs[n].Triggering?
    ensures s.procs[n].Running? ==> s.procs[n].attempt == Returns(es, n, false)
    ensures s.procs[n].Delaying? ==>
              var t := Next(c, s, ProcStep(n, RetryNow));
              t.Some? && n in t.value.procs && t.value.procs[n] == Running(Returns(es, n, false))
  {
    ReturnsHistory(c, es, s, n);
    assert ProcOk(c, n, s.procs[n]);
  }

  // ---------- The first error ----------

  predicate Delivers(g: Signals, f: Fatal) { g.errCh == Some(f) || g.received == Some(f) }

  lemma DeliversStep(c: Config, s: State, e: Event, f: Fatal)
    requires Inv(c, s) && Delivers(s.sig, f) && Next(c, s, e).Some?
    ensures Delivers(Next(c, s, e).value.sig, f)
  {
    if e.ProcStep? { FirstSend(c, e.n, s.procs[e.n], s.sig, e.p); }
  }

  /** A full channel drops what comes later. */
  lemma FirstSend(c: Config, n: Name, q: Proc, g: Signals, p: ProcEvent)
    requires n in c.maxRetries && NextProc(c, n, q, g, p).Some?
    ensures NextProc(c, n, q, g, p).value.1.received == g.received
    ensures g.errCh.Some? ==> NextProc(c, n, q, g, p).value.1.errCh == g.errCh
  {
  }

  /** The first failure stops everything: whatever else fails later, along any run the
      error queued first stays queued until Run takes it, and is what Run returns. */
  lemma {:induction false} FirstErrorDelivered(c: Config, s: State, es: seq<Event>, f: Fatal)
    requires Grounded(c) && Inv(c, s) && Delivers(s.sig, f) && Exec(c, s, es).Some?
    ensures Delivers(Exec(c, s, es).value.sig, f)
    ensures var t := Exec(c, s, es).value;
            t.main.Closed? && t.main.result.Failed? && t.sig.errCh.None? ==> t.main.result.error == f
    decreases |es|
  {
    if es != [] {
      InvKept(c, s, es[0]);
      DeliversStep(c, s, es[0], f);
      FirstErrorDelivered(c, Next(c, s, es[0]).value, es[1..], f);
    }
  }

  // ---------- After cancellation ----------

  predicate Winding(q: Proc) { q.Running? || q.Delaying? || q.Exited? }

  lemma WindingStep(c: Config, s: State, e: Event, n: Name)
    requires Inv(c, s) && s.sig.cancelled && n in s.procs && Winding(s.procs[n]) && Next(c, s, e).Some?
    ensures var t := Next(c, s, e).value; t.sig.cancelled && n in t.procs && Winding(t.procs[n])
    ensures e.ProcStep? && e.n == n && e.p.RunReturns? ==> Next(c, s, e).value.procs[n].Exited?
  {
    if e.ProcStep? && e.n == n { ProcFrame(c, n, s.procs[n], s.sig, e.p); } else { OtherEvent(c, s, e, n); }
  }

  /** Whatever a cancelled service's Run returns, it is neither retried nor reported:
      along any run its goroutine goes on winding down. */
  lemma {:induction false} CancelledNotReported(c: Config, s: State, es: seq<Event>, n: Name)
    requires Grounded(c) && Inv(c, s) && s.sig.cancelled && n in s.procs && Winding(s.procs[n]) && Exec(c, s, es).Some?
    ensures n in Exec(c, s, es).value.procs && Winding(Exec(c, s, es).value.procs[n])
    ensures es != [] && es[0].ProcStep? && es[0].n == n && es[0].p.RunReturns? ==>
              Next(c, s, es[0]).Some? && n in Next(c, s, es[0]).value.procs && Next(c, s, es[0]).value.procs[n].Exited?
    decreases |es|
  {
    if es != [] {
      InvKept(c, s, es[0]);
      WindingStep(c, s, es[0], n);
      CancelledNotReported(c, Next(c, s, es[0]).value, es[1..], n);
    }
  }

  // ---------- Every group is started ----------

  predicate PastStartup(m: Main) { m.Selecting? || m.Returning? || m.Draining? || m.Closed? }

  ghost predicate StartedAll(c: Config, s: State) {
    PastStartup(s.main) ==> |s.startGroups| == |c.groups| || s.sig.failure
  }

  lemma StartedStep(c: Config, s: State, e: Event)
    requires Inv(c, s) && StartedAll(c, s) && Next(c, s, e).Some?
    ensures StartedAll(c, Next(c, s, e).value)
  {
    if e.ProcStep? { ProcFrame(c, e.n, s.procs[e.n], s.sig, e.p); }
  }

  lemma {:induction false} StartedRun(c: Config, s: State, es: seq<Event>)
    requires Grounded(c) && Inv(c, s) && StartedAll(c, s) && Exec(c, s, es).Some?
    ensures StartedAll(c, Exec(c, s, es).value)
    decreases |es|
  {
    if es != [] {
      InvKept(c, s, es[0]);
      StartedStep(c, s, es[0]);
      StartedRun(c, Next(c, s, es[0]).value, es[1..]);
    }
  }

  /** Startup leaves nothing out: once Run is past it, every service has been launched
      unless a failure was signalled. */
  lemma EveryServiceLaunched(c: Config, s: State, n: Name)
    requires ValidConfig(c) && Reachable(c, s) && PastStartup(s.main) && !s.sig.failure && n in c.services
    ensures Begun(s.procs, n)
  {
    var es :| Exec(c, Init(c), es) == Some(s);
    ConfigGrounded(c);
    InitInv(c);
    StartedRun(c, Init(c), es);
    ReachableInv(c, s);
    assert Grouped(c.groups, n);
    var a :| 0 <= a < |c.groups| && n in c.groups[a];
    var b :| 0 <= b < |c.groups[a]| && c.groups[a][b] == n;
  }

  // ---------- Stop is called first ----------

  predicate StopCalled(p: Stopping) { !p.phase.NotCalled? ==> p.called }

  lemma {:induction false} StopCalledRun(c: Config, s: State, es: seq<Event>)
    requires StopCalled(s.stopping) && Exec(c, s, es).Some?
    ensures StopCalled(Exec(c, s, es).value.stopping)
    decreases |es|
  {
    if es != [] {
      StopCalledStep(c, s, es[0]);
      StopCalledRun(c, Next(c, s, es[0]).value, es[1..]);
    }
  }

  lemma StopCalledStep(c: Config, s: State, e: Event)
    requires StopCalled(s.stopping) && Next(c, s, e).Some?
    ensures StopCalled(Next(c, s, e).value.stopping)
  {
  }

  /** No service is stopped unless somebody called Stop. */
  lemma StopNeedsCall(c: Config, s: State)
    requires Reachable(c, s) && !s.stopping.called
    ensures s.stopping.phase.NotCalled?
  {
    var es :| Exec(c, Init(c), es) == Some(s);
    StopCalledRun(c, Init(c), es);
  }

  // ---------- Where Run can block ----------

  /** The ready wait blocks at a service exactly when that service notifies, is neither
      ready nor gone, nothing has failed and nothing is cancelled; its ready signal
      ends the wait at once. */
  lemma WaitBlocksExactly(c: Config, s: State)
    requires ValidConfig(c) && Reachable(c, s) && s.main.Waiting?
    ensures s.main.i < |c.groups|
    ensures s.main.k >= |c.groups[s.main.i]| ==> Next(c, s, WaitStep(WaitDone)).Some?
    ensures s.main.k < |c.groups[s.main.i]| ==>
              var n := c.groups[s.main.i][s.main.k];
              && ((forall w :: Next(c, s, WaitStep(w)).None?) <==>
                    n in c.notifiers && n !in s.sig.ready && !HasExited(s.procs, n) && !s.sig.failure && !s.sig.cancelled)
              && Next(c, s, SignalReady(n)).Some?
              && (n in c.notifiers ==> Next(c, Next(c, s, SignalReady(n)).value, WaitStep(WaitReady)).Some?)
  {
    ReachableInv(c, s);
    if s.main.k < |c.groups[s.main.i]| { WaitChoices(c, s); }
  }

  lemma WaitChoices(c: Config, s: State)
    requires s.main.Waiting? && s.main.i < |c.groups| && s.main.k < |c.groups[s.main.i]|
    ensures var n := c.groups[s.main.i][s.main.k];
            (forall w :: Next(c, s, WaitStep(w)).None?) <==>
            n in c.notifiers && n !in s.sig.ready && !HasExited(s.procs, n) && !s.sig.failure && !s.sig.cancelled
  {
    var n := c.groups[s.main.i][s.main.k];
    if forall w :: Next(c, s, WaitStep(w)).None? {
      assert Next(c, s, WaitStep(WaitSkip)).None? && Next(c, s, WaitStep(WaitReady)).None?;
      assert Next(c, s, WaitStep(WaitExited)).None? && Next(c, s, WaitStep(WaitFailure)).None?;
      assert Next(c, s, WaitStep(WaitCancelled)).None?;
    }
  }

  /** Run's final select blocks exactly when nothing is cancelled and no error is
      queued; it returns the queued error, or nothing on cancellation. */
  lemma SelectExactly(c: Config, s: State)
    requires s.main.Selecting?
    ensures Next(c, s, EndStep(SelectDone)).Some? <==> s.sig.cancelled
    ensures Next(c, s, EndStep(SelectError)).Some? <==> s.sig.errCh.Some?
    ensures s.sig.errCh.Some? ==>
              && Next(c, s, EndStep(SelectError)).value.main == Returning(Failed(s.sig.errCh.value))
              && Next(c, s, EndStep(SelectError)).value.sig.errCh.None?
    ensures s.sig.cancelled ==> Next(c, s, EndStep(SelectDone)).value.main == Returning(Clean)
  {
  }

  // ---------- A used-up budget ----------

  lemma {:induction false} FailOnly(retries: int, s0: State, a: nat) returns (s: State)
    requires a <= retries && Reachable(Single(retries), s0) && s0.procs == map[ONLY := Running(a)]
    requires !s0.sig.cancelled && !s0.sig.panicked
    ensures Reachable(Single(retries), s) && s.procs == map[ONLY := Reporting(retries + 1, Some(retries))]
    ensures s == s0.(procs := s.procs)
    decreases retries - a
  {
    var c := Single(retries);
    var e := ProcStep(ONLY, RunReturns(false));
    ReachNext(c, s0, e);
    s := Next(c, s0, e).value;
    if a == retries {
      assert s.procs == map[ONLY := Reporting(retries + 1, Some(retries))];
    } else {
      ReachNext(c, s, ProcStep(ONLY, RetryNow));
      s := Next(c, s, ProcStep(ONLY, RetryNow)).value;
      assert s.procs == map[ONLY := Running(a + 1)];
      s := FailOnly(retries, s, a + 1);
    }
  }

  /** For every MaxRetries that is not negative: a complete run in which the service
      fails MaxRetries + 1 times and Run returns the error of the last attempt. */
  lemma UsedBudgetReported(retries: int) returns (s: State)
    requires retries >= 0
    ensures ValidConfig(Single(retries)) && Reachable(Single(retries), s) && s.main.Closed?
    ensures s.main.result == Failed(Fatal(ONLY, retries + 1, Some(retries))) && s.sig.failure
  {
    SingleValid(retries);
    s := StartOnly(retries);
    s := LaunchOnly(retries, s);
    s := GroupDone(retries, s, Running(0));
    s := FailOnly(retries, s, 0);
    s := ReportOnly(retries, s, retries + 1, Some(retries));
    s := StopOnly(retries, s);
    s := CloseOnly(retries, s);
  }
}
