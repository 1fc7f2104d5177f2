/** The service manager's start, fail and stop protocol, as a machine whose
    steps are the visible actions of its goroutines in any interleaving. */
module Supervisor {
  import opened Collections
  import opened Wrappers
  import opened ServiceOrder

  datatype Config = Config(
    services: Services,
    groups: Groups,
    notifiers: set<Name>,      // implement ReadyNotifier
    allowed: set<Name>,        // IsAllowedFailure()
    maxRetries: map<Name, int> // 0 unless Retryable
  )

  /** The groups come from the sort; every service has a retry budget. */
  ghost predicate ValidConfig(c: Config) {
    IsLayering(c.services, c.groups) && c.maxRetries.Keys == c.services.Keys
  }

  /** One service goroutine. */
  datatype Proc =
    | Idle
    | Spawned                  // go statement executed, nothing run yet
    | Running(attempt: nat)    // inside service.Run
    | Delaying(attempt: nat)   // waiting for the retry delay
    | Reporting(attempts: nat, lastErr: Option<nat>) // about to enter handleServiceError
    | Triggering               // error offered to errCh, signal not yet closed
    | Exited                   // exitedCh closed and wg.Done called

  /** What a service reports: the attempts it made and its last error, named by
      the attempt that returned it; none is Go's nil. */
  datatype Fatal = Fatal(service: Name, attempts: nat, lastErr: Option<nat>)

  datatype RunResult = Clean | Failed(error: Fatal)

  /** The goroutine that executes ServiceManager.Run. */
  datatype Main =
    | Fresh                                  // cancel function not stored yet
    | Ordered                                // cancel stored and order resolved, start lock not yet taken
    | Check(i: nat)                          // before group i, about to test the failure signal
    | Launching(i: nat, k: nat)              // starting service k of group i
    | Collecting(i: nat, got: set<Name>)     // receiving launch tokens
    | Waiting(i: nat, k: nat)                // waitGroupReady at service k
    | Appending(i: nat)
    | Selecting                              // select on ctx.Done and errCh
    | Returning(result: RunResult)           // deferred Stop
    | Draining(result: RunResult)            // deferred wg.Wait
    | Closed(result: RunResult)              // errCh closed

  /** The channels and flags the goroutines share. */
  datatype Signals = Signals(
    tokens: set<Name>,          // launch tokens sent and not yet received
    ready: set<Name>,           // closed Ready channels
    errCh: Option<Fatal>,       // buffered channel of capacity 1
    received: Option<Fatal>,    // what Run took from errCh
    errClosed: bool,
    panicked: bool,             // a send on the closed errCh
    failure: bool,              // failureSignal closed
    cancelled: bool
  )

  /** The once-only body of Stop: groups below i are still to be stopped. */
  datatype StopPhase = NotCalled | Body(i: nat, begun: set<nat>, done: set<nat>) | Finished

  datatype Stopping = Stopping(
    called: bool,               // some Stop call is past its cancel section
    phase: StopPhase,
    early: bool,                // the body began before startup did
    log: seq<Name>,             // service.Stop calls, in order of their start
    ended: set<Name>            // service.Stop returned or timed out
  )

  datatype State = State(main: Main, procs: map<Name, Proc>, sig: Signals, startGroups: Groups, stopping: Stopping)

  function Init(c: Config): State {
    State(Fresh, map n | n in c.services :: Idle, Signals({}, {}, None, None, false, false, false, false), [],
          Stopping(false, NotCalled, false, [], {}))
  }

  datatype ProcEvent = SendToken | RunReturns(ok: bool) | RetryNow | RetryCancelled | Report | Trigger

  datatype StartEvent = StoreCancel | TakeLock | TestFailure | Launch | EndLaunch | ReceiveToken(n: Name) | AllLaunched | AppendGroup

  datatype WaitEvent = WaitSkip | WaitReady | WaitExited | WaitFailure | WaitCancelled | WaitDone

  datatype EndEvent = SelectDone | SelectError | StopReturned | CloseErrCh

  datatype StopEvent = BeginBody | StopService(k: nat) | StopServiceEnds(k: nat) | NextGroup | EndBody

  datatype Event =
    | ProcStep(n: Name, p: ProcEvent)
    | StartStep(b: StartEvent)
    | WaitStep(w: WaitEvent)
    | EndStep(d: EndEvent)
    | StopStep(t: StopEvent)
    | StopCall
    | SignalReady(r: Name)
    | Cancel

  // ---------- Service goroutines: runService and handleServiceError ----------

  /** Iterations of the retry loop: none at all when MaxRetries is negative. */
  function Attempts(c: Config, n: Name): nat
    requires n in c.maxRetries
  {
    if c.maxRetries[n] < 0 then 0 else c.maxRetries[n] + 1
  }

  function NextProc(c: Config, n: Name, q: Proc, g: Signals, p: ProcEvent): Option<(Proc, Signals)>
    requires n in c.maxRetries
  {
    match p
    case SendToken =>
      if q.Spawned? then
        Some((if Attempts(c, n) == 0 then Reporting(0, None) else Running(0), g.(tokens := g.tokens + {n})))
      else None
    case RunReturns(ok) =>
      if q.Running? then
        Some((if ok || g.cancelled then Exited
              else if q.attempt >= c.maxRetries[n] then Reporting(q.attempt + 1, Some(q.attempt))
              else Delaying(q.attempt), g))
      else None
    case RetryNow => if q.Delaying? then Some((Running(q.attempt + 1), g)) else None
    case RetryCancelled => if q.Delaying? && g.cancelled then Some((Exited, g)) else None
    case Report =>
      if !q.Reporting? then None
      else if n in c.allowed then Some((Exited, g))
      else if g.errClosed then Some((q, g.(panicked := true)))
      else // select: send when the buffer has room, otherwise drop
        Some((Triggering, g.(errCh := if g.errCh.None? then Some(Fatal(n, q.attempts, q.lastErr)) else g.errCh)))
    case Trigger => if q.Triggering? then Some((Exited, g.(failure := true))) else None
  }

  // ---------- Run, runServiceGroups and waitGroupReady ----------

  function NextStart(c: Config, s: State, b: StartEvent): Option<State> {
    match b
    case StoreCancel => if s.main.Fresh? then Some(s.(main := Ordered)) else None
    case TakeLock => if s.main.Ordered? && !s.stopping.phase.Body? then Some(s.(main := Check(0))) else None
    case TestFailure =>
      if s.main.Check? then
        Some(s.(main := if s.main.i >= |c.groups| || s.sig.failure then Selecting else Launching(s.main.i, 0)))
      else None
    case Launch =>
      if s.main.Launching? && s.main.i < |c.groups| && s.main.k < |c.groups[s.main.i]| then
        Some(s.(main := Launching(s.main.i, s.main.k + 1), procs := s.procs[c.groups[s.main.i][s.main.k] := Spawned]))
      else None
    case EndLaunch =>
      if s.main.Launching? && s.main.i < |c.groups| && s.main.k >= |c.groups[s.main.i]| then
        Some(s.(main := Collecting(s.main.i, {})))
      else None
    case ReceiveToken(n) =>
      if s.main.Collecting? && n in s.sig.tokens && s.main.i < |c.groups| && |s.main.got| < |c.groups[s.main.i]| then
        Some(s.(main := Collecting(s.main.i, s.main.got + {n}), sig := s.sig.(tokens := s.sig.tokens - {n})))
      else None
    case AllLaunched =>
      if s.main.Collecting? && s.main.i < |c.groups| && |s.main.got| == |c.groups[s.main.i]| then
        Some(s.(main := Waiting(s.main.i, 0)))
      else None
    case AppendGroup =>
      if s.main.Appending? && s.main.i < |c.groups| then
        Some(s.(main := Check(s.main.i + 1), startGroups := s.startGroups + [c.groups[s.main.i]]))
      else None
  }

  predicate HasExited(procs: map<Name, Proc>, n: Name) { n in procs && procs[n].Exited? }

  /** One turn of the ready wait, at service k of group i. */
  function NextWait(c: Config, m: Main, procs: map<Name, Proc>, g: Signals, w: WaitEvent): (r: Option<Main>)
    ensures r.Some? ==> m.Waiting? && (r.value == Appending(m.i) || r.value == Waiting(m.i, m.k + 1))
  {
    if !m.Waiting? || m.i >= |c.groups| then None
    else if m.k >= |c.groups[m.i]| then (if w.WaitDone? then Some(Appending(m.i)) else None)
    else
      var n := c.groups[m.i][m.k];
      match w
      case WaitSkip => if n !in c.notifiers then Some(Waiting(m.i, m.k + 1)) else None
      case WaitReady => if n in c.notifiers && n in g.ready then Some(Waiting(m.i, m.k + 1)) else None
      case WaitExited => if n in c.notifiers && HasExited(procs, n) then Some(Waiting(m.i, m.k + 1)) else None
      case WaitFailure => if n in c.notifiers && g.failure then Some(Appending(m.i)) else None
      case WaitCancelled => if n in c.notifiers && g.cancelled then Some(Appending(m.i)) else None
      case WaitDone => None
  }

  predicate AllExited(procs: map<Name, Proc>) {
    forall n | n in procs :: procs[n].Idle? || procs[n].Exited?
  }

  /** Run's final select and its deferred calls: Stop, wg.Wait, close(errCh). */
  function NextEnd(m: Main, procs: map<Name, Proc>, g: Signals, phase: StopPhase, d: EndEvent)
    : (r: Option<(Main, Signals)>)
    ensures r.Some? ==> (m.Selecting? || m.Returning? || m.Draining?)
                        && (r.value.0.Returning? || r.value.0.Draining? || r.value.0.Closed?)
  {
    match d
    case SelectDone => if m.Selecting? && g.cancelled then Some((Returning(Clean), g)) else None
    case SelectError =>
      if m.Selecting? && g.errCh.Some? then
        Some((Returning(Failed(g.errCh.value)), g.(received := g.errCh, errCh := None)))
      else None
    case StopReturned => if m.Returning? && g.cancelled && phase.Finished? then Some((Draining(m.result), g)) else None
    case CloseErrCh =>
      if m.Draining? && AllExited(procs) then Some((Closed(m.result), g.(errClosed := true))) else None
  }

  /** Whether Run holds the start-groups lock. */
  predicate InStartup(m: Main) {
    m.Check? || m.Launching? || m.Collecting? || m.Waiting? || m.Appending?
  }

  // ---------- Stop and stopGroup ----------

  /** Startup has not taken its lock. */
  predicate NotStarted(m: Main) { m.Fresh? || m.Ordered? }

  function NextStop(m: Main, started: Groups, p: Stopping, t: StopEvent): Option<Stopping> {
    match t
    case BeginBody =>
      if p.phase.NotCalled? && p.called && !InStartup(m) then
        Some(p.(phase := Body(|started|, {}, {}), early := NotStarted(m)))
      else None
    case StopService(k) =>
      if p.phase.Body? && 0 < p.phase.i <= |started| && k < |started[p.phase.i - 1]| && k !in p.phase.begun then
        Some(p.(phase := p.phase.(begun := p.phase.begun + {k}), log := p.log + [started[p.phase.i - 1][k]]))
      else None
    case StopServiceEnds(k) =>
      if p.phase.Body? && 0 < p.phase.i <= |started| && k < |started[p.phase.i - 1]|
         && k in p.phase.begun && k !in p.phase.done then
        Some(p.(phase := p.phase.(done := p.phase.done + {k}), ended := p.ended + {started[p.phase.i - 1][k]}))
      else None
    case NextGroup =>
      if p.phase.Body? && 0 < p.phase.i <= |started|
         && (forall k | 0 <= k < |started[p.phase.i - 1]| :: k in p.phase.done) then
        Some(p.(phase := Body(p.phase.i - 1, {}, {})))
      else None
    case EndBody => if p.phase.Body? && p.phase.i == 0 then Some(p.(phase := Finished)) else None
  }

  function Next(c: Config, s: State, e: Event): Option<State> {
    match e
    case ProcStep(n, p) =>
      if n in s.procs && n in c.maxRetries && !s.sig.panicked then
        match NextProc(c, n, s.procs[n], s.sig, p)
        case None => None
        case Some((q, g)) => Some(s.(procs := s.procs[n := q], sig := g))
      else None
    case StartStep(b) => NextStart(c, s, b)
    case WaitStep(w) =>
      (match NextWait(c, s.main, s.procs, s.sig, w)
       case None => None
       case Some(m) => Some(s.(main := m)))
    case EndStep(d) =>
      (match NextEnd(s.main, s.procs, s.sig, s.stopping.phase, d)
       case None => None
       case Some((m, g)) => Some(s.(main := m, sig := g)))
    case StopStep(t) =>
      (match NextStop(s.main, s.startGroups, s.stopping, t)
       case None => None
       case Some(p) => Some(s.(stopping := p)))
    case StopCall => // cancels, if Run has stored its cancel function
      Some(s.(stopping := s.stopping.(called := true),
              sig := s.sig.(cancelled := s.sig.cancelled || !s.main.Fresh?)))
    case SignalReady(r) => Some(s.(sig := s.sig.(ready := s.sig.ready + {r})))
    case Cancel => Some(s.(sig := s.sig.(cancelled := true)))
  }

  /** The state after a schedule of events, when every event is enabled. */
  function Exec(c: Config, s: State, es: seq<Event>): Option<State>
    decreases |es|
  {
    if es == [] then Some(s)
    else match Next(c, s, es[0])
      case None => None
      case Some(t) => Exec(c, t, es[1..])
  }

  ghost predicate Reachable(c: Config, s: State) {
    exists es :: Exec(c, Init(c), es) == Some(s)
  }

  // ---------- Where startup stands ----------

  /** No service occupies two places in the groups. */
  ghost predicate NoRepeat(groups: Groups) {
    && (forall a | 0 <= a < |groups| :: Distinct(groups[a]))
    && (forall a, a', n | 0 <= a < |groups| && 0 <= a' < |groups| && n in groups[a] && n in groups[a'] :: a == a')
  }

  lemma LayeringNoRepeat(services: Services, groups: Groups)
    requires IsLayering(services, groups)
    ensures NoRepeat(groups)
  {
    forall a, a', n | 0 <= a < |groups| && 0 <= a' < |groups| && n in groups[a] && n in groups[a'] ensures a == a' {
      LayeringUnique(services, groups, groups, n, a, a');
    }
  }

  /** Groups whose goroutines have all been started. */
  function Started(m: Main, appended: nat): nat {
    match m
    case Fresh => 0
    case Ordered => 0
    case Check(i) => i
    case Launching(i, _) => i
    case Collecting(i, _) => i + 1
    case Waiting(i, _) => i + 1
    case Appending(i) => i + 1
    case _ => appended
  }

  /** Services of the next group already started. */
  function StartedInNext(m: Main): nat {
    if m.Launching? then m.k else 0
  }

  predicate Launched(procs: map<Name, Proc>, n: Name) { n in procs && !procs[n].Idle? }

  /** Running its own code, past the launch token. */
  predicate Begun(procs: map<Name, Proc>, n: Name) { Launched(procs, n) && !procs[n].Spawned? }

  /** main's indices are in range and startGroups is the prefix it has passed. */
  ghost predicate InvMain(c: Config, s: State) {
    && |s.startGroups| <= |c.groups|
    && s.startGroups == c.groups[..|s.startGroups|]
    && (InStartup(s.main) ==> |s.startGroups| == s.main.i <= |c.groups|)
    && (InStartup(s.main) && !s.main.Check? ==> s.main.i < |c.groups|)
    && (s.main.Launching? ==> s.main.k <= |c.groups[s.main.i]|)
    && (NotStarted(s.main) ==> s.startGroups == [])
  }

  /** Exactly the services before the frontier have been launched. */
  ghost predicate InvLaunch(c: Config, s: State) {
    && s.procs.Keys == c.services.Keys
    && forall a, b {:trigger c.groups[a][b]} | 0 <= a < |c.groups| && 0 <= b < |c.groups[a]| ::
         Launched(s.procs, c.groups[a][b]) <==>
         a < Started(s.main, |s.startGroups|) || (a == Started(s.main, |s.startGroups|) && b < StartedInNext(s.main))
  }

  lemma MainKept(c: Config, s: State, e: Event)
    requires InvMain(c, s) && Next(c, s, e).Some?
    ensures InvMain(c, Next(c, s, e).value)
  {
    if e.StartStep? { MainKeptByStart(c, s, e.b); }
  }

  lemma MainKeptByStart(c: Config, s: State, b: StartEvent)
    requires InvMain(c, s) && NextStart(c, s, b).Some?
    ensures InvMain(c, NextStart(c, s, b).value)
  {
  }

  /** A service goroutine's own step neither launches nor forgets it. */
  lemma ProcFrame(c: Config, n: Name, q: Proc, g: Signals, p: ProcEvent)
    requires n in c.maxRetries && NextProc(c, n, q, g, p).Some?
    ensures var (q', g') := NextProc(c, n, q, g, p).value;
            && !q.Idle? && !q.Exited? && !q'.Idle? && !q'.Spawned?
            && (p.SendToken? <==> q.Spawned?)
            && g'.tokens == (if p.SendToken? then g.tokens + {n} else g.tokens)
            && g'.ready == g.ready && g'.cancelled == g.cancelled && (g.failure ==> g'.failure)
  {
  }

  lemma PlaceUnique(groups: Groups, a: nat, b: nat, a': nat, b': nat)
    requires NoRepeat(groups) && a < |groups| && b < |groups[a]| && a' < |groups| && b' < |groups[a']|
    requires groups[a][b] == groups[a'][b']
    ensures a == a' && b == b'
  {
    assert groups[a][b] in groups[a] && groups[a'][b'] in groups[a'];
  }

  /** Every grouped name is a service with a goroutine entry. */
  ghost predicate Grounded(c: Config) {
    && NoRepeat(c.groups)
    && c.maxRetries.Keys == c.services.Keys
    && (forall a, b | 0 <= a < |c.groups| && 0 <= b < |c.groups[a]| :: c.groups[a][b] in c.services)
    && (forall n {:trigger Grouped(c.groups, n)} | n in c.services :: Grouped(c.groups, n))
  }

  lemma LaunchKept(c: Config, s: State, e: Event)
    requires InvMain(c, s) && InvLaunch(c, s) && Grounded(c) && Next(c, s, e).Some?
    ensures InvLaunch(c, Next(c, s, e).value)
  {
    match e
    case ProcStep(n, p) => ProcFrame(c, n, s.procs[n], s.sig, p);
    case StartStep(b) => LaunchKeptByStart(c, s, b);
    case _ =>
  }

  lemma LaunchKeptByStart(c: Config, s: State, e: StartEvent)
    requires InvMain(c, s) && InvLaunch(c, s) && Grounded(c) && NextStart(c, s, e).Some?
    ensures InvLaunch(c, NextStart(c, s, e).value)
  {
    if e.Launch? {
      var i, k := s.main.i, s.main.k;
      forall a, b | 0 <= a < |c.groups| && 0 <= b < |c.groups[a]| && c.groups[a][b] == c.groups[i][k]
        ensures a == i && b == k
      {
        PlaceUnique(c.groups, a, b, i, k);
      }
    }
  }

  // ---------- Launch tokens ----------

  /** Groups all of whose goroutines are past their launch token. */
  function BegunGroups(m: Main, appended: nat): nat {
    if m.Collecting? then m.i else Started(m, appended)
  }

  function Got(m: Main): set<Name> {
    if m.Collecting? then m.got else {}
  }

  /** While group i is being launched: tokens sent or received are exactly
      those of its begun services. */
  ghost predicate TokensOf(c: Config, s: State, i: nat)
    requires i < |c.groups|
  {
    && s.sig.tokens !! Got(s.main)
    && (forall n | n in s.sig.tokens + Got(s.main) :: n in c.groups[i])
    && (forall n | n in c.groups[i] :: Begun(s.procs, n) <==> n in s.sig.tokens + Got(s.main))
  }

  ghost predicate InvBegun(c: Config, s: State) {
    && (forall a, b {:trigger c.groups[a][b]} |
          0 <= a < |c.groups| && 0 <= b < |c.groups[a]| && a < BegunGroups(s.main, |s.startGroups|) ::
          Begun(s.procs, c.groups[a][b]))
    && (if s.main.Launching? || s.main.Collecting? then s.main.i < |c.groups| && TokensOf(c, s, s.main.i)
        else s.sig.tokens == {})
  }

  /** A goroutine that has not sent its token belongs to the current group. */
  lemma SpawnedIsCurrent(c: Config, s: State, n: Name)
    requires InvMain(c, s) && InvLaunch(c, s) && InvBegun(c, s) && Grounded(c)
    requires n in s.procs && s.procs[n].Spawned?
    ensures (s.main.Launching? || s.main.Collecting?) && n in c.groups[s.main.i]
  {
    assert Grouped(c.groups, n);
    var a :| 0 <= a < |c.groups| && n in c.groups[a];
    var b :| 0 <= b < |c.groups[a]| && c.groups[a][b] == n;
  }

  lemma AllReceived(c: Config, s: State, i: nat)
    requires NoRepeat(c.groups) && i < |c.groups| && TokensOf(c, s, i) && |Got(s.main)| == |c.groups[i]|
    ensures s.sig.tokens == {}
    ensures forall n | n in c.groups[i] :: Begun(s.procs, n)
  {
    var all := set n | n in c.groups[i];
    DistinctSize(c.groups[i], all);
    SubsetSize(Got(s.main), all);
  }

  lemma BegunKeptByProc(c: Config, s: State, n: Name, p: ProcEvent)
    requires InvMain(c, s) && InvLaunch(c, s) && InvBegun(c, s) && Grounded(c) && Next(c, s, ProcStep(n, p)).Some?
    ensures InvBegun(c, Next(c, s, ProcStep(n, p)).value)
  {
    ProcFrame(c, n, s.procs[n], s.sig, p);
    if p.SendToken? { SpawnedIsCurrent(c, s, n); }
  }

  lemma BegunKeptByStart(c: Config, s: State, e: StartEvent)
    requires InvMain(c, s) && InvLaunch(c, s) && InvBegun(c, s) && Grounded(c) && NextStart(c, s, e).Some?
    ensures InvBegun(c, NextStart(c, s, e).value)
  {
    match e
    case Launch => BegunKeptByLaunch(c, s);
    case AllLaunched => BegunKeptByAll(c, s);
    case TestFailure => BegunKeptByTest(c, s);
    case ReceiveToken(n) => BegunKeptByReceive(c, s, n);
    case _ => BegunKeptElse(c, s, e);
  }

  lemma BegunKeptByAll(c: Config, s: State)
    requires InvMain(c, s) && InvBegun(c, s) && Grounded(c) && NextStart(c, s, AllLaunched).Some?
    ensures InvBegun(c, NextStart(c, s, AllLaunched).value)
  {
    AllReceived(c, s, s.main.i);
  }

  lemma BegunKeptByTest(c: Config, s: State)
    requires InvMain(c, s) && InvLaunch(c, s) && InvBegun(c, s) && NextStart(c, s, TestFailure).Some?
    ensures InvBegun(c, NextStart(c, s, TestFailure).value)
  {
    if s.main.i < |c.groups| { NoneBegunYet(c, s); }
  }

  lemma BegunKeptElse(c: Config, s: State, e: StartEvent)
    requires InvMain(c, s) && InvBegun(c, s) && NextStart(c, s, e).Some?
    requires e.StoreCancel? || e.TakeLock? || e.EndLaunch? || e.AppendGroup?
    ensures InvBegun(c, NextStart(c, s, e).value)
  {
  }

  lemma BegunKeptByReceive(c: Config, s: State, n: Name)
    requires InvBegun(c, s) && NextStart(c, s, ReceiveToken(n)).Some?
    ensures InvBegun(c, NextStart(c, s, ReceiveToken(n)).value)
  {
    var t := NextStart(c, s, ReceiveToken(n)).value;
    assert t.sig.tokens + Got(t.main) == s.sig.tokens + Got(s.main);
  }

  lemma NoneBegunYet(c: Config, s: State)
    requires InvMain(c, s) && InvLaunch(c, s) && s.main.Check? && s.main.i < |c.groups|
    ensures forall n | n in c.groups[s.main.i] :: !Begun(s.procs, n)
  {
    forall n | n in c.groups[s.main.i] ensures !Begun(s.procs, n) {
      var b :| 0 <= b < |c.groups[s.main.i]| && c.groups[s.main.i][b] == n;
    }
  }

  lemma BegunKeptByLaunch(c: Config, s: State)
    requires InvMain(c, s) && InvLaunch(c, s) && InvBegun(c, s) && Grounded(c) && NextStart(c, s, Launch).Some?
    ensures InvBegun(c, NextStart(c, s, Launch).value)
  {
    var i, k := s.main.i, s.main.k;
    assert !Launched(s.procs, c.groups[i][k]);
  }

  lemma BegunKept(c: Config, s: State, e: Event)
    requires InvMain(c, s) && InvLaunch(c, s) && InvBegun(c, s) && Grounded(c) && Next(c, s, e).Some?
    ensures InvBegun(c, Next(c, s, e).value)
  {
    match e
    case ProcStep(n, p) => BegunKeptByProc(c, s, n, p);
    case StartStep(b) => BegunKeptByStart(c, s, b);
    case _ =>
  }

  // ---------- The ready gate ----------

  /** A notifier that is ready, or gone for good. */
  predicate Settled(c: Config, procs: map<Name, Proc>, g: Signals, n: Name) {
    n in c.notifiers ==> n in g.ready || HasExited(procs, n)
  }

  ghost predicate GateTo(c: Config, procs: map<Name, Proc>, g: Signals, i: nat, k: nat) {
    forall a, b {:trigger c.groups[a][b]} |
      0 <= a < |c.groups| && 0 <= b < |c.groups[a]| && (a < i || (a == i && b < k)) ::
      Settled(c, procs, g, c.groups[a][b])
  }

  ghost predicate InvGate(c: Config, s: State) {
    match s.main
    case Check(i) => s.sig.cancelled || s.sig.failure || GateTo(c, s.procs, s.sig, i, 0)
    case Launching(i, _) => s.sig.cancelled || GateTo(c, s.procs, s.sig, i, 0)
    case Collecting(i, _) => s.sig.cancelled || GateTo(c, s.procs, s.sig, i, 0)
    case Waiting(i, k) => s.sig.cancelled || GateTo(c, s.procs, s.sig, i, k)
    case Appending(i) => s.sig.cancelled || s.sig.failure || GateTo(c, s.procs, s.sig, i + 1, 0)
    case _ => true
  }

  lemma GateKeptByProc(c: Config, s: State, n: Name, p: ProcEvent)
    requires InvGate(c, s) && Next(c, s, ProcStep(n, p)).Some?
    ensures InvGate(c, Next(c, s, ProcStep(n, p)).value)
  {
    ProcFrame(c, n, s.procs[n], s.sig, p);
    var t := Next(c, s, ProcStep(n, p)).value;
    assert forall m :: Settled(c, s.procs, s.sig, m) ==> Settled(c, t.procs, t.sig, m);
  }

  lemma GateKeptByStart(c: Config, s: State, e: StartEvent)
    requires InvMain(c, s) && InvLaunch(c, s) && InvGate(c, s) && NextStart(c, s, e).Some?
    ensures InvGate(c, NextStart(c, s, e).value)
  {
    var t := NextStart(c, s, e).value;
    if e.Launch? {
      assert !Launched(s.procs, c.groups[s.main.i][s.main.k]);
      assert forall m :: Settled(c, s.procs, s.sig, m) ==> Settled(c, t.procs, t.sig, m);
    }
  }

  lemma GateKept(c: Config, s: State, e: Event)
    requires InvMain(c, s) && InvLaunch(c, s) && InvGate(c, s) && Next(c, s, e).Some?
    ensures InvGate(c, Next(c, s, e).value)
  {
    match e
    case ProcStep(n, p) => GateKeptByProc(c, s, n, p);
    case StartStep(b) => GateKeptByStart(c, s, b);
    case WaitStep(w) =>
    case _ =>
  }

  // ---------- Error reporting ----------

  predicate Reported(g: Signals) { g.errCh.Some? || g.received.Some? }

  /** The error of the last of so many attempts. */
  function LastErr(attempts: nat): Option<nat> { if attempts == 0 then None else Some(attempts - 1) }

  /** The error of a non-allowed service that used up its attempts. */
  predicate Terminal(c: Config, f: Fatal) {
    f.service in c.maxRetries && f.service !in c.allowed && f.attempts == Attempts(c, f.service)
    && f.lastErr == LastErr(f.attempts)
  }

  /** Attempt counters stay inside the retry budget. */
  predicate ProcOk(c: Config, n: Name, q: Proc)
    requires n in c.maxRetries
  {
    match q
    case Running(a) => a < Attempts(c, n)
    case Delaying(a) => a + 1 < Attempts(c, n)
    case Reporting(t, err) => t == Attempts(c, n) && err == LastErr(t)
    case _ => true
  }

  ghost predicate InvProcs(c: Config, procs: map<Name, Proc>, g: Signals) {
    && procs.Keys == c.maxRetries.Keys
    && (forall n | n in procs :: ProcOk(c, n, procs[n]))
    && (forall n | n in procs && procs[n].Triggering? :: Reported(g))
  }

  ghost predicate InvSignals(c: Config, m: Main, procs: map<Name, Proc>, g: Signals) {
    && !g.panicked
    && (g.failure ==> Reported(g))
    && (g.errCh.Some? ==> Terminal(c, g.errCh.value))
    && (g.received.Some? ==> Terminal(c, g.received.value))
    && (g.errClosed <==> m.Closed?)
    && (m.Closed? ==> AllExited(procs))
    && (g.received.Some? ==> (m.Returning? || m.Draining? || m.Closed?))
    && ((m.Returning? || m.Draining? || m.Closed?) ==>
          g.received == (if m.result.Failed? then Some(m.result.error) else None))
  }

  ghost predicate InvError(c: Config, s: State) {
    InvProcs(c, s.procs, s.sig) && InvSignals(c, s.main, s.procs, s.sig)
  }

  lemma ErrorKeptByProc(c: Config, s: State, n: Name, p: ProcEvent)
    requires InvError(c, s) && Next(c, s, ProcStep(n, p)).Some?
    ensures InvError(c, Next(c, s, ProcStep(n, p)).value)
  {
    ProcFrame(c, n, s.procs[n], s.sig, p);
    ProcSignals(c, n, s.procs[n], s.sig, p);
    assert !s.main.Closed?;
  }

  /** One goroutine's step keeps its own counters and the error channel. */
  lemma ProcSignals(c: Config, n: Name, q: Proc, g: Signals, p: ProcEvent)
    requires n in c.maxRetries && ProcOk(c, n, q) && NextProc(c, n, q, g, p).Some?
    requires q.Triggering? ==> Reported(g)
    requires !g.panicked && !g.errClosed && (g.failure ==> Reported(g))
    requires g.errCh.Some? ==> Terminal(c, g.errCh.value)
    ensures var (q', g') := NextProc(c, n, q, g, p).value;
            && ProcOk(c, n, q') && (q'.Triggering? ==> Reported(g')) && (Reported(g) ==> Reported(g'))
            && !g'.panicked && !g'.errClosed && (g'.failure ==> Reported(g'))
            && (g'.errCh.Some? ==> Terminal(c, g'.errCh.value)) && g'.received == g.received
  {
  }

  lemma ErrorKeptByStart(c: Config, s: State, e: StartEvent)
    requires InvError(c, s) && Grounded(c) && NextStart(c, s, e).Some?
    ensures InvError(c, NextStart(c, s, e).value)
  {
  }

  lemma ErrorKept(c: Config, s: State, e: Event)
    requires InvError(c, s) && Grounded(c) && Next(c, s, e).Some?
    ensures InvError(c, Next(c, s, e).value)
  {
    match e
    case ProcStep(n, p) => ErrorKeptByProc(c, s, n, p);
    case StartStep(b) => ErrorKeptByStart(c, s, b);
    case _ =>
  }

  // ---------- Stopping ----------

  function StopIndex(p: StopPhase): nat { if p.Body? then p.i else 0 }

  function StopBegun(p: StopPhase): set<nat> { if p.Body? then p.begun else {} }

  function StopDone(p: StopPhase): set<nat> { if p.Body? then p.done else {} }

  /** Whether the Stop body has reached place (a, b) of the start groups. */
  predicate Reached(p: StopPhase, marks: set<nat>, a: nat, b: nat) {
    a >= StopIndex(p) || (a + 1 == StopIndex(p) && b in marks)
  }

  /** The log holds exactly the places reached, each once; the ended calls
      cover every place marked done. */
  ghost predicate LogShows(groups: Groups, p: Stopping) {
    && StopIndex(p.phase) <= |groups|
    && StopDone(p.phase) <= StopBegun(p.phase)
    && Distinct(p.log)
    && (forall n | n in p.log :: Grouped(groups, n))
    && (forall a, b {:trigger groups[a][b]} | 0 <= a < |groups| && 0 <= b < |groups[a]| ::
          (groups[a][b] in p.log <==> Reached(p.phase, StopBegun(p.phase), a, b))
          && (Reached(p.phase, StopDone(p.phase), a, b) ==> groups[a][b] in p.ended))
  }

  ghost predicate InvStop(s: State) {
    var p := s.stopping;
    if p.phase.NotCalled? then !p.early && p.log == [] && p.ended == {}
    else if p.early then p.log == [] && StopIndex(p.phase) == 0
    else !InStartup(s.main) && !NotStarted(s.main) && LogShows(s.startGroups, p)
  }

  ghost predicate InvStopTime(s: State) {
    && (s.stopping.phase.NotCalled? ==> !s.main.Draining? && !s.main.Closed?)
    && (s.main.Draining? || s.main.Closed? ==> s.stopping.phase.Finished?)
    && (s.stopping.early && s.stopping.phase.Body? ==> NotStarted(s.main))
  }

  lemma StopKeptByStop(c: Config, s: State, t: StopEvent)
    requires InvMain(c, s) && InvStop(s) && Grounded(c) && Next(c, s, StopStep(t)).Some?
    ensures InvStop(Next(c, s, StopStep(t)).value)
  {
    if s.stopping.phase.Body? && !s.stopping.early {
      PrefixNoRepeat(c.groups, |s.startGroups|);
      match t
      case StopService(k) => LogGrows(s.startGroups, s.stopping, k);
      case _ =>
    }
  }

  lemma PrefixNoRepeat(groups: Groups, k: nat)
    requires NoRepeat(groups) && k <= |groups|
    ensures NoRepeat(groups[..k])
  {
  }

  lemma LogGrows(groups: Groups, p: Stopping, k: nat)
    requires NoRepeat(groups) && LogShows(groups, p) && p.phase.Body? && 0 < p.phase.i
    requires k < |groups[p.phase.i - 1]| && k !in p.phase.begun
    ensures LogShows(groups, p.(phase := p.phase.(begun := p.phase.begun + {k}),
                                log := p.log + [groups[p.phase.i - 1][k]]))
    ensures groups[p.phase.i - 1][k] !in p.log
  {
    var i := p.phase.i - 1;
    assert groups[i][k] !in p.log;
    assert Grouped(groups, groups[i][k]);
    forall a, b | 0 <= a < |groups| && 0 <= b < |groups[a]| && groups[a][b] == groups[i][k] ensures a == i && b == k {
      PlaceUnique(groups, a, b, i, k);
    }
  }

  lemma StopKept(c: Config, s: State, e: Event)
    requires InvMain(c, s) && InvStop(s) && InvStopTime(s) && Grounded(c) && Next(c, s, e).Some?
    ensures InvStop(Next(c, s, e).value) && InvStopTime(Next(c, s, e).value)
  {
    if e.StopStep? { StopKeptByStop(c, s, e.t); }
  }

  // ---------- Every reachable state ----------

  ghost predicate Inv(c: Config, s: State) {
    && InvMain(c, s) && InvLaunch(c, s) && InvBegun(c, s) && InvGate(c, s)
    && InvError(c, s) && InvStop(s) && InvStopTime(s)
  }

  lemma ConfigGrounded(c: Config)
    requires ValidConfig(c)
    ensures Grounded(c)
  {
    LayeringNoRepeat(c.services, c.groups);
    forall a, b | 0 <= a < |c.groups| && 0 <= b < |c.groups[a]| ensures c.groups[a][b] in c.services {
      assert c.groups[a][b] in c.groups[a];
    }
  }

  lemma InitInv(c: Config)
    requires Grounded(c)
    ensures Inv(c, Init(c))
  {
  }

  lemma InvKept(c: Config, s: State, e: Event)
    requires Grounded(c) && Inv(c, s) && Next(c, s, e).Some?
    ensures Inv(c, Next(c, s, e).value)
  {
    MainKept(c, s, e);
    LaunchKept(c, s, e);
    BegunKept(c, s, e);
    GateKept(c, s, e);
    ErrorKept(c, s, e);
    StopKept(c, s, e);
  }

  lemma {:induction false} ExecInv(c: Config, s: State, es: seq<Event>)
    requires Grounded(c) && Inv(c, s) && Exec(c, s, es).Some?
    ensures Inv(c, Exec(c, s, es).value)
    decreases |es|
  {
    if es != [] {
      InvKept(c, s, es[0]);
      ExecInv(c, Next(c, s, es[0]).value, es[1..]);
    }
  }

  lemma ReachableInv(c: Config, s: State)
    requires ValidConfig(c) && Reachable(c, s)
    ensures Grounded(c) && Inv(c, s)
  {
    ConfigGrounded(c);
    InitInv(c);
    var es :| Exec(c, Init(c), es) == Some(s);
    ExecInv(c, Init(c), es);
  }

  // ---------- Theorems ----------

  /** Launch order: in any interleaving, a service is started only once every
      in-process dependency is running its own code and, unless the context is
      cancelled, each that signals readiness has done so or exited for good. */
  lemma LaunchInOrder(c: Config, s: State, d: Name)
    requires ValidConfig(c) && Reachable(c, s) && Next(c, s, StartStep(Launch)).Some?
    requires DependsOn(c.services, c.groups[s.main.i][s.main.k], d)
    ensures Begun(s.procs, d)
    ensures s.sig.cancelled || Settled(c, s.procs, s.sig, d)
  {
    ReachableInv(c, s);
    var i, k := s.main.i, s.main.k;
    DependencyEarlier(c.services, c.groups, c.groups[i][k], d, i);
    var j :| 0 <= j < i && d in c.groups[j];
    var b :| 0 <= b < |c.groups[j]| && c.groups[j][b] == d;
  }

  /** Once the failure signal is up no further group starts: along any
      continuation, launching can only be the group already being launched. */
  lemma {:induction false} FailureStopsStartup(c: Config, s: State, es: seq<Event>)
    requires s.sig.failure && Exec(c, s, es).Some?
    ensures Exec(c, s, es).value.sig.failure
    ensures Exec(c, s, es).value.main.Launching? ==> s.main.Launching? && Exec(c, s, es).value.main.i == s.main.i
    decreases |es|
  {
    if es != [] {
      FailureStep(c, s, es[0]);
      FailureStopsStartup(c, Next(c, s, es[0]).value, es[1..]);
    }
  }

  lemma FailureStep(c: Config, s: State, e: Event)
    requires s.sig.failure && Next(c, s, e).Some?
    ensures Next(c, s, e).value.sig.failure
    ensures Next(c, s, e).value.main.Launching? ==> s.main.Launching? && Next(c, s, e).value.main.i == s.main.i
  {
    if e.ProcStep? { ProcFrame(c, e.n, s.procs[e.n], s.sig, e.p); }
  }

  /** The error channel: never a send after close, a set signal always has its
      error queued or taken, and what is queued or taken is the terminal error of
      a non-allowed service after all its attempts. */
  lemma FailureReported(c: Config, s: State)
    requires ValidConfig(c) && Reachable(c, s)
    ensures !s.sig.panicked
    ensures s.sig.failure ==> Reported(s.sig)
    ensures s.sig.failure && s.main.Selecting? ==> Next(c, s, EndStep(SelectError)).Some?
    ensures s.sig.errCh.Some? ==> Terminal(c, s.sig.errCh.value)
    ensures s.main.Closed? && s.main.result.Failed? ==> Terminal(c, s.main.result.error)
    ensures s.main.Closed? ==> AllExited(s.procs)
  {
    ReachableInv(c, s);
  }

  /** Run's own return value: wrapping a nil error gives nil. */
  predicate ReturnsNil(r: RunResult) { r.Clean? || r.error.lastErr.None? }

  /** When Run has returned on a failure: the attempts behind it are MaxRetries + 1
      exactly when MaxRetries is at least -1; Run returns a real error, that of the
      last attempt, exactly when MaxRetries is not negative. */
  lemma DeliveredAttempts(c: Config, s: State)
    requires ValidConfig(c) && Reachable(c, s) && s.main.Closed? && s.main.result.Failed?
    ensures var f := s.main.result.error;
            && f.service in c.maxRetries && f.service !in c.allowed
            && (f.attempts == c.maxRetries[f.service] + 1 <==> c.maxRetries[f.service] >= -1)
            && (ReturnsNil(s.main.result) <==> c.maxRetries[f.service] < 0)
            && (c.maxRetries[f.service] >= 0 ==> f.lastErr == Some(c.maxRetries[f.service]))
  {
    ReachableInv(c, s);
  }

  /** Steps a service goroutine has left: two for each remaining attempt, then
      the report and the signal. */
  function StepsLeft(c: Config, n: Name, q: Proc): int
    requires n in c.maxRetries
  {
    match q
    case Spawned => 2 * Attempts(c, n) + 3
    case Running(a) => 2 * (Attempts(c, n) - a) + 2
    case Delaying(a) => 2 * (Attempts(c, n) - a) + 1
    case Reporting(_, _) => 2
    case Triggering => 1
    case _ => 0
  }

  /** Retrying is bounded: in every reachable state each step of a service
      goroutine uses up one of its remaining steps, and none is left below zero. */
  lemma RetriesEnd(c: Config, s: State, n: Name, p: ProcEvent)
    requires ValidConfig(c) && Reachable(c, s) && Next(c, s, ProcStep(n, p)).Some?
    ensures n in s.procs && n in Next(c, s, ProcStep(n, p)).value.procs && n in c.maxRetries
    ensures 0 <= StepsLeft(c, n, Next(c, s, ProcStep(n, p)).value.procs[n]) < StepsLeft(c, n, s.procs[n])
  {
    ReachableInv(c, s);
    ProcFrame(c, n, s.procs[n], s.sig, p);
    assert !s.main.Closed?;
    ProcShrinks(c, n, s.procs[n], s.sig, p);
  }

  lemma ProcShrinks(c: Config, n: Name, q: Proc, g: Signals, p: ProcEvent)
    requires n in c.maxRetries && ProcOk(c, n, q) && !g.errClosed && NextProc(c, n, q, g, p).Some?
    ensures 0 <= StepsLeft(c, n, NextProc(c, n, q, g, p).value.0) < StepsLeft(c, n, q)
  {
  }

  // ---------- Nothing parks on the error channel ----------

  lemma {:induction false} ExecConcat(c: Config, s: State, es: seq<Event>, fs: seq<Event>)
    requires Exec(c, s, es).Some?
    ensures Exec(c, s, es + fs) == Exec(c, Exec(c, s, es).value, fs)
    decreases |es|
  {
    if es == [] {
      assert es + fs == fs;
    } else {
      ExecConcat(c, Next(c, s, es[0]).value, es[1..], fs);
      assert (es + fs)[1..] == es[1..] + fs;
    }
  }

  lemma ExecOne(c: Config, s: State, e: Event)
    ensures Exec(c, s, [e]) == Next(c, s, e)
  {
    assert [e][1..] == [];
  }

  predicate Failing(q: Proc) { q.Reporting? || q.Triggering? }

  lemma TriggerFinishes(c: Config, s: State, n: Name) returns (t: State)
    requires Inv(c, s) && n in s.procs && s.procs[n].Triggering?
    ensures Exec(c, s, [ProcStep(n, Trigger)]) == Some(t)
    ensures t.procs == s.procs[n := Exited] && t.main == s.main
  {
    ExecOne(c, s, ProcStep(n, Trigger));
    t := Next(c, s, ProcStep(n, Trigger)).value;
  }

  /** A failing goroutine finishes by its own steps, whatever state the others
      and the channel are in. */
  lemma ReporterFinishes(c: Config, s: State, n: Name) returns (es: seq<Event>, t: State)
    requires Grounded(c) && Inv(c, s) && n in s.procs && Failing(s.procs[n])
    ensures Exec(c, s, es) == Some(t)
    ensures t.procs == s.procs[n := Exited] && t.main == s.main
  {
    if s.procs[n].Triggering? {
      es := [ProcStep(n, Trigger)];
      t := TriggerFinishes(c, s, n);
    } else {
      var e := ProcStep(n, Report);
      assert !s.main.Closed?;
      ExecOne(c, s, e);
      var u := Next(c, s, e).value;
      if n in c.allowed {
        es, t := [e], u;
      } else {
        InvKept(c, s, e);
        t := TriggerFinishes(c, u, n);
        ExecConcat(c, s, [e], [ProcStep(n, Trigger)]);
        es := [e] + [ProcStep(n, Trigger)];
        assert t.procs == s.procs[n := Exited];
      }
    }
  }

  /** What a goroutine that has not exited can do next by itself. */
  function OwnStep(q: Proc): ProcEvent {
    match q
    case Running(_) => RunReturns(true)
    case Delaying(_) => RetryNow
    case Reporting(_, _) => Report
    case Triggering => Trigger
    case _ => SendToken
  }

  predicate Busy(q: Proc) { !q.Idle? && !q.Exited? }

  /** Any service goroutine can exit by its own steps: the service's Run returns
      once, and the rest waits for nobody. */
  lemma {:induction false} ServiceFinishes(c: Config, s: State, n: Name) returns (es: seq<Event>, t: State)
    requires Grounded(c) && Inv(c, s) && n in s.procs && Busy(s.procs[n])
    ensures Exec(c, s, es) == Some(t)
    ensures t.procs == s.procs[n := Exited] && t.main == s.main
    decreases StepsLeft(c, n, s.procs[n])
  {
    var e := ProcStep(n, OwnStep(s.procs[n]));
    var u := OwnStepTaken(c, s, n);
    ExecOne(c, s, e);
    if u.procs[n].Exited? {
      es, t := [e], u;
    } else {
      InvKept(c, s, e);
      var fs;
      fs, t := ServiceFinishes(c, u, n);
      ExecConcat(c, s, [e], fs);
      es := [e] + fs;
      assert t.procs == s.procs[n := Exited];
    }
  }

  lemma OwnStepTaken(c: Config, s: State, n: Name) returns (u: State)
    requires Grounded(c) && Inv(c, s) && n in s.procs && Busy(s.procs[n])
    ensures Next(c, s, ProcStep(n, OwnStep(s.procs[n]))) == Some(u)
    ensures u.main == s.main && n in u.procs && u.procs == s.procs[n := u.procs[n]] && !u.procs[n].Idle?
    ensures 0 <= StepsLeft(c, n, u.procs[n]) < StepsLeft(c, n, s.procs[n])
  {
    assert !s.main.Closed?;
    var p := OwnStep(s.procs[n]);
    u := Next(c, s, ProcStep(n, p)).value;
    ProcFrame(c, n, s.procs[n], s.sig, p);
    ProcShrinks(c, n, s.procs[n], s.sig, p);
  }

  /** Whatever the services are doing when Run waits for them, failing at once or
      still running: it can be brought to return its result by their steps alone. */
  lemma {:induction false} DrainCompletes(c: Config, s: State, busy: set<Name>) returns (es: seq<Event>)
    requires Grounded(c) && Inv(c, s) && s.main.Draining?
    requires forall n | n in busy :: n in s.procs && Busy(s.procs[n])
    requires forall n | n in s.procs && n !in busy :: !Busy(s.procs[n])
    ensures Exec(c, s, es).Some? && Exec(c, s, es).value.main == Closed(s.main.result)
    decreases |busy|
  {
    if busy == {} {
      es := [EndStep(CloseErrCh)];
      ExecOne(c, s, es[0]);
    } else {
      var n :| n in busy;
      var fs, t := ServiceFinishes(c, s, n);
      ExecInv(c, s, fs);
      var gs := DrainCompletes(c, t, busy - {n});
      ExecConcat(c, s, fs, gs);
      es := fs + gs;
    }
  }

  /** The final wait cannot hang, in any schedule: once no service goroutine can
      take a step, Run can close the channel and return. Each has only so many
      steps, so every schedule gets there. */
  lemma DrainInevitable(c: Config, s: State)
    requires ValidConfig(c) && Reachable(c, s) && s.main.Draining?
    requires forall n, p :: Next(c, s, ProcStep(n, p)).None?
    ensures Next(c, s, EndStep(CloseErrCh)).Some?
  {
    ReachableInv(c, s);
    forall n | n in s.procs ensures s.procs[n].Idle? || s.procs[n].Exited? {
      assert Next(c, s, ProcStep(n, OwnStep(s.procs[n]))).None?;
    }
  }

  // ---------- Stop ----------

  /** A Stop call is the first for its service, the service was launched, and
      Stop of every launched dependent has already returned or timed out. */
  lemma StopInOrder(c: Config, s: State, k: nat, m: Name)
    requires ValidConfig(c) && Reachable(c, s) && Next(c, s, StopStep(StopService(k))).Some?
    ensures s.startGroups[s.stopping.phase.i - 1][k] !in s.stopping.log
    ensures Launched(s.procs, s.startGroups[s.stopping.phase.i - 1][k])
    ensures DependsOn(c.services, m, s.startGroups[s.stopping.phase.i - 1][k]) && Launched(s.procs, m) ==>
              m in s.stopping.ended
  {
    ReachableInv(c, s);
    var i := s.stopping.phase.i - 1;
    var n := s.startGroups[i][k];
    assert c.groups[i][k] == n;
    if DependsOn(c.services, m, n) && Launched(s.procs, m) {
      assert Grouped(c.groups, m);
      var a :| 0 <= a < |c.groups| && m in c.groups[a];
      var b :| 0 <= b < |c.groups[a]| && c.groups[a][b] == m;
      DependencyEarlier(c.services, c.groups, m, n, a);
      assert i < a && s.startGroups[a][b] == m;
    }
  }

  /** After Run's deferred Stop: the Stop calls are distinct and all on launched
      services, and they cover every launched service exactly when the once-only
      body did not begin before startup, or nothing was launched at all. */
  lemma StopExact(c: Config, s: State)
    requires ValidConfig(c) && Reachable(c, s) && (s.main.Draining? || s.main.Closed?)
    ensures Distinct(s.stopping.log)
    ensures forall n | n in s.stopping.log :: Launched(s.procs, n)
    ensures (forall n | Launched(s.procs, n) :: n in s.stopping.log) <==>
            !s.stopping.early || forall n :: !Launched(s.procs, n)
  {
    ReachableInv(c, s);
    if !s.stopping.early {
      forall n | n in s.stopping.log ensures Launched(s.procs, n) {
        assert Grouped(s.startGroups, n);
        var a :| 0 <= a < |s.startGroups| && n in s.startGroups[a];
        var b :| 0 <= b < |s.startGroups[a]| && s.startGroups[a][b] == n;
        assert c.groups[a][b] == n;
      }
      forall n | Launched(s.procs, n) ensures n in s.stopping.log {
        assert Grouped(c.groups, n);
        var a :| 0 <= a < |c.groups| && n in c.groups[a];
        var b :| 0 <= b < |c.groups[a]| && c.groups[a][b] == n;
        assert s.startGroups[a][b] == n;
      }
    }
  }

  // ---------- A Stop that comes too early ----------

  lemma ReachNext(c: Config, s: State, e: Event)
    requires Reachable(c, s) && Next(c, s, e).Some?
    ensures Reachable(c, Next(c, s, e).value)
  {
    var es :| Exec(c, Init(c), es) == Some(s);
    ExecConcat(c, Init(c), es, [e]);
    ExecOne(c, s, e);
  }

  const ONLY := Name("only")

  /** One service without dependencies. */
  function Single(retries: int): Config { Config(map[ONLY := []], [[ONLY]], {}, {}, map[ONLY := retries]) }

  lemma SingleValid(retries: int)
    ensures ValidConfig(Single(retries))
  {
    var c := Single(retries);
    LevelIsHeight(c.services, map[ONLY := 0], ONLY);
    assert ONLY in c.groups[0];
    assert Grouped(c.groups, ONLY);
  }

  /** The once-only Stop can be spent before startup takes its lock. Services
      launched afterwards run on, even uncancelled when Run had not stored its
      cancel function yet (u), and never get a Stop call (s). */
  lemma EarlyStopMisses() returns (u: State, s: State)
    ensures ValidConfig(Single(0)) && Reachable(Single(0), u) && Reachable(Single(0), s)
    ensures u.stopping.phase.Finished? && !u.sig.cancelled && u.procs == map[ONLY := Running(0)]
    ensures s.main.Draining? && s.stopping.early && Launched(s.procs, ONLY) && s.stopping.log == []
  {
    var c := Single(0);
    SingleValid(0);
    s := Init(c);
    assert Exec(c, s, []) == Some(s);
    s := EarlyPrefix(s);
    s := LaunchOnly(0, s);
    u := GroupDone(0, s, Running(0));
    s := EarlyEnd(u);
  }

  lemma EarlyEnd(s0: State) returns (s: State)
    requires Reachable(Single(0), s0) && s0.main == Check(1) && s0.stopping == Stopping(true, Finished, true, [], {})
    ensures Reachable(Single(0), s) && s.main.Draining? && s.procs == s0.procs && s.stopping == s0.stopping
  {
    var c := Single(0);
    ReachNext(c, s0, StartStep(TestFailure));
    s := Next(c, s0, StartStep(TestFailure)).value;
    ReachNext(c, s, Cancel);
    s := Next(c, s, Cancel).value;
    ReachNext(c, s, EndStep(SelectDone));
    s := Next(c, s, EndStep(SelectDone)).value;
    ReachNext(c, s, EndStep(StopReturned));
    s := Next(c, s, EndStep(StopReturned)).value;
  }

  lemma EarlyPrefix(s0: State) returns (s: State)
    requires s0 == Init(Single(0)) && Reachable(Single(0), s0)
    ensures Reachable(Single(0), s) && s.main == Check(0) && s.procs == map[ONLY := Idle] && s.startGroups == []
    ensures s.sig == s0.sig && s.stopping == Stopping(true, Finished, true, [], {})
  {
    var c := Single(0);
    ReachNext(c, s0, StopCall);
    s := Next(c, s0, StopCall).value;
    ReachNext(c, s, StopStep(BeginBody));
    s := Next(c, s, StopStep(BeginBody)).value;
    ReachNext(c, s, StopStep(EndBody));
    s := Next(c, s, StopStep(EndBody)).value;
    ReachNext(c, s, StartStep(StoreCancel));
    s := Next(c, s, StartStep(StoreCancel)).value;
    ReachNext(c, s, StartStep(TakeLock));
    s := Next(c, s, StartStep(TakeLock)).value;
    assert s.procs == map[ONLY := Idle];
  }

  /** The only service launched, up to its first own step. */
  lemma LaunchOnly(retries: int, s0: State) returns (s: State)
    requires Reachable(Single(retries), s0) && s0.main == Check(0) && s0.procs == map[ONLY := Idle] && !s0.sig.failure
    requires s0.sig.tokens == {} && !s0.sig.panicked
    ensures Reachable(Single(retries), s) && s.main == Collecting(0, {})
    ensures s.procs == map[ONLY := if retries < 0 then Reporting(0, None) else Running(0)]
    ensures s.startGroups == s0.startGroups && s.sig == s0.sig.(tokens := {ONLY}) && s.stopping == s0.stopping
  {
    var c := Single(retries);
    ReachNext(c, s0, StartStep(TestFailure));
    s := Next(c, s0, StartStep(TestFailure)).value;
    ReachNext(c, s, StartStep(Launch));
    s := Next(c, s, StartStep(Launch)).value;
    ReachNext(c, s, StartStep(EndLaunch));
    s := Next(c, s, StartStep(EndLaunch)).value;
    ReachNext(c, s, ProcStep(ONLY, SendToken));
    s := Next(c, s, ProcStep(ONLY, SendToken)).value;
    assert s.procs == map[ONLY := if retries < 0 then Reporting(0, None) else Running(0)];
  }

  /** The rest of the only group's startup, while its service stays put. */
  lemma GroupDone(retries: int, s0: State, q: Proc) returns (s: State)
    requires Reachable(Single(retries), s0) && s0.main == Collecting(0, {}) && s0.procs == map[ONLY := q]
    requires s0.sig.tokens == {ONLY} && s0.startGroups == []
    ensures Reachable(Single(retries), s) && s.main == Check(1) && s.procs == s0.procs && s.startGroups == [[ONLY]]
    ensures s.sig == s0.sig.(tokens := {}) && s.stopping == s0.stopping
  {
    var c := Single(retries);
    ReachNext(c, s0, StartStep(ReceiveToken(ONLY)));
    s := Next(c, s0, StartStep(ReceiveToken(ONLY))).value;
    assert s.main.got == {ONLY} && s.sig.tokens == {};
    ReachNext(c, s, StartStep(AllLaunched));
    s := Next(c, s, StartStep(AllLaunched)).value;
    ReachNext(c, s, WaitStep(WaitSkip));
    s := Next(c, s, WaitStep(WaitSkip)).value;
    ReachNext(c, s, WaitStep(WaitDone));
    s := Next(c, s, WaitStep(WaitDone)).value;
    ReachNext(c, s, StartStep(AppendGroup));
    s := Next(c, s, StartStep(AppendGroup)).value;
  }

  // ---------- A negative retry budget ----------

  /** For every negative MaxRetries: a run in which the service makes no attempt, is
      reported all the same, stops the application, and Run returns nil. */
  lemma NegativeBudgetReported(retries: int) returns (s: State)
    requires retries < 0
    ensures ValidConfig(Single(retries)) && Reachable(Single(retries), s) && s.main.Closed?
    ensures s.main.result == Failed(Fatal(ONLY, 0, None)) && ReturnsNil(s.main.result) && s.sig.failure
  {
    SingleValid(retries);
    s := StartOnly(retries);
    s := LaunchOnly(retries, s);
    s := GroupDone(retries, s, Reporting(0, None));
    s := ReportOnly(retries, s, 0, None);
    s := StopOnly(retries, s);
    s := CloseOnly(retries, s);
  }

  lemma StartOnly(retries: int) returns (s: State)
    ensures Reachable(Single(retries), s) && s.main == Check(0) && s.procs == map[ONLY := Idle] && s.startGroups == []
    ensures s.sig == Init(Single(retries)).sig && s.stopping == Init(Single(retries)).stopping
  {
    var c := Single(retries);
    s := Init(c);
    assert Exec(c, s, []) == Some(s);
    ReachNext(c, s, StartStep(StoreCancel));
    s := Next(c, s, StartStep(StoreCancel)).value;
    ReachNext(c, s, StartStep(TakeLock));
    s := Next(c, s, StartStep(TakeLock)).value;
    assert s.procs == map[ONLY := Idle];
  }

  lemma CloseOnly(retries: int, s0: State) returns (s: State)
    requires Reachable(Single(retries), s0) && s0.main.Returning? && s0.procs == map[ONLY := Exited]
    requires s0.sig.cancelled && s0.stopping.phase.Finished?
    ensures Reachable(Single(retries), s) && s.main == Closed(s0.main.result) && s.sig.failure == s0.sig.failure
  {
    var c := Single(retries);
    ReachNext(c, s0, EndStep(StopReturned));
    s := Next(c, s0, EndStep(StopReturned)).value;
    ReachNext(c, s, EndStep(CloseErrCh));
    s := Next(c, s, EndStep(CloseErrCh)).value;
  }

  lemma ReportOnly(retries: int, s0: State, made: nat, err: Option<nat>) returns (s: State)
    requires Reachable(Single(retries), s0) && s0.main == Check(1) && s0.procs == map[ONLY := Reporting(made, err)]
    requires s0.startGroups == [[ONLY]] && s0.stopping == Stopping(false, NotCalled, false, [], {})
    requires s0.sig == Signals({}, {}, None, None, false, false, false, false)
    ensures Reachable(Single(retries), s) && s.main == Returning(Failed(Fatal(ONLY, made, err)))
    ensures s.procs == map[ONLY := Exited] && s.sig.failure && !s.sig.errClosed
    ensures s.startGroups == s0.startGroups && s.stopping == s0.stopping
  {
    var c := Single(retries);
    ReachNext(c, s0, ProcStep(ONLY, Report));
    s := Next(c, s0, ProcStep(ONLY, Report)).value;
    ReachNext(c, s, ProcStep(ONLY, Trigger));
    s := Next(c, s, ProcStep(ONLY, Trigger)).value;
    assert s.procs == map[ONLY := Exited];
    ReachNext(c, s, StartStep(TestFailure));
    s := Next(c, s, StartStep(TestFailure)).value;
    ReachNext(c, s, EndStep(SelectError));
    s := Next(c, s, EndStep(SelectError)).value;
  }

  /** Run's deferred Stop over the only group. */
  lemma StopOnly(retries: int, s0: State) returns (s: State)
    requires Reachable(Single(retries), s0) && s0.main.Returning? && s0.startGroups == [[ONLY]]
    requires s0.stopping == Stopping(false, NotCalled, false, [], {})
    ensures Reachable(Single(retries), s) && s.main == s0.main && s.procs == s0.procs
    ensures s.sig == s0.sig.(cancelled := true) && s.stopping.phase.Finished?
  {
    var c := Single(retries);
    ReachNext(c, s0, StopCall);
    s := Next(c, s0, StopCall).value;
    ReachNext(c, s, StopStep(BeginBody));
    s := Next(c, s, StopStep(BeginBody)).value;
    ReachNext(c, s, StopStep(StopService(0)));
    s := Next(c, s, StopStep(StopService(0))).value;
    ReachNext(c, s, StopStep(StopServiceEnds(0)));
    s := Next(c, s, StopStep(StopServiceEnds(0))).value;
    ReachNext(c, s, StopStep(NextGroup));
    s := Next(c, s, StopStep(NextGroup)).value;
    ReachNext(c, s, StopStep(EndBody));
    s := Next(c, s, StopStep(EndBody)).value;
  }
}
