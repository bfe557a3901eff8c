/** run of cmd/worker/main.go: the launching goroutine and the workers it
    starts, stops, waits for and closes, in every interleaving. */
module Shutdown {
  import opened Domain
  import Broker

  /** The launching goroutine. Returning and Returned carry whether run
      returns an error; after Exited no goroutine exists. */
  datatype Main =
    | Launching(next: nat)
    | Serving
    | Signalled
    | Waiting
    | Closing(next: nat)
    | Returning(failed: bool)
    | ClosingDb(failed: bool)
    | Returned(failed: bool)
    | Exited(failed: bool)

  /** A worker goroutine: inside ReadOne, inside process, out of Run, done. */
  datatype Pc = Reading | Processing | Left | Done

  datatype State = State(main: Main, workers: seq<Pc>, wg: int, cancelled: bool, closed: set<nat>, dbClosed: bool)

  datatype Params = Params(order: seq<Channel>, routing: Broker.Routing)

  datatype Event =
    | Launch
    | AllLaunched
    | Signal
    | CancelWorkers
    | WaitReturns
    | CloseNext
    | AllClosed
    | DeferredCancel
    | CloseDb
    | Exit
    | Got(w: nat)            // ReadOne returns a notification; process is called
    | ReadError(w: nat)      // ReadOne returns another error and is called again
    | Interrupted(w: nat)    // ReadOne returns a context error; Run returns
    | Processed(w: nat)      // process returns; ReadOne is called again
    | WgDone(w: nat)

  predicate ByWorker(e: Event) {
    e.Got? || e.ReadError? || e.Interrupted? || e.Processed? || e.WgDone?
  }

  predicate Routed(p: Params, i: nat)
    requires i < |p.order|
  {
    ChannelName(p.order[i]) in p.routing
  }

  predicate Enabled(p: Params, s: State, e: Event) {
    match e
    case Launch => s.main.Launching? && s.main.next < |p.order|
    case AllLaunched => s.main == Launching(|p.order|)
    case Signal => s.main.Serving?
    case CancelWorkers => s.main.Signalled?
    case WaitReturns => s.main.Waiting? && s.wg == 0
    case CloseNext => s.main.Closing? && s.main.next < |s.workers|
    case AllClosed => s.main == Closing(|s.workers|)
    case DeferredCancel => s.main.Returning?
    case CloseDb => s.main.ClosingDb?
    case Exit => s.main.Returned?
    case Got(w) => Is(s, w, Reading)
    case ReadError(w) => Is(s, w, Reading)
    case Interrupted(w) => Is(s, w, Reading)
    case Processed(w) => Is(s, w, Processing)
    case WgDone(w) => Is(s, w, Left)
  }

  predicate Is(s: State, w: nat, pc: Pc) {
    w < |s.workers| && s.workers[w] == pc && !s.main.Exited?
  }

  function Step(p: Params, s: State, e: Event): State
    requires Enabled(p, s, e)
  {
    match e
    case Launch =>
      if Routed(p, s.main.next) then s.(main := Launching(s.main.next + 1), workers := s.workers + [Reading], wg := s.wg + 1)
      else s.(main := Returning(true))
    case AllLaunched => s.(main := Serving)
    case Signal => s.(main := Signalled)
    case CancelWorkers => s.(main := Waiting, cancelled := true)
    case WaitReturns => s.(main := Closing(0))
    case CloseNext => s.(main := Closing(s.main.next + 1), closed := s.closed + {s.main.next})
    case AllClosed => s.(main := Returning(false))
    case DeferredCancel => s.(main := ClosingDb(s.main.failed), cancelled := true)
    case CloseDb => s.(main := Returned(s.main.failed), dbClosed := true)
    case Exit => s.(main := Exited(s.main.failed))
    case Got(w) => s.(workers := s.workers[w := Processing])
    case ReadError(w) => s
    case Interrupted(w) => s.(workers := s.workers[w := Left])
    case Processed(w) => s.(workers := s.workers[w := Reading])
    case WgDone(w) => s.(workers := s.workers[w := Done], wg := s.wg - 1)
  }

  predicate Next(p: Params, s: State, e: Event, t: State) {
    Enabled(p, s, e) && t == Step(p, s, e)
  }

  const START := State(Launching(0), [], 0, false, {}, false)

  predicate Run(p: Params, ss: seq<State>, es: seq<Event>) {
    |ss| == |es| + 1 && ss[0] == START && forall i :: 0 <= i < |es| ==> Next(p, ss[i], es[i], ss[i + 1])
  }

  lemma Extend(p: Params, ss: seq<State>, es: seq<Event>, e: Event) returns (ss': seq<State>, es': seq<Event>, t: State)
    requires Run(p, ss, es) && Enabled(p, ss[|es|], e)
    ensures t == Step(p, ss[|es|], e)
    ensures ss' == ss + [t] && es' == es + [e] && Run(p, ss', es')
  {
    t := Step(p, ss[|es|], e);
    ss', es' := ss + [t], es + [e];
  }

  // ---------------------------------------------------------------------
  // Invariant
  // ---------------------------------------------------------------------

  /** Workers that have not called wg.Done. */
  function Live(workers: seq<Pc>): nat {
    if workers == [] then 0 else Live(workers[..|workers| - 1]) + if workers[|workers| - 1].Done? then 0 else 1
  }

  lemma {:induction false} LiveAfter(workers: seq<Pc>, w: nat, pc: Pc)
    requires w < |workers|
    ensures Live(workers[w := pc]) == Live(workers) - (if workers[w].Done? then 0 else 1) + (if pc.Done? then 0 else 1)
    decreases |workers|
  {
    var last := |workers| - 1;
    var after := workers[w := pc];
    if w < last {
      LiveAfter(workers[..last], w, pc);
      assert after[..last] == workers[..last][w := pc];
    } else {
      assert after[..last] == workers[..last];
    }
  }

  lemma {:induction false} LiveZero(workers: seq<Pc>)
    ensures Live(workers) == 0 <==> forall w :: 0 <= w < |workers| ==> workers[w].Done?
  {
    if workers == [] {
    } else {
      LiveZero(workers[..|workers| - 1]);
    }
  }

  /** The first n channels have a route. */
  predicate RoutedBelow(p: Params, n: nat) {
    n <= |p.order| && forall i :: 0 <= i < n ==> Routed(p, i)
  }

  predicate FailedHere(p: Params, s: State) {
    RoutedBelow(p, |s.workers|) && |s.workers| < |p.order| && !Routed(p, |s.workers|)
  }

  /** The consumers of the first n workers have been closed, and no other. */
  ghost predicate ClosedUpTo(closed: set<nat>, n: nat) {
    forall w: nat :: w in closed <==> w < n
  }

  /** Where the launching goroutine stands tells what has been launched, what
      has been closed, and whether anything is still running. */
  ghost predicate Place(p: Params, s: State) {
    match s.main
    case Launching(n) => |s.workers| == n && RoutedBelow(p, n) && s.closed == {}
    case Serving => |s.workers| == |p.order| && RoutedBelow(p, |p.order|) && s.closed == {}
    case Signalled => |s.workers| == |p.order| && RoutedBelow(p, |p.order|) && s.closed == {}
    case Waiting => |s.workers| == |p.order| && RoutedBelow(p, |p.order|) && s.closed == {}
    case Closing(n) =>
      && |s.workers| == |p.order| && RoutedBelow(p, |p.order|) && s.wg == 0
      && n <= |s.workers| && ClosedUpTo(s.closed, n)
    case _ =>
      if s.main.failed then s.closed == {} && FailedHere(p, s)
      else
        && |s.workers| == |p.order| && RoutedBelow(p, |p.order|) && s.wg == 0
        && ClosedUpTo(s.closed, |s.workers|)
  }

  ghost predicate Inv(p: Params, s: State) {
    && s.wg == Live(s.workers) && Place(p, s)
    && (s.dbClosed <==> s.main.Returned? || s.main.Exited?)
    && (s.main.Launching? || s.main.Serving? || s.main.Signalled? ==> !s.cancelled)
    && (s.main.Waiting? || s.main.Closing? || s.main.ClosingDb? || s.dbClosed ==> s.cancelled)
  }

  lemma WorkerKeepsInv(p: Params, s: State, e: Event)
    requires Inv(p, s) && Enabled(p, s, e) && ByWorker(e)
    ensures Inv(p, Step(p, s, e))
  {
    var t := Step(p, s, e);
    LiveAfter(s.workers, e.w, t.workers[e.w]);
    assert s.workers[e.w := s.workers[e.w]] == s.workers;
    LiveZero(s.workers);
  }

  lemma LaunchKeepsInv(p: Params, s: State)
    requires Inv(p, s) && Enabled(p, s, Launch)
    ensures Inv(p, Step(p, s, Launch))
  {
  }

  lemma StepKeepsInv(p: Params, s: State, e: Event)
    requires Inv(p, s) && Enabled(p, s, e)
    ensures Inv(p, Step(p, s, e))
  {
    if ByWorker(e) {
      WorkerKeepsInv(p, s, e);
    } else if e.Launch? {
      LaunchKeepsInv(p, s);
    }
  }

  lemma {:induction false} ReachableInv(p: Params, ss: seq<State>, es: seq<Event>, n: nat)
    requires Run(p, ss, es) && n <= |es|
    ensures Inv(p, ss[n])
  {
    if n == 0 {
    } else {
      ReachableInv(p, ss, es, n - 1);
      assert Next(p, ss[n - 1], es[n - 1], ss[n]);
      StepKeepsInv(p, ss[n - 1], es[n - 1]);
    }
  }

  // ---------------------------------------------------------------------
  // The loop of one worker
  // ---------------------------------------------------------------------

  /** What worker w did last. */
  function LastOwn(es: seq<Event>, w: nat): Option<Event> {
    if es == [] then None
    else
      var e := es[|es| - 1];
      if ByWorker(e) && e.w == w then Some(e) else LastOwn(es[..|es| - 1], w)
  }

  /** A worker processes what it has just got, reads again after processing and
      after any other error, leaves Run only by a context error of its own, and
      is done only after that. */
  ghost predicate StandsAt(pc: Pc, last: Option<Event>) {
    match last
    case None => pc == Reading
    case Some(Got(_)) => pc == Processing
    case Some(ReadError(_)) => pc == Reading
    case Some(Processed(_)) => pc == Reading
    case Some(Interrupted(_)) => pc == Left
    case Some(_) => pc == Done
  }

  lemma {:induction false} WorkersFollowTheirLoop(p: Params, ss: seq<State>, es: seq<Event>, n: nat, w: nat)
    requires Run(p, ss, es) && n <= |es|
    ensures w < |ss[n].workers| ==> StandsAt(ss[n].workers[w], LastOwn(es[..n], w))
    ensures w >= |ss[n].workers| ==> LastOwn(es[..n], w) == None
  {
    if n == 0 {
    } else {
      WorkersFollowTheirLoop(p, ss, es, n - 1, w);
      assert Next(p, ss[n - 1], es[n - 1], ss[n]);
      assert es[..n][..n - 1] == es[..n - 1];
    }
  }

  /** What may follow what in one worker's loop: process returns after a
      notification was got, wg.Done follows the return of Run, and ReadOne is
      called first, after an error and after process. */
  predicate InTurn(last: Option<Event>, e: Event) {
    if last.None? then e.Got? || e.ReadError? || e.Interrupted?
    else if last.value.Got? then e.Processed?
    else if last.value.Interrupted? then e.WgDone?
    else (last.value.ReadError? || last.value.Processed?) && (e.Got? || e.ReadError? || e.Interrupted?)
  }

  lemma WorkersActInTurn(p: Params, ss: seq<State>, es: seq<Event>, n: nat)
    requires Run(p, ss, es) && n < |es| && ByWorker(es[n])
    ensures InTurn(LastOwn(es[..n], es[n].w), es[n])
  {
    assert Next(p, ss[n], es[n], ss[n + 1]);
    WorkersFollowTheirLoop(p, ss, es, n, es[n].w);
    LastIsByWorker(es[..n], es[n].w);
  }

  lemma {:induction false} LastIsByWorker(es: seq<Event>, w: nat)
    ensures LastOwn(es, w).Some? ==> ByWorker(LastOwn(es, w).value)
  {
    if es == [] {
    } else {
      LastIsByWorker(es[..|es| - 1], w);
    }
  }

  // ---------------------------------------------------------------------
  // Close comes last
  // ---------------------------------------------------------------------

  /** In no interleaving does a worker read, process or do anything else once
      a consumer has been closed. */
  lemma NothingRunsAfterClose(p: Params, ss: seq<State>, es: seq<Event>, j: nat)
    requires Run(p, ss, es) && j < |es| && ss[j].closed != {}
    ensures !ByWorker(es[j]) && forall w :: 0 <= w < |ss[j].workers| ==> ss[j].workers[w].Done?
  {
    ReachableInv(p, ss, es, j);
    LiveZero(ss[j].workers);
    assert Next(p, ss[j], es[j], ss[j + 1]);
  }

  lemma {:induction false} ClosedStays(p: Params, ss: seq<State>, es: seq<Event>, i: nat, j: nat)
    requires Run(p, ss, es) && i <= j <= |es|
    ensures ss[i].closed <= ss[j].closed
  {
    if i == j {
    } else {
      ClosedStays(p, ss, es, i, j - 1);
      assert Next(p, ss[j - 1], es[j - 1], ss[j]);
    }
  }

  /** The same, between the event that closes a consumer and any later one. */
  lemma CloseComesLast(p: Params, ss: seq<State>, es: seq<Event>, i: nat, j: nat)
    requires Run(p, ss, es) && i < j < |es| && es[i].CloseNext?
    ensures !ByWorker(es[j])
  {
    assert Next(p, ss[i], es[i], ss[i + 1]);
    assert ss[i].main.next in ss[i + 1].closed;
    ClosedStays(p, ss, es, i + 1, j);
    NothingRunsAfterClose(p, ss, es, j);
  }

  /** A clean exit has launched a worker for every channel and closed each
      consumer; an exit with an error has closed none, and left behind the
      workers of the channels before the first one without a route. */
  lemma HowItEnds(p: Params, ss: seq<State>, es: seq<Event>, n: nat)
    requires Run(p, ss, es) && n <= |es| && ss[n].main.Exited?
    ensures ss[n].main.failed <==> !RoutedBelow(p, |p.order|)
    ensures !ss[n].main.failed ==> |ss[n].workers| == |p.order| && ClosedUpTo(ss[n].closed, |p.order|)
    ensures ss[n].main.failed ==> ss[n].closed == {} && FailedHere(p, ss[n])
    ensures ss[n].cancelled && ss[n].dbClosed
  {
    ReachableInv(p, ss, es, n);
  }

  // ---------------------------------------------------------------------
  // The database handle
  // ---------------------------------------------------------------------

  /** A worker is still in ReadOne or process although the database has been
      closed under it. */
  predicate Stranded(s: State) {
    s.dbClosed && exists w :: 0 <= w < |s.workers| && (s.workers[w].Reading? || s.workers[w].Processing?)
  }

  ghost predicate CanStrand(p: Params) {
    exists ss: seq<State>, es :: Run(p, ss, es) && Stranded(ss[|es|])
  }

  lemma {:induction false} LaunchFirst(p: Params, n: nat) returns (ss: seq<State>, es: seq<Event>)
    requires RoutedBelow(p, n)
    ensures Run(p, ss, es) && ss[|es|] == State(Launching(n), seq(n, _ => Reading), n, false, {}, false)
  {
    if n == 0 {
      ss, es := [START], [];
      assert START.workers == seq(0, _ => Reading);
    } else {
      ss, es := LaunchFirst(p, n - 1);
      var t;
      ss, es, t := Extend(p, ss, es, Launch);
      assert t.workers == seq(n, _ => Reading);
    }
  }

  function FirstUnrouted(p: Params, n: nat): (i: nat)
    requires RoutedBelow(p, n) && !RoutedBelow(p, |p.order|)
    ensures RoutedBelow(p, i) && i < |p.order| && !Routed(p, i)
    decreases |p.order| - n
  {
    if n < |p.order| && Routed(p, n) then FirstUnrouted(p, n + 1) else n
  }

  /** The database can be closed under a running worker exactly when NewConsumer
      fails for some channel after a worker has been launched: that way out
      waits for nobody. */
  lemma StrandsIff(p: Params)
    ensures CanStrand(p) <==> !RoutedBelow(p, |p.order|) && Routed(p, 0)
  {
    if !RoutedBelow(p, |p.order|) && Routed(p, 0) {
      var n := FirstUnrouted(p, 0);
      var ss, es := LaunchFirst(p, n);
      var t;
      ss, es, t := Extend(p, ss, es, Launch);
      ss, es, t := Extend(p, ss, es, DeferredCancel);
      ss, es, t := Extend(p, ss, es, CloseDb);
      assert t.workers[0].Reading?;
      assert Stranded(ss[|es|]);
    }
    forall ss: seq<State>, es | Run(p, ss, es) && Stranded(ss[|es|])
      ensures !RoutedBelow(p, |p.order|) && Routed(p, 0)
    {
      ReachableInv(p, ss, es, |es|);
      LiveZero(ss[|es|].workers);
    }
  }

  /** The routing table the program ships with never strands a worker and never
      fails to start, whatever order the senders map is walked in. */
  lemma ShippedRoutingIsSafe(order: seq<Channel>)
    ensures var p := Params(order, Broker.ROUTING);
            !CanStrand(p) &&
            forall ss: seq<State>, es, n :: Run(p, ss, es) && 0 <= n <= |es| && ss[n].main.Exited? ==> !ss[n].main.failed
  {
    var p := Params(order, Broker.ROUTING);
    forall i | 0 <= i < |order| ensures Routed(p, i) {
      Broker.EveryChannelIsRouted(order[i]);
    }
    StrandsIff(p);
    forall ss: seq<State>, es, n | Run(p, ss, es) && 0 <= n <= |es| && ss[n].main.Exited?
      ensures !ss[n].main.failed
    {
      HowItEnds(p, ss, es, n);
    }
  }

  // ---------------------------------------------------------------------
  // The function itself
  // ---------------------------------------------------------------------

  type WorkerMove = e: Event | ByWorker(e) witness Got(0)

  /** What the workers do meanwhile: before each launch, until the signal, and
      while the group is waited for. */
  datatype Script = Script(launching: seq<seq<WorkerMove>>, serving: seq<WorkerMove>, waiting: seq<WorkerMove>)

  /** Blocked: wg.Wait has not returned when the script ends. */
  datatype Outcome = Clean | Failed | Blocked

  /** Events attempted one after another: each is taken if it is possible when
      its turn comes and skipped otherwise. */
  datatype Plan = Start | Then(before: Plan, e: Event)

  function After(p: Params, plan: Plan): State {
    match plan
    case Start => START
    case Then(before, e) =>
      var s := After(p, before);
      if Enabled(p, s, e) then Step(p, s, e) else s
  }

  function Taken(p: Params, plan: Plan): seq<Event> {
    match plan
    case Start => []
    case Then(before, e) => Taken(p, before) + if Enabled(p, After(p, before), e) then [e] else []
  }

  /** The events taken form a run to where the plan leads. */
  lemma {:induction false} PlanIsRun(p: Params, plan: Plan) returns (ss: seq<State>)
    ensures Run(p, ss, Taken(p, plan)) && ss[|Taken(p, plan)|] == After(p, plan)
  {
    if plan.Start? {
      ss := [START];
    } else {
      ss := PlanIsRun(p, plan.before);
      if Enabled(p, After(p, plan.before), plan.e) {
        var es, t;
        ss, es, t := Extend(p, ss, Taken(p, plan.before), plan.e);
      }
    }
  }

  lemma PlanKeepsInv(p: Params, plan: Plan)
    ensures Inv(p, After(p, plan))
  {
    var ss := PlanIsRun(p, plan);
    ReachableInv(p, ss, Taken(p, plan), |Taken(p, plan)|);
  }

  function ThenAll(plan: Plan, moves: seq<Event>): Plan {
    if moves == [] then plan else Then(ThenAll(plan, moves[..|moves| - 1]), moves[|moves| - 1])
  }

  function LaunchPlan(moves: seq<seq<WorkerMove>>, n: nat): Plan {
    if n == 0 then Start
    else Then(ThenAll(LaunchPlan(moves, n - 1), MovesBefore(moves, n - 1)), Launch)
  }

  function StopPlan(plan: Plan, script: Script): Plan {
    var serving := ThenAll(Then(plan, AllLaunched), script.serving);
    Then(ThenAll(Then(Then(serving, Signal), CancelWorkers), script.waiting), WaitReturns)
  }

  function ClosePlan(plan: Plan, n: nat): Plan {
    if n == 0 then plan else Then(ClosePlan(plan, n - 1), CloseNext)
  }

  function LeavePlan(plan: Plan): Plan {
    Then(Then(plan, DeferredCancel), CloseDb)
  }

  /** Everything run and its workers attempt, in order. */
  function Schedule(p: Params, script: Script): Plan {
    if RoutedBelow(p, |p.order|) then
      var stopped := StopPlan(LaunchPlan(script.launching, |p.order|), script);
      LeavePlan(Then(ClosePlan(stopped, |p.order|), AllClosed))
    else
      LeavePlan(LaunchPlan(script.launching, FirstUnrouted(p, 0) + 1))
  }

  lemma {:induction false} FirstUnroutedIs(p: Params, n: nat, i: nat)
    requires n <= i < |p.order| && RoutedBelow(p, i) && !Routed(p, i)
    ensures RoutedBelow(p, n) && FirstUnrouted(p, n) == i
    decreases i - n
  {
    if n == i {
    } else {
      FirstUnroutedIs(p, n + 1, i);
    }
  }

  /** While the group is waited for nothing can be closed or left. */
  lemma {:induction false} NoCloseWhileWaiting(p: Params, plan: Plan, n: nat)
    requires After(p, plan).main.Waiting?
    ensures After(p, ClosePlan(plan, n)) == After(p, plan)
  {
    if n == 0 {
    } else {
      NoCloseWhileWaiting(p, plan, n - 1);
    }
  }

  lemma NoReturnWhileWaiting(p: Params, plan: Plan)
    requires After(p, plan).main.Waiting?
    ensures After(p, LeavePlan(Then(plan, AllClosed))) == After(p, plan)
  {
    assert After(p, Then(plan, AllClosed)) == After(p, plan);
    assert After(p, Then(Then(plan, AllClosed), DeferredCancel)) == After(p, plan);
  }

  function MovesBefore(moves: seq<seq<WorkerMove>>, i: nat): seq<WorkerMove> {
    if i < |moves| then moves[i] else []
  }

  class Supervisor {
    const p: Params
    var workers: seq<Pc>
    var wg: int
    var cancelled: bool
    var closed: set<nat>
    var dbClosed: bool

    constructor (p: Params)
      ensures this.p == p && View(Launching(0)) == START
    {
      this.p := p;
      workers := [];
      wg := 0;
      cancelled := false;
      closed := {};
      dbClosed := false;
    }

    function View(main: Main): State
      reads this
    {
      State(main, workers, wg, cancelled, closed, dbClosed)
    }

    /** The workers move; a move whose worker is elsewhere is skipped. */
    method Play(moves: seq<WorkerMove>, main: Main, ghost plan: Plan)
      requires View(main) == After(p, plan)
      modifies this`workers, this`wg
      ensures View(main) == After(p, ThenAll(plan, moves)) && |workers| == old(|workers|)
    {
      for i := 0 to |moves|
        invariant View(main) == After(p, ThenAll(plan, moves[..i])) && |workers| == old(|workers|)
      {
        assert moves[..i + 1][..i] == moves[..i];
        if Enabled(p, View(main), moves[i]) {
          var after := Step(p, View(main), moves[i]);
          workers, wg := after.workers, after.wg;
        }
      }
      assert moves[..|moves|] == moves;
    }

    /** run, from the loop over the senders to its return. It does what its
        schedule says, by PlanIsRun a run of the machine. */
    method Run(script: Script) returns (outcome: Outcome)
      requires View(Launching(0)) == START
      modifies this
      ensures View(if outcome.Blocked? then Waiting else Returned(outcome.Failed?)) == After(p, Schedule(p, script))
      ensures outcome.Failed? <==> !RoutedBelow(p, |p.order|)
      ensures outcome.Clean? ==> ClosedUpTo(closed, |workers|) && |workers| == |p.order|
                                 && forall w :: 0 <= w < |workers| ==> workers[w].Done?
      ensures outcome.Blocked? ==> wg > 0
      ensures !outcome.Clean? ==> closed == {}
      ensures dbClosed == !outcome.Blocked?
    {
      var launched; ghost var n;
      launched, n := LaunchAll(script.launching);
      if !launched {
        FirstUnroutedIs(p, 0, n);
        ghost var failing := LaunchPlan(script.launching, n + 1);
        PlanKeepsInv(p, failing);
        RunDeferred(true, failing);
        return Outcome.Failed;
      }
      ghost var plan := LaunchPlan(script.launching, |p.order|);
      PlanKeepsInv(p, plan);
      var stopped := StopAll(script, plan);
      plan := StopPlan(plan, script);
      if !stopped {
        NoCloseWhileWaiting(p, plan, |p.order|);
        NoReturnWhileWaiting(p, ClosePlan(plan, |p.order|));
        return Blocked;
      }
      CloseAll(plan);
      RunDeferred(false, Then(ClosePlan(plan, |workers|), AllClosed));
      outcome := Clean;
    }

    /** Signal, cancellation and wg.Wait. */
    method StopAll(script: Script, ghost plan: Plan) returns (stopped: bool)
      requires View(Launching(|p.order|)) == After(p, plan)
      modifies this`workers, this`wg, this`cancelled
      ensures View(if stopped then Closing(0) else Waiting) == After(p, StopPlan(plan, script))
      ensures stopped ==> forall w :: 0 <= w < |workers| ==> workers[w].Done?
      ensures !stopped ==> wg > 0
      ensures |workers| == |p.order| && closed == {} && !dbClosed
    {
      ghost var serving := Then(plan, AllLaunched);
      Play(script.serving, Serving, serving);
      serving := ThenAll(serving, script.serving);
      cancelled := true;
      ghost var waiting := Then(Then(serving, Signal), CancelWorkers);
      Play(script.waiting, Waiting, waiting);
      PlanKeepsInv(p, ThenAll(waiting, script.waiting));
      LiveZero(workers);
      stopped := wg == 0;
    }

    /** The deferred cancelWorkers and db.Close. */
    method RunDeferred(failed: bool, ghost plan: Plan)
      requires View(Returning(failed)) == After(p, plan)
      modifies this`cancelled, this`dbClosed
      ensures View(Returned(failed)) == After(p, LeavePlan(plan)) && dbClosed
    {
      assert After(p, Then(plan, DeferredCancel)) == After(p, plan).(main := ClosingDb(failed), cancelled := true);
      cancelled, dbClosed := true, true;
    }

    /** The loop that creates the consumers and starts the workers: n launches,
        all of them or up to the first that fails. */
    method LaunchAll(moves: seq<seq<WorkerMove>>) returns (launched: bool, ghost n: nat)
      requires View(Launching(0)) == START
      modifies this`workers, this`wg
      ensures launched <==> RoutedBelow(p, |p.order|)
      ensures !launched ==> n < |p.order| && RoutedBelow(p, n) && !Routed(p, n)
      ensures View(if launched then Launching(|p.order|) else Returning(true)) ==
              After(p, LaunchPlan(moves, if launched then |p.order| else n + 1))
    {
      launched, n := LaunchLoop(moves);
      PlanKeepsInv(p, LaunchPlan(moves, if launched then |p.order| else n + 1));
    }

    method LaunchLoop(moves: seq<seq<WorkerMove>>) returns (launched: bool, ghost n: nat)
      requires View(Launching(0)) == START
      modifies this`workers, this`wg
      ensures !launched ==> n == |workers| < |p.order|
      ensures View(if launched then Launching(|p.order|) else Returning(true)) ==
              After(p, LaunchPlan(moves, if launched then |p.order| else n + 1))
    {
      for i := 0 to |p.order|
        invariant |workers| == i
        invariant View(Launching(i)) == After(p, LaunchPlan(moves, i))
      {
        launched := LaunchOne(MovesBefore(moves, i), i, LaunchPlan(moves, i));
        if !launched {
          n := i;
          return;
        }
      }
      launched, n := true, |p.order|;
    }

    /** Its body. */
    method LaunchOne(moves: seq<WorkerMove>, i: nat, ghost plan: Plan) returns (ok: bool)
      requires i < |p.order| && View(Launching(i)) == After(p, plan)
      modifies this`workers, this`wg
      ensures |workers| == old(|workers|) + if ok then 1 else 0
      ensures View(if ok then Launching(i + 1) else Returning(true)) == After(p, Then(ThenAll(plan, moves), Launch))
    {
      Play(moves, Launching(i), plan);
      ok := Routed(p, i);
      if ok {
        workers := workers + [Reading];
        wg := wg + 1;
      }
    }

    /** The loop that closes the consumers. */
    method CloseAll(ghost plan: Plan)
      requires View(Closing(0)) == After(p, plan) && closed == {}
      modifies this`closed
      ensures View(Returning(false)) == After(p, Then(ClosePlan(plan, |workers|), AllClosed))
      ensures ClosedUpTo(closed, |workers|)
    {
      CloseLoop(plan);
      PlanKeepsInv(p, ClosePlan(plan, |workers|));
    }

    method CloseLoop(ghost plan: Plan)
      requires View(Closing(0)) == After(p, plan)
      modifies this`closed
      ensures View(Closing(|workers|)) == After(p, ClosePlan(plan, |workers|))
    {
      for i := 0 to |workers|
        invariant View(Closing(i)) == After(p, ClosePlan(plan, i))
      {
        closed := closed + {i};
      }
    }
  }
}
