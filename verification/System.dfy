/** The two processes together: concurrent requests of the server, and K
    workers that consume the topic the requests publish to, over one database. */
module System {
  import opened Domain
  import opened Store
  import C = CacheProtocol
  import L = RateProtocol
  import A = ApiProtocol
  import ApiLaws
  import Identity
  import D = Delivery
  import DeliveryLaws
  import Sets

  datatype Params = Params(api: A.Params, maxAttempts: int)

  datatype State = State(api: A.State, delivery: D.State)

  datatype Event = Api(request: A.Event) | Work(step: D.Event)

  /** Some message of the topic is about this notification. */
  predicate Announced(a: A.State, id: Id) {
    exists k :: 0 <= k < |a.topic| && Identity.About(a.topic[k], id)
  }

  /** A worker can only be handed a message of the topic: any of them, any
      number of times. */
  ghost predicate Enabled(p: Params, s: State, e: Event) {
    match e
    case Api(request) => A.Enabled(s.api, request)
    case Work(step) =>
      D.Enabled(p.maxAttempts, s.delivery, step) && (step.Receive? ==> Announced(s.api, step.n))
  }

  ghost function Step(p: Params, s: State, e: Event): State
    requires Enabled(p, s, e)
  {
    match e
    case Api(request) => s.(api := A.Step(p.api, s.api, request))
    case Work(step) => s.(delivery := D.Step(p.maxAttempts, s.delivery, step))
  }

  ghost predicate Next(p: Params, s: State, e: Event, t: State) {
    Enabled(p, s, e) && t == Step(p, s, e)
  }

  ghost predicate Init(p: Params, s: State) {
    A.Init(p.api, s.api) && D.Init(s.delivery)
  }

  ghost predicate Run(p: Params, ss: seq<State>, es: seq<Event>) {
    |ss| == |es| + 1 && forall i :: 0 <= i < |es| ==> Next(p, ss[i], es[i], ss[i + 1])
  }

  // ---------------------------------------------------------------------
  // Whatever the workers hold came from the topic
  // ---------------------------------------------------------------------

  function LateNotification(late: D.Late): Id {
    if late.LateInsert? then late.log.notificationId else late.n
  }

  ghost predicate Traced(s: State) {
    && (forall w :: 0 <= w < |s.delivery.pcs| && !s.delivery.pcs[w].Idle? ==> Announced(s.api, s.delivery.pcs[w].n))
    && (forall row :: row in s.delivery.late ==> Announced(s.api, LateNotification(s.delivery.late[row])))
    && (forall row :: row in s.delivery.logs ==> Announced(s.api, s.delivery.logs[row].notificationId))
    && (forall k :: 0 <= k < |s.delivery.sends| ==> Announced(s.api, s.delivery.sends[k].n))
  }

  ghost predicate Inv(p: Params, s: State) {
    ApiLaws.Inv(p.api, s.api) && D.Inv(s.delivery) && Traced(s)
  }

  lemma RequestsKeepTraces(p: Params, s: State, e: A.Event)
    requires Traced(s) && A.Enabled(s.api, e)
    ensures Traced(Step(p, s, Api(e)))
  {
    var t := Step(p, s, Api(e));
    TopicGrows(p.api, s.api, e);
    assert t.delivery == s.delivery;
    forall id | Announced(s.api, id) ensures Announced(t.api, id) {
      AnnouncedStays(s.api, t.api, id);
    }
  }

  lemma AnnouncedStays(a: A.State, b: A.State, id: Id)
    requires a.topic <= b.topic && Announced(a, id)
    ensures Announced(b, id)
  {
    var k :| 0 <= k < |a.topic| && Identity.About(a.topic[k], id);
    assert b.topic[k] == a.topic[k];
  }

  lemma TopicGrows(p: A.Params, a: A.State, e: A.Event)
    requires A.Enabled(a, e)
    ensures a.topic <= A.Step(p, a, e).topic
  {
  }

  lemma WorkersKeepTraces(p: Params, s: State, e: D.Event)
    requires Traced(s) && Enabled(p, s, Work(e))
    ensures Traced(Step(p, s, Work(e)))
  {
    PcsKeepTraces(p, s, e);
    LateKeepTraces(p, s, e);
    LogsKeepTraces(p, s, e);
    SendsKeepTraces(p, s, e);
  }

  lemma PcsKeepTraces(p: Params, s: State, e: D.Event)
    requires Traced(s) && Enabled(p, s, Work(e))
    ensures var d := D.Step(p.maxAttempts, s.delivery, e);
            forall w :: 0 <= w < |d.pcs| && !d.pcs[w].Idle? ==> Announced(s.api, d.pcs[w].n)
  {
  }

  lemma LateKeepTraces(p: Params, s: State, e: D.Event)
    requires Traced(s) && Enabled(p, s, Work(e))
    ensures var d := D.Step(p.maxAttempts, s.delivery, e);
            forall row :: row in d.late ==> Announced(s.api, LateNotification(d.late[row]))
  {
  }

  lemma LogsKeepTraces(p: Params, s: State, e: D.Event)
    requires Traced(s) && Enabled(p, s, Work(e))
    ensures var d := D.Step(p.maxAttempts, s.delivery, e);
            forall row :: row in d.logs ==> Announced(s.api, d.logs[row].notificationId)
  {
  }

  lemma SendsKeepTraces(p: Params, s: State, e: D.Event)
    requires Traced(s) && Enabled(p, s, Work(e))
    ensures var d := D.Step(p.maxAttempts, s.delivery, e);
            forall k :: 0 <= k < |d.sends| ==> Announced(s.api, d.sends[k].n)
  {
  }

  lemma StepKeepsInv(p: Params, s: State, e: Event)
    requires Inv(p, s) && Enabled(p, s, e)
    ensures Inv(p, Step(p, s, e))
  {
    match e
    case Api(request) =>
      ApiLaws.StepKeepsInv(p.api, s.api, request);
      RequestsKeepTraces(p, s, request);
    case Work(step) =>
      D.StepKeepsInv(p.maxAttempts, s.delivery, step);
      WorkersKeepTraces(p, s, step);
  }

  lemma {:induction false} ReachableInv(p: Params, ss: seq<State>, es: seq<Event>, n: nat)
    requires Run(p, ss, es) && Init(p, ss[0]) && n <= |es|
    ensures Inv(p, ss[n])
  {
    if n == 0 {
    } else {
      ReachableInv(p, ss, es, n - 1);
      assert Next(p, ss[n - 1], es[n - 1], ss[n]);
      StepKeepsInv(p, ss[n - 1], es[n - 1]);
    }
  }

  // ---------------------------------------------------------------------
  // Foreign keys
  // ---------------------------------------------------------------------

  lemma AnnouncedIsSaved(p: A.Params, a: A.State, id: Id)
    requires ApiLaws.Inv(p, a) && Announced(a, id)
    ensures id in a.notifications
  {
  }

  /** The row an event would insert into delivery_logs, whether or not the
      statement then reaches the database. */
  function Inserts(s: D.State, e: D.Event): Option<DeliveryLog> {
    if e.LateApply? then
      if e.row in s.late && s.late[e.row].LateInsert? then Some(s.late[e.row].log) else None
    else if (e.Insert? || e.Crash?) && e.w < |s.pcs| && s.pcs[e.w].Inserting? then
      Some(D.NewLog(s.pcs[e.w], e.channel, e.at))
    else None
  }

  /** Insert never violates a constraint of delivery_logs: in every run its id
      is new and its notification has been saved. So it fails on faults only. */
  lemma InsertsAreLegal(p: Params, ss: seq<State>, es: seq<Event>, i: nat)
    requires Run(p, ss, es) && Init(p, ss[0]) && i < |es| && es[i].Work?
    ensures var row := Inserts(ss[i].delivery, es[i].step);
            row.Some? ==> CanInsert(ss[i].delivery.logs, ss[i].api.notifications, row.value)
  {
    ReachableInv(p, ss, es, i);
    assert Next(p, ss[i], es[i], ss[i + 1]);
    var s, row := ss[i].delivery, Inserts(ss[i].delivery, es[i].step);
    if row.Some? {
      AnnouncedIsSaved(p.api, ss[i].api, row.value.notificationId);
      if !es[i].step.LateApply? {
        assert D.WorkerHolds(s, s.pcs[es[i].step.w]);
      }
    }
  }

  /** Every delivery_logs row and every Send refers to a saved notification. */
  lemma EverythingIsSaved(p: Params, ss: seq<State>, es: seq<Event>, n: nat)
    requires Run(p, ss, es) && Init(p, ss[0]) && n <= |es|
    ensures forall row :: row in ss[n].delivery.logs ==>
              ss[n].delivery.logs[row].notificationId in ss[n].api.notifications
    ensures forall k :: 0 <= k < |ss[n].delivery.sends| ==>
              ss[n].delivery.sends[k].n in ss[n].api.notifications
  {
    ReachableInv(p, ss, es, n);
    forall id | Announced(ss[n].api, id) ensures id in ss[n].api.notifications {
      AnnouncedIsSaved(p.api, ss[n].api, id);
    }
  }

  // ---------------------------------------------------------------------
  // The server's laws carry over: a worker's step is no step of the server
  // ---------------------------------------------------------------------

  function ApiEvents(es: seq<Event>): seq<A.Event> {
    seq(|es|, i requires 0 <= i < |es| => if es[i].Api? then es[i].request else A.Env(C.Tick(0)))
  }

  function ApiStates(ss: seq<State>): seq<A.State> {
    seq(|ss|, i requires 0 <= i < |ss| => ss[i].api)
  }

  lemma ApiRun(p: Params, ss: seq<State>, es: seq<Event>)
    requires Run(p, ss, es)
    ensures A.Run(p.api, ApiStates(ss), ApiEvents(es))
  {
  }

  /** Behind every successful Send stands the one message of its notification,
      perhaps in several copies, and preferences that the database really held for that user, that allowed
      its channel, and that were no staler at the gate than the cache lifetime
      plus the delay of the fill they came from. */
  lemma SendsWereGated(p: Params, ss: seq<State>, es: seq<Event>, n: nat, i: nat)
    returns (k: nat, prefs: Preferences, j: nat, m: nat)
    requires Run(p, ss, es) && Init(p, ss[0]) && n <= |es| && i < |ss[n].delivery.sends|
    ensures k < |ss[n].api.topic| && Identity.About(ss[n].api.topic[k], ss[n].delivery.sends[i].n)
    ensures forall k' :: 0 <= k' < |ss[n].api.topic| && Identity.About(ss[n].api.topic[k'], ss[n].delivery.sends[i].n)
              ==> ss[n].api.topic[k'] == ss[n].api.topic[k]
    ensures j < m < n && exists l :: ApiLaws.Fills(ApiEvents(es), j, m, l)
    ensures var msg, gate := ss[n].api.topic[k].message.value.n, A.PrefsLookup(ss[n].api.topic[k].request);
            && SelectPrefs(ss[j].api.cache.db, msg.userId) == Ok(prefs) && A.IsChannelEnabled(msg.channel, prefs)
            && ApiLaws.ChannelOn(ss[j].api.cache.db, msg.userId, msg.channel)
            && A.HasAnswer(ss[n].api.cache, gate)
            && ss[j].api.cache.now <= ss[n].api.cache.lookups[gate].phase.at < p.api.ttl + ss[m].api.cache.now
  {
    k := MessageOfSend(p, ss, es, n, i);
    ApiRun(p, ss, es);
    var user, j', m';
    prefs, j, m, user, j', m' := ApiLaws.PublishedWasGated(p.api, ApiStates(ss), ApiEvents(es), n, k);
  }

  lemma MessageOfSend(p: Params, ss: seq<State>, es: seq<Event>, n: nat, i: nat) returns (k: nat)
    requires Run(p, ss, es) && Init(p, ss[0]) && n <= |es| && i < |ss[n].delivery.sends|
    ensures k < |ss[n].api.topic| && Identity.About(ss[n].api.topic[k], ss[n].delivery.sends[i].n)
    ensures forall k' :: 0 <= k' < |ss[n].api.topic| && Identity.About(ss[n].api.topic[k'], ss[n].delivery.sends[i].n)
              ==> ss[n].api.topic[k'] == ss[n].api.topic[k]
  {
    ReachableInv(p, ss, es, n);
    var id := ss[n].delivery.sends[i].n;
    var at: int :| 0 <= at < |ss[n].api.topic| && Identity.About(ss[n].api.topic[at], id);
    k := at;
    ApiRun(p, ss, es);
    forall k' | 0 <= k' < |ss[n].api.topic| && Identity.About(ss[n].api.topic[k'], id)
      ensures ss[n].api.topic[k'] == ss[n].api.topic[k]
    {
      Identity.OneMessagePerNotification(p.api, ApiStates(ss), ApiEvents(es), n, id, k', k);
    }
  }

  // ---------------------------------------------------------------------
  // Deliveries happen
  // ---------------------------------------------------------------------

  lemma ExtendWork(p: Params, ss: seq<State>, es: seq<Event>, e: D.Event) returns (ss': seq<State>, es': seq<Event>, d: D.State)
    requires Run(p, ss, es) && Enabled(p, ss[|es|], Work(e))
    ensures d == D.Step(p.maxAttempts, ss[|es|].delivery, e)
    ensures ss' == ss + [State(ss[|es|].api, d)] && es' == es + [Work(e)] && Run(p, ss', es')
  {
    d := D.Step(p.maxAttempts, ss[|es|].delivery, e);
    ss', es' := ss + [State(ss[|es|].api, d)], es + [Work(e)];
  }

  /** Whatever has happened so far, a message of the topic that has not been
      recorded as sent can be handed to any idle worker, which then delivers it
      and records that, once. */
  lemma MessageCanBeDelivered(p: Params, ss: seq<State>, es: seq<Event>, w: D.Worker, n: Id, row: Id, channel: Channel, at: int)
    returns (ss': seq<State>, es': seq<Event>)
    requires Run(p, ss, es) && p.maxAttempts >= 1
    requires w < |ss[|es|].delivery.pcs| && ss[|es|].delivery.pcs[w] == D.Idle && row !in ss[|es|].delivery.used
    requires Announced(ss[|es|].api, n)
    requires forall id :: id in ss[|es|].delivery.logs && ss[|es|].delivery.logs[id].notificationId == n ==>
               ss[|es|].delivery.logs[id].status != Status.Sent
    ensures Run(p, ss', es') && ss <= ss' && es <= es'
    ensures var s, t := ss[|es|].delivery, ss'[|es'|].delivery;
            && t.sends == s.sends + [D.Delivered(row, n)] && t.pcs == s.pcs
            && t.logs == s.logs[row := DeliveryLog(row, n, channel, 1, Status.Sent, "", at)]
  {
    var d;
    var s := ss[|es|].delivery;
    ss', es' := MessageCanBeTaken(p, ss, es, w, n, row, channel, at);
    ss', es', d := ExtendWork(p, ss', es', D.SendOk(w));
    assert d.pcs == s.pcs[w := D.Acking(n, row)];
    ss', es', d := ExtendWork(p, ss', es', D.Update(w, Fine));
  }

  lemma MessageCanBeTaken(p: Params, ss: seq<State>, es: seq<Event>, w: D.Worker, n: Id, row: Id, channel: Channel, at: int)
    returns (ss': seq<State>, es': seq<Event>)
    requires Run(p, ss, es) && p.maxAttempts >= 1
    requires w < |ss[|es|].delivery.pcs| && ss[|es|].delivery.pcs[w] == D.Idle && row !in ss[|es|].delivery.used
    requires Announced(ss[|es|].api, n) && !SentExists(ss[|es|].delivery.logs, n)
    ensures Run(p, ss', es') && ss <= ss' && es <= es'
    ensures var s, t := ss[|es|].delivery, ss'[|es'|].delivery;
            && t.sends == s.sends && t.pcs == s.pcs[w := D.Sending(n, row, 1)]
            && t.logs == s.logs[row := DeliveryLog(row, n, channel, 1, Pending, "", at)]
  {
    var d;
    var s := ss[|es|].delivery;
    ss', es', d := ExtendWork(p, ss, es, D.Receive(w, n));
    ss', es', d := ExtendWork(p, ss', es', D.Check(w, Fine, row));
    assert d.pcs == s.pcs[w := D.Inserting(n, row)] && d.logs == s.logs;
    ss', es', d := ExtendWork(p, ss', es', D.Insert(w, Fine, channel, at));
  }

  // ---------------------------------------------------------------------
  // How often one user can be reached
  // ---------------------------------------------------------------------

  /** The workers' events of a run, in order. */
  function WorkEvents(es: seq<Event>): seq<D.Event> {
    if es == [] then []
    else
      var e := es[|es| - 1];
      WorkEvents(es[..|es| - 1]) + if e.Work? then [e.step] else []
  }

  /** Each of the first n states shows the workers as they are after as many of
      their events as precede it. */
  ghost predicate Shows(ss: seq<State>, es: seq<Event>, n: nat, ds: seq<D.State>) {
    n <= |es| < |ss| &&
    forall i :: 0 <= i <= n ==> |WorkEvents(es[..i])| < |ds| && ds[|WorkEvents(es[..i])|] == ss[i].delivery
  }

  /** The workers' steps alone are a run of the delivery protocol: its events
      are theirs in order, and each state of the system shows the protocol's
      state after as many of them. So the laws of that protocol carry over. */
  lemma {:induction false} WorkRun(p: Params, ss: seq<State>, es: seq<Event>, n: nat) returns (ds: seq<D.State>)
    requires Run(p, ss, es) && Init(p, ss[0]) && n <= |es|
    ensures D.Run(p.maxAttempts, ds, WorkEvents(es[..n])) && D.Init(ds[0])
    ensures Shows(ss, es, n, ds)
  {
    if n == 0 {
      ds := [ss[0].delivery];
    } else {
      var before := WorkRun(p, ss, es, n - 1);
      ds := OneMoreWork(p, ss, es, n, before);
      ShowsMore(ss, es, n, before, ds);
    }
  }

  lemma ShowsMore(ss: seq<State>, es: seq<Event>, n: nat, before: seq<D.State>, ds: seq<D.State>)
    requires 1 <= n <= |es| < |ss| && Shows(ss, es, n - 1, before) && before <= ds
    requires |ds| == |WorkEvents(es[..n])| + 1 && ds[|ds| - 1] == ss[n].delivery
    ensures Shows(ss, es, n, ds)
  {
  }

  lemma OneMoreWork(p: Params, ss: seq<State>, es: seq<Event>, n: nat, before: seq<D.State>)
    returns (ds: seq<D.State>)
    requires Run(p, ss, es) && 1 <= n <= |es| && Shows(ss, es, n - 1, before)
    requires D.Run(p.maxAttempts, before, WorkEvents(es[..n - 1]))
    ensures before <= ds && ds[|ds| - 1] == ss[n].delivery
    ensures D.Run(p.maxAttempts, ds, WorkEvents(es[..n]))
  {
    var des, e := WorkEvents(es[..n - 1]), es[n - 1];
    assert es[..n][..n - 1] == es[..n - 1];
    assert before[|des|] == ss[n - 1].delivery;
    assert Next(p, ss[n - 1], e, ss[n]);
    if e.Work? {
      var t, des';
      ds, des', t := D.Extend(p.maxAttempts, before, des, e.step);
    } else {
      ds := before;
      assert WorkEvents(es[..n]) == des;
    }
  }

  /** Where an event of the workers stands among them. */
  lemma {:induction false} WorkAt(es: seq<Event>, i: nat, n: nat)
    requires i < n <= |es| && es[i].Work?
    ensures |WorkEvents(es[..i])| < |WorkEvents(es[..n])|
    ensures WorkEvents(es[..n])[|WorkEvents(es[..i])|] == es[i].step
  {
    assert es[..n][..n - 1] == es[..n - 1];
    if i == n - 1 {
    } else {
      WorkAt(es, i, n - 1);
    }
  }

  lemma WorkGrows(es: seq<Event>, i: nat, j: nat)
    requires i <= j <= |es|
    ensures |WorkEvents(es[..i])| <= |WorkEvents(es[..j])|
  {
    if i == j {
    } else {
      assert es[..j][..j - 1] == es[..j - 1];
      WorkGrows(es, i, j - 1);
    }
  }

  /** The K-worker bound of the delivery protocol, with the workers fed from
      the topic. */
  lemma DeliveryBound(p: Params, ss: seq<State>, es: seq<Event>, i: nat, n: Id)
    requires Run(p, ss, es) && Init(p, ss[0]) && i <= |es|
    ensures var s := ss[i].delivery;
            DeliveryLaws.Sends(s.sends, n) <= |ss[0].delivery.pcs| + |DeliveryLaws.Unconfirmed(s, n)|
  {
    var ds := WorkRun(p, ss, es, i);
    assert es[..0] == [];
    DeliveryLaws.DeliveryBound(p.maxAttempts, ds, WorkEvents(es[..i]), |WorkEvents(es[..i])|, n);
  }

  /** Once a row is marked sent, no later check by any worker, whatever it was
      fed, leads to an insert or a Send of that notification. */
  lemma LaterChecksSkip(p: Params, ss: seq<State>, es: seq<Event>, i: nat, j: nat, row: Id)
    requires Run(p, ss, es) && Init(p, ss[0]) && i <= j < |es|
    requires row in ss[i].delivery.logs && ss[i].delivery.logs[row].status.Sent?
    requires es[j].Work? && es[j].step.Check? && es[j].step.w < |ss[j].delivery.pcs|
    requires ss[j].delivery.pcs[es[j].step.w] == D.Checking(ss[i].delivery.logs[row].notificationId)
    ensures ss[j + 1].delivery == D.Goto(ss[j].delivery, es[j].step.w, D.Idle)
    ensures row in ss[j + 1].delivery.logs && ss[j + 1].delivery.logs[row] == ss[i].delivery.logs[row]
  {
    var ds := WorkRun(p, ss, es, |es|);
    assert es[..|es|] == es;
    WorkGrows(es, i, j);
    WorkAt(es, j, |es|);
    var a, b := |WorkEvents(es[..i])|, |WorkEvents(es[..j])|;
    DeliveryLaws.LaterChecksSkip(p.maxAttempts, ds, WorkEvents(es), a, b, row);
    DeliveryLaws.IdempotencyIsPermanent(p.maxAttempts, ds, WorkEvents(es), a, b, row);
    assert Next(p, ss[j], es[j], ss[j + 1]);
    assert D.StepAt(p.maxAttempts, ds, WorkEvents(es), b);
  }

  /** Successful Sends of any of these notifications. */
  ghost function SendsTo(s: D.State, ids: set<Id>): set<int> {
    set k | 0 <= k < |s.sends| && s.sends[k].n in ids
  }

  /** Rows of any of them whose acknowledgement was lost or left in flight. */
  ghost function UnconfirmedTo(s: D.State, ids: set<Id>): set<Id> {
    set row | row in s.lost + s.abandoned && row in s.logs && s.logs[row].notificationId in ids
  }

  lemma {:induction false} SendsAreCounted(s: D.State, n: Id)
    ensures |SendsTo(s, {n})| == DeliveryLaws.Sends(s.sends, n)
    decreases s.sends
  {
    var all := SendsTo(s, {n});
    if s.sends == [] {
      assert all == {};
    } else {
      var last := |s.sends| - 1;
      var before := s.(sends := s.sends[..last]);
      SendsAreCounted(before, n);
      assert all - {last} == SendsTo(before, {n});
      Sets.Toggle(SendsTo(before, {n}), all, last);
    }
  }

  lemma SplitSends(s: D.State, ids: set<Id>, n: Id)
    requires n in ids
    ensures |SendsTo(s, ids)| == |SendsTo(s, ids - {n})| + DeliveryLaws.Sends(s.sends, n)
  {
    SendsAreCounted(s, n);
    assert SendsTo(s, ids) == SendsTo(s, ids - {n}) + SendsTo(s, {n});
  }

  lemma SplitRows(s: D.State, ids: set<Id>, n: Id)
    requires n in ids
    ensures |UnconfirmedTo(s, ids)| == |UnconfirmedTo(s, ids - {n})| + |DeliveryLaws.Unconfirmed(s, n)|
  {
    assert UnconfirmedTo(s, ids) == UnconfirmedTo(s, ids - {n}) + DeliveryLaws.Unconfirmed(s, n);
  }

  lemma {:induction false} SendsToMany(p: Params, ss: seq<State>, es: seq<Event>, i: nat, ids: set<Id>)
    requires Run(p, ss, es) && Init(p, ss[0]) && i <= |es|
    ensures var s := ss[i].delivery;
            |SendsTo(s, ids)| <= |ss[0].delivery.pcs| * |ids| + |UnconfirmedTo(s, ids)|
  {
    var s, workers := ss[i].delivery, |ss[0].delivery.pcs|;
    if n :| n in ids {
      SendsToMany(p, ss, es, i, ids - {n});
      DeliveryBound(p, ss, es, i, n);
      SplitSends(s, ids, n);
      SplitRows(s, ids, n);
      assert |ids| == |ids - {n}| + 1;
      assert workers * |ids| == workers * |ids - {n}| + workers;
    } else {
      assert SendsTo(s, ids) == {};
    }
  }

  /** The notifications published for the watched user and channel on the
      strength of error-free rate checks made in [from, from + window). */
  ghost function Admitted(p: Params, s: State, from: int): set<Id> {
    set k | 0 <= k < |s.api.topic| && s.api.topic[k].request in ApiLaws.PublishedWithin(p.api, s.api, from)
      :: NotificationAt(s.api, k)
  }

  function NotificationAt(a: A.State, k: int): Id
    requires 0 <= k < |a.topic|
  {
    if a.topic[k].message.value.Json? then a.topic[k].message.value.n.id else ""
  }

  /** What a request has published. */
  ghost function PublishedBy(a: A.State, r: A.ReqId): Id {
    if k :| 0 <= k < |a.topic| && a.topic[k].request == r then NotificationAt(a, k) else ""
  }

  lemma PublishedOnce(a: A.State, k: nat)
    requires ApiLaws.TopicOk(a) && k < |a.topic|
    ensures PublishedBy(a, a.topic[k].request) == NotificationAt(a, k)
  {
  }

  /** Each request has published one notification. */
  lemma AdmittedBound(p: Params, s: State, from: int)
    requires ApiLaws.TopicOk(s.api)
    ensures |Admitted(p, s, from)| <= |ApiLaws.PublishedWithin(p.api, s.api, from)|
  {
    var requests := ApiLaws.PublishedWithin(p.api, s.api, from);
    forall id | id in Admitted(p, s, from) ensures exists r :: r in requests && PublishedBy(s.api, r) == id {
      var k :| 0 <= k < |s.api.topic| && s.api.topic[k].request in requests && NotificationAt(s.api, k) == id;
      PublishedOnce(s.api, k);
    }
    Sets.CoveredSize(Admitted(p, s, from), requests, r => PublishedBy(s.api, r));
  }

  lemma AdmissionBound(p: Params, ss: seq<State>, es: seq<Event>, n: nat, from: int)
    requires Run(p, ss, es) && Init(p, ss[0]) && n <= |es|
    ensures |Admitted(p, ss[n], from)| <= if p.api.limit >= 1 then 2 * p.api.limit - 1 else 0
  {
    ApiRun(p, ss, es);
    ApiLaws.PublishRateBound(p.api, ApiStates(ss), ApiEvents(es), n, from);
    ReachableInv(p, ss, es, n);
    AdmittedBound(p, ss[n], from);
  }

  /** End to end, K workers and a limit of L let one user and channel be
      reached at most K * (2L - 1) times by what one window admitted, plus one
      Send for each of these notifications' own acknowledgements that was lost
      or left in flight. */
  lemma SendRateBound(p: Params, ss: seq<State>, es: seq<Event>, n: nat, from: int)
    requires Run(p, ss, es) && Init(p, ss[0]) && n <= |es|
    ensures var s, ids := ss[n].delivery, Admitted(p, ss[n], from);
            |SendsTo(s, ids)| <=
              |ss[0].delivery.pcs| * (if p.api.limit >= 1 then 2 * p.api.limit - 1 else 0) + |UnconfirmedTo(s, ids)|
  {
    var ids, workers := Admitted(p, ss[n], from), |ss[0].delivery.pcs|;
    var bound := if p.api.limit >= 1 then 2 * p.api.limit - 1 else 0;
    AdmissionBound(p, ss, es, n, from);
    SendsToMany(p, ss, es, n, ids);
    assert workers * |ids| <= workers * bound;
  }
}
