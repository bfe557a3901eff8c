/** worker.Worker: process and the read loop, each tied to the protocol. */
module Worker {
  import opened Domain
  import opened Store
  import Broker
  import D = Delivery
  import Retry

  /** What the environment decides during one call of process. */
  datatype Fate = Fate(onCheck: Fault, logId: Id, at: int, onInsert: Fault, retry: Retry.Env, onUpdate: Fault)

  /** The error text that is stored with a failed row. */
  function ErrorText(out: Retry.Outcome): string {
    match out
    case Success => ""
    case Cancelled(_) => "retry cancelled"
    case Exhausted(_, last) => "max retries exceeded: " + (match last case Some(e) => e case None => "<nil>")
  }

  /** Steps of this worker alone. */
  ghost predicate OwnEvents(es: seq<D.Event>, w: D.Worker) {
    forall i :: 0 <= i < |es| ==> !es[i].LateApply? && !es[i].LateDrop? && es[i].w == w
  }

  // ---------------------------------------------------------------------
  // A retry trace as protocol events
  // ---------------------------------------------------------------------

  const MAX := Retry.DEFAULT_CONFIG.maxAttempts

  function EventFor(w: D.Worker, e: Retry.Event, text: string): D.Event {
    match e
    case Called(_, None) => D.SendOk(w)
    case Called(_, Some(_)) => D.SendErr(w, text)
    case Waited(_, _, fired) => if fired then D.Timer(w) else D.Cancel(w, text)
  }

  /** Where the worker stands after an event of its retry loop. */
  function PcAfter(n: Id, row: Id, e: Retry.Event, text: string): D.Pc {
    match e
    case Called(_, None) => D.Acking(n, row)
    case Called(a, Some(_)) => if a >= MAX then D.Failing(n, row, text) else D.BackingOff(n, row, a)
    case Waited(a, _, fired) => if fired then D.Sending(n, row, a + 1) else D.Failing(n, row, text)
  }

  /** Before each event the worker stands where that event can happen. */
  lemma TraceIsPlayable(huge: int64, trace: seq<Retry.Event>, out: Retry.Outcome, k: nat, n: Id, row: Id)
    requires Retry.Admissible(Retry.DEFAULT_CONFIG, huge, trace, out) && k < |trace|
    ensures var pc := if k == 0 then D.Sending(n, row, 1) else PcAfter(n, row, trace[k - 1], ErrorText(out));
            match trace[k]
            case Called(a, _) => a <= MAX && pc == D.Sending(n, row, a)
            case Waited(a, _, _) => a < MAX && pc == D.BackingOff(n, row, a)
  {
  }

  /** The state after the first k events of the trace. */
  function Played(s: D.State, w: D.Worker, n: Id, row: Id, trace: seq<Retry.Event>, k: nat, text: string): D.State
    requires w < |s.pcs| && k <= |trace|
  {
    if k == 0 then s
    else
      var pc := PcAfter(n, row, trace[k - 1], text);
      D.Goto(s, w, pc).(sends := if pc.Acking? then s.sends + [D.Delivered(row, n)] else s.sends)
  }

  lemma PlayEvent(huge: int64, trace: seq<Retry.Event>, out: Retry.Outcome, k: nat,
                  s: D.State, w: D.Worker, n: Id, row: Id)
    requires Retry.Admissible(Retry.DEFAULT_CONFIG, huge, trace, out) && k < |trace|
    requires w < |s.pcs| && s.pcs[w] == D.Sending(n, row, 1)
    ensures var before, e := Played(s, w, n, row, trace, k, ErrorText(out)), EventFor(w, trace[k], ErrorText(out));
            && D.Enabled(MAX, before, e)
            && D.Step(MAX, before, e) == Played(s, w, n, row, trace, k + 1, ErrorText(out))
  {
    TraceIsPlayable(huge, trace, out, k, n, row);
    var text := ErrorText(out);
    var before := Played(s, w, n, row, trace, k, text);
    assert before.sends == s.sends;
    assert before.pcs[w := PcAfter(n, row, trace[k], text)] == s.pcs[w := PcAfter(n, row, trace[k], text)];
  }

  /** States and events that match step by step form a run. */
  lemma StepsFormRun(state: nat -> D.State, event: nat -> D.Event, m: nat)
    returns (ss: seq<D.State>, es: seq<D.Event>)
    requires forall k: nat :: k < m ==> D.Next(MAX, state(k), event(k), state(k + 1))
    ensures D.Run(MAX, ss, es) && |es| == m && ss[0] == state(0) && ss[m] == state(m)
    ensures forall k :: 0 <= k < m ==> es[k] == event(k)
  {
    ss, es := seq(m + 1, k requires 0 <= k => state(k)), seq(m, k requires 0 <= k => event(k));
  }

  ghost predicate Playable(s: D.State, w: D.Worker, n: Id, row: Id, trace: seq<Retry.Event>, text: string)
    requires w < |s.pcs|
  {
    forall k: nat :: k < |trace| ==>
      D.Next(MAX, Played(s, w, n, row, trace, k, text), EventFor(w, trace[k], text),
             Played(s, w, n, row, trace, k + 1, text))
  }

  /** Every trace of retry.Do is a run of the protocol's send phase, so the
      protocol's attempts are exactly those of the retry loop. */
  lemma Replay(huge: int64, trace: seq<Retry.Event>, out: Retry.Outcome, s: D.State, w: D.Worker, n: Id, row: Id)
    returns (ss: seq<D.State>, es: seq<D.Event>)
    requires Retry.Admissible(Retry.DEFAULT_CONFIG, huge, trace, out)
    requires w < |s.pcs| && s.pcs[w] == D.Sending(n, row, 1)
    ensures D.Run(MAX, ss, es) && ss[0] == s && |es| == |trace|
    ensures forall i :: 0 <= i < |es| ==> es[i] == EventFor(w, trace[i], ErrorText(out))
    ensures ss[|es|] == Played(s, w, n, row, trace, |trace|, ErrorText(out))
  {
    forall k: nat | k < |trace|
      ensures D.Next(MAX, Played(s, w, n, row, trace, k, ErrorText(out)), EventFor(w, trace[k], ErrorText(out)),
                     Played(s, w, n, row, trace, k + 1, ErrorText(out)))
    {
      PlayEvent(huge, trace, out, k, s, w, n, row);
    }
    ss, es := PlayAll(s, w, n, row, trace, ErrorText(out));
  }

  lemma PlayAll(s: D.State, w: D.Worker, n: Id, row: Id, trace: seq<Retry.Event>, text: string)
    returns (ss: seq<D.State>, es: seq<D.Event>)
    requires w < |s.pcs| && Playable(s, w, n, row, trace, text)
    ensures D.Run(MAX, ss, es) && ss[0] == s && |es| == |trace|
    ensures forall i :: 0 <= i < |es| ==> es[i] == EventFor(w, trace[i], text)
    ensures ss[|es|] == Played(s, w, n, row, trace, |trace|, text)
  {
    var state := (k: nat) => if k <= |trace| && w < |s.pcs| then Played(s, w, n, row, trace, k, text) else s;
    var event := (k: nat) => if k < |trace| then EventFor(w, trace[k], text) else D.Timer(w);
    ss, es := StepsFormRun(state, event, |trace|);
  }

  lemma TraceEnds(huge: int64, trace: seq<Retry.Event>, out: Retry.Outcome, n: Id, row: Id)
    requires Retry.Admissible(Retry.DEFAULT_CONFIG, huge, trace, out)
    ensures trace != []
    ensures PcAfter(n, row, trace[|trace| - 1], ErrorText(out)) ==
            if out.Success? then D.Acking(n, row) else D.Failing(n, row, ErrorText(out))
  {
  }

  /** Sequencing of two runs. */
  lemma Join(a: seq<D.State>, as_: seq<D.Event>, b: seq<D.State>, bs: seq<D.Event>)
    returns (ss: seq<D.State>, es: seq<D.Event>)
    requires D.Run(MAX, a, as_) && D.Run(MAX, b, bs) && a[|as_|] == b[0]
    ensures ss == a[..|as_|] + b && es == as_ + bs && D.Run(MAX, ss, es)
  {
    ss, es := a[..|as_|] + b, as_ + bs;
    forall i | 0 <= i < |es|
      ensures D.StepAt(MAX, ss, es, i)
    {
      if i < |as_| {
        assert D.StepAt(MAX, a, as_, i);
      } else {
        assert D.StepAt(MAX, b, bs, i - |as_|);
      }
    }
  }

  // ---------------------------------------------------------------------
  // The worker
  // ---------------------------------------------------------------------

  /** The row left behind by an invocation that got past its insert. */
  function FinalRow(n: Id, channel: Channel, fate: Fate, out: Retry.Outcome): DeliveryLog {
    var row := DeliveryLog(fate.logId, n, channel, 1, Pending, "", fate.at);
    if !fate.onUpdate.Applied() then row
    else row.(status := if out.Success? then Sent else Failed, errorMessage := ErrorText(out))
  }

  /** How one call of process ends. */
  datatype Ending = CheckFailed | Duplicate | InsertFailed | Retried(out: Retry.Outcome)

  /** Which ending the environment brings about. `known` says that the
      notification row exists, as the foreign key of the log demands. */
  ghost predicate Ends(s: D.State, n: Id, known: bool, fate: Fate, ending: Ending) {
    match ending
    case CheckFailed => !fate.onCheck.Fine?
    case Duplicate => fate.onCheck.Fine? && SentExists(s.logs, n)
    case InsertFailed => fate.onCheck.Fine? && !SentExists(s.logs, n) && !(known && fate.onInsert.Fine?)
    case Retried(out) =>
      && fate.onCheck.Fine? && !SentExists(s.logs, n) && known && fate.onInsert.Fine?
      && Retry.Yields(Retry.DEFAULT_CONFIG, fate.retry, out)
  }

  /** The table and the successful Sends after the call. */
  ghost predicate Leaves(s: D.State, n: Id, known: bool, channel: Channel, fate: Fate, ending: Ending,
                         logs: Logs, sends: seq<D.Delivered>) {
    match ending
    case Retried(out) =>
      && logs == s.logs[fate.logId := FinalRow(n, channel, fate, out)]
      && sends == s.sends + if out.Success? then [D.Delivered(fate.logId, n)] else []
    case InsertFailed =>
      && sends == s.sends
      && logs == if known && fate.onInsert.Applied()
                 then s.logs[fate.logId := DeliveryLog(fate.logId, n, channel, 1, Pending, "", fate.at)] else s.logs
    case _ => logs == s.logs && sends == s.sends
  }

  lemma EndingFacts(s: D.State, n: Id, known: bool, channel: Channel, fate: Fate, ending: Ending, logs: Logs, sends: seq<D.Delivered>)
    requires Ends(s, n, known, fate, ending) && Leaves(s, n, known, channel, fate, ending, logs, sends)
    ensures ending.CheckFailed? <==> !fate.onCheck.Fine?
    ensures ending.Duplicate? <==>
              fate.onCheck.Fine? && exists id :: id in s.logs && s.logs[id].notificationId == n && s.logs[id].status == Status.Sent
    ensures ending.CheckFailed? || ending.Duplicate? ==> logs == s.logs
    ensures ending.InsertFailed? ==>
              logs == if known && fate.onInsert.LostReply?
                      then s.logs[fate.logId := DeliveryLog(fate.logId, n, channel, 1, Pending, "", fate.at)] else s.logs
    ensures ending.Retried? <==>
              fate.onCheck.Fine? && fate.onInsert.Fine? && known
              && (forall id :: id in s.logs ==> s.logs[id].notificationId != n || s.logs[id].status != Status.Sent)
    ensures ending.Retried? ==>
              var try, wait := fate.retry.answer, fate.retry.wakeup;
              ending.out ==
                if try(1).None? then Retry.Success
                else if wait(1).DoneOnly? || wait(1) == Retry.Both(true) then Retry.Cancelled(1)
                else if try(2).None? then Retry.Success
                else if wait(2).DoneOnly? || wait(2) == Retry.Both(true) then Retry.Cancelled(2)
                else if try(3).None? then Retry.Success
                else Retry.Exhausted(3, try(3))
    ensures ending.Retried? ==>
              && fate.logId in logs
              && logs[fate.logId] == DeliveryLog(fate.logId, n, channel, 1,
                   if fate.onUpdate.Refused? then Pending else if ending.out.Success? then Sent else Failed,
                   if ending.out.Success? || fate.onUpdate.Refused? then ""
                   else if ending.out.Cancelled? then "retry cancelled"
                   else "max retries exceeded: " + fate.retry.answer(3).value,
                   fate.at)
  {
    if ending.Retried? {
      Retry.ThreeTries(fate.retry, ending.out);
    }
  }

  /** The check and the insert, up to the point where sending starts. */
  lemma Prelude(s: D.State, w: D.Worker, n: Id, known: bool, channel: Channel, fate: Fate)
    returns (ss: seq<D.State>, es: seq<D.Event>)
    requires w < |s.pcs| && s.pcs[w] == D.Checking(n) && fate.logId !in s.used
    ensures D.Run(MAX, ss, es) && OwnEvents(es, w) && ss[0] == s && ss[|es|].sends == s.sends
    ensures s.used <= ss[|es|].used <= s.used + {fate.logId}
    ensures s.logs.Keys <= s.used ==> ss[|es|].logs.Keys <= ss[|es|].used
    ensures !fate.onCheck.Fine? || SentExists(s.logs, n) ==>
              ss[|es|].logs == s.logs && ss[|es|].pcs == s.pcs[w := D.Idle]
    ensures fate.onCheck.Fine? && !SentExists(s.logs, n) ==>
              && ss[|es|].logs == (if known && fate.onInsert.Applied()
                   then s.logs[fate.logId := DeliveryLog(fate.logId, n, channel, 1, Pending, "", fate.at)] else s.logs)
              && ss[|es|].pcs == s.pcs[w := if known && fate.onInsert.Fine? then D.Sending(n, fate.logId, 1) else D.Idle]
  {
    var t;
    ss, es, t := D.Extend(MAX, [s], [], D.Check(w, fate.onCheck, fate.logId));
    if fate.onCheck.Fine? && !SentExists(s.logs, n) {
      assert t.pcs[w] == D.Inserting(n, fate.logId);
      ss, es, t := D.Extend(MAX, ss, es, D.Insert(w, if known then fate.onInsert else Refused, channel, fate.at));
      assert t.pcs == s.pcs[w := if known && fate.onInsert.Fine? then D.Sending(n, fate.logId, 1) else D.Idle];
    }
  }

  /** The retry loop and the final update. */
  lemma Finale(s: D.State, w: D.Worker, n: Id, channel: Channel, fate: Fate, trace: seq<Retry.Event>, out: Retry.Outcome)
    returns (ss: seq<D.State>, es: seq<D.Event>)
    requires Retry.Admissible(Retry.DEFAULT_CONFIG, fate.retry.huge, trace, out)
    requires w < |s.pcs| && s.pcs[w] == D.Sending(n, fate.logId, 1)
    requires fate.logId in s.logs
    requires s.logs[fate.logId] == DeliveryLog(fate.logId, n, channel, 1, Pending, "", fate.at)
    ensures D.Run(MAX, ss, es) && OwnEvents(es, w) && ss[0] == s
    ensures ss[|es|].pcs == s.pcs[w := D.Idle] && ss[|es|].used == s.used
    ensures ss[|es|].logs == s.logs[fate.logId := FinalRow(n, channel, fate, out)]
    ensures ss[|es|].sends == s.sends + if out.Success? then [D.Delivered(fate.logId, n)] else []
  {
    var t;
    ss, es := Replay(fate.retry.huge, trace, out, s, w, n, fate.logId);
    TraceEnds(fate.retry.huge, trace, out, n, fate.logId);
    var u := ss[|es|];
    assert u.pcs[w := D.Idle] == s.pcs[w := D.Idle];
    ss, es, t := D.Extend(MAX, ss, es, D.Update(w, fate.onUpdate));
    assert t.logs == s.logs[fate.logId := FinalRow(n, channel, fate, out)];
  }

  /** The whole call when the insert succeeds. */
  lemma Whole(s: D.State, w: D.Worker, n: Id, channel: Channel, fate: Fate, trace: seq<Retry.Event>, out: Retry.Outcome)
    returns (ss: seq<D.State>, es: seq<D.Event>)
    requires Retry.Admissible(Retry.DEFAULT_CONFIG, fate.retry.huge, trace, out)
    requires w < |s.pcs| && s.pcs[w] == D.Checking(n) && fate.logId !in s.used && s.logs.Keys <= s.used
    requires fate.onCheck.Fine? && !SentExists(s.logs, n) && fate.onInsert.Fine?
    ensures D.Run(MAX, ss, es) && OwnEvents(es, w) && ss[0] == s && ss[|es|].pcs == s.pcs[w := D.Idle]
    ensures s.used <= ss[|es|].used <= s.used + {fate.logId} && ss[|es|].logs.Keys <= ss[|es|].used
    ensures ss[|es|].logs == s.logs[fate.logId := FinalRow(n, channel, fate, out)]
    ensures ss[|es|].sends == s.sends + if out.Success? then [D.Delivered(fate.logId, n)] else []
  {
    ss, es := Prelude(s, w, n, true, channel, fate);
    var ss2, es2 := Finale(ss[|es|], w, n, channel, fate, trace, out);
    ss, es := Join(ss, es, ss2, es2);
  }

  // ---------------------------------------------------------------------
  // The calls of the read loop
  // ---------------------------------------------------------------------

  /** History: one call of process, with the run that it is. */
  datatype Call = Call(n: Notification, fate: Fate, ending: Ending, ss: seq<D.State>, es: seq<D.Event>)

  /** Where the calls lead from s. */
  function Last(s: D.State, calls: seq<Call>): D.State {
    if calls == [] || calls[|calls| - 1].ss == [] then s
    else
      var ss := calls[|calls| - 1].ss;
      ss[|ss| - 1]
  }

  /** A call made in state `before`: a run of this worker alone that begins with
      the check of the message just read, ends as the fate and the table decide,
      and leaves what that ending leaves. */
  ghost predicate Shown(c: Call, before: D.State, w: D.Worker, channel: Channel, known: Notifications) {
    && w < |before.pcs| && before.pcs[w] == D.Idle
    && D.Run(MAX, c.ss, c.es) && OwnEvents(c.es, w)
    && c.ss[0] == D.Goto(before, w, D.Checking(c.n.id))
    && c.ss[|c.es|].pcs == before.pcs
    && Ends(c.ss[0], c.n.id, c.n.id in known, c.fate, c.ending)
    && Leaves(c.ss[0], c.n.id, c.n.id in known, channel, c.fate, c.ending, c.ss[|c.es|].logs, c.ss[|c.es|].sends)
  }

  /** Each call was made where the one before it ended. */
  ghost predicate Logged(calls: seq<Call>, s: D.State, w: D.Worker, channel: Channel, known: Notifications) {
    if calls == [] then true
    else
      var before := calls[..|calls| - 1];
      Logged(before, s, w, channel, known) && Shown(calls[|calls| - 1], Last(s, before), w, channel, known)
  }

  lemma LogCall(calls: seq<Call>, s: D.State, w: D.Worker, channel: Channel, known: Notifications, c: Call)
    requires Logged(calls, s, w, channel, known) && Shown(c, Last(s, calls), w, channel, known)
    ensures Logged(calls + [c], s, w, channel, known)
    ensures Last(s, calls + [c]) == c.ss[|c.es|]
  {
    assert (calls + [c])[..|calls|] == calls;
  }

  lemma BackToIdle(pcs: seq<D.Pc>, w: D.Worker, pc: D.Pc)
    requires w < |pcs| && pcs[w] == D.Idle
    ensures pcs[w := pc][w := D.Idle] == pcs
  {
  }

  /** The whole history: before each call the read that it follows. */
  function States(s: D.State, calls: seq<Call>): seq<D.State> {
    if calls == [] then [s] else States(s, calls[..|calls| - 1]) + calls[|calls| - 1].ss
  }

  function Events(w: D.Worker, calls: seq<Call>): seq<D.Event> {
    if calls == [] then []
    else
      var c := calls[|calls| - 1];
      Events(w, calls[..|calls| - 1]) + [D.Receive(w, c.n.id)] + c.es
  }

  /** A run followed by one read and the call that handles it. */
  lemma JoinCall(a: seq<D.State>, as_: seq<D.Event>, w: D.Worker, n: Id, b: seq<D.State>, bs: seq<D.Event>)
    requires D.Run(MAX, a, as_) && D.Run(MAX, b, bs)
    requires D.Enabled(MAX, a[|as_|], D.Receive(w, n)) && b[0] == D.Step(MAX, a[|as_|], D.Receive(w, n))
    ensures D.Run(MAX, a + b, as_ + [D.Receive(w, n)] + bs)
  {
    var ss, es, t := D.Extend(MAX, a, as_, D.Receive(w, n));
    assert ss[..|es|] == a;
    ss, es := Join(ss, es, b, bs);
  }

  lemma OwnJoin(as_: seq<D.Event>, e: D.Event, bs: seq<D.Event>, w: D.Worker)
    requires OwnEvents(as_, w) && OwnEvents([e], w) && OwnEvents(bs, w)
    ensures OwnEvents(as_ + [e] + bs, w)
  {
    assert [e][0] == e;
  }

  /** What a read loop has done is a run of the protocol by its worker alone. */
  lemma {:induction false} LoopIsRun(calls: seq<Call>, s: D.State, w: D.Worker, channel: Channel, known: Notifications)
    requires Logged(calls, s, w, channel, known)
    ensures D.Run(MAX, States(s, calls), Events(w, calls)) && OwnEvents(Events(w, calls), w)
    ensures States(s, calls)[0] == s && States(s, calls)[|Events(w, calls)|] == Last(s, calls)
  {
    if calls == [] {
    } else {
      var before, c := calls[..|calls| - 1], calls[|calls| - 1];
      LoopIsRun(before, s, w, channel, known);
      JoinCall(States(s, before), Events(w, before), w, c.n.id, c.ss, c.es);
      OwnJoin(Events(w, before), D.Receive(w, c.n.id), c.es, w);
    }
  }

  lemma TallyGrows(calls: seq<Call>, call: Call)
    ensures forall of: Ending -> bool ::
              Tally(calls + [call], of) == Tally(calls, of) + if of(call.ending) then 1 else 0
  {
    assert (calls + [call])[..|calls|] == calls;
  }

  /** The notification a fetch delivers, if it delivers one that decodes. */
  function Decoded(messages: seq<Broker.Message>, fetch: Broker.Fetch): Option<Notification> {
    if fetch.Deliver? && fetch.offset < |messages| && messages[fetch.offset].value.Json?
    then Some(messages[fetch.offset].value.n) else None
  }

  /** What the fetches deliver that decodes, with the fate of its call. */
  function Fetched(messages: seq<Broker.Message>, script: seq<(Broker.Fetch, Fate)>): seq<(Notification, Fate)> {
    if script == [] then []
    else
      var (fetch, fate) := script[|script| - 1];
      Fetched(messages, script[..|script| - 1]) +
        match Decoded(messages, fetch) case Some(n) => [(n, fate)] case None => []
  }

  /** Fetch by fetch, in order, and nothing left out. */
  lemma FetchedInOrder(messages: seq<Broker.Message>, script: seq<(Broker.Fetch, Fate)>, k: nat)
    requires k < |script|
    ensures Fetched(messages, []) == []
    ensures Fetched(messages, script[..k + 1]) == Fetched(messages, script[..k]) +
              if script[k].0.Deliver? && script[k].0.offset < |messages| && messages[script[k].0.offset].value.Json?
              then [(messages[script[k].0.offset].value.n, script[k].1)] else []
  {
    assert script[..k + 1][..k] == script[..k];
  }

  /** uuid.NewString never repeats an id. */
  ghost predicate FreshIds(script: seq<(Broker.Fetch, Fate)>, used: set<Id>) {
    && (forall i :: 0 <= i < |script| ==> script[i].1.logId !in used)
    && (forall i, j :: 0 <= i < j < |script| ==> script[i].1.logId != script[j].1.logId)
  }

  /** The i-th call handles the i-th of these. */
  ghost predicate Handles(calls: seq<Call>, fetched: seq<(Notification, Fate)>) {
    |calls| == |fetched| && forall i :: 0 <= i < |calls| ==> (calls[i].n, calls[i].fate) == fetched[i]
  }

  /** The calls handle what the script has delivered so far, and the ids the
      rest of it will draw are fresh. */
  ghost predicate Progress(messages: seq<Broker.Message>, script: seq<(Broker.Fetch, Fate)>, done: nat, calls: seq<Call>, used: set<Id>) {
    && done <= |script| && FreshIds(script[done..], used)
    && Handles(calls, Fetched(messages, script[..done]))
  }

  lemma NextIsFresh(messages: seq<Broker.Message>, script: seq<(Broker.Fetch, Fate)>, done: nat, calls: seq<Call>, used: set<Id>)
    requires Progress(messages, script, done, calls, used) && done < |script|
    ensures script[done].1.logId !in used
  {
    assert script[done..][0] == script[done];
  }

  lemma ProgressGrows(messages: seq<Broker.Message>, script: seq<(Broker.Fetch, Fate)>, done: nat, calls: seq<Call>, used: set<Id>,
                      more: seq<Call>, after: set<Id>)
    requires Progress(messages, script, done, calls, used) && done < |script|
    requires after <= used + {script[done].1.logId}
    requires match Decoded(messages, script[done].0)
             case Some(n) => |more| == 1 && more[0].n == n && more[0].fate == script[done].1
             case None => more == []
    ensures Progress(messages, script, done + 1, calls + more, after)
  {
    assert script[done..][0] == script[done] && script[done..][1..] == script[done + 1..];
    assert script[..done + 1][..done] == script[..done];
  }

  predicate IsSent(e: Ending) { e == Retried(Retry.Success) }

  predicate IsFailed(e: Ending) { e.Retried? && !e.out.Success? }

  predicate IsSkipped(e: Ending) { e.Duplicate? }

  /** A database error before any Send. */
  predicate IsDatabaseError(e: Ending) { e.CheckFailed? || e.InsertFailed? }

  function Tally(calls: seq<Call>, of: Ending -> bool): nat {
    if calls == [] then 0
    else Tally(calls[..|calls| - 1], of) + if of(calls[|calls| - 1].ending) then 1 else 0
  }

  lemma {:induction false} EveryCallEndsOnce(calls: seq<Call>)
    ensures |calls| == Tally(calls, IsSent) + Tally(calls, IsFailed) + Tally(calls, IsSkipped) + Tally(calls, IsDatabaseError)
  {
    if calls == [] {
    } else {
      EveryCallEndsOnce(calls[..|calls| - 1]);
    }
  }

  class Worker {
    const consumer: Broker.Consumer
    const channel: Channel
    const logRepo: Database
    const retryCfg: Retry.Config := Retry.DEFAULT_CONFIG

    // Prometheus counters of this channel.
    var sentTotal: nat
    var failedTotal: nat
    var skippedTotal: nat

    constructor (consumer: Broker.Consumer, channel: Channel, logRepo: Database)
      ensures this.consumer == consumer && this.channel == channel && this.logRepo == logRepo
      ensures sentTotal == failedTotal == skippedTotal == 0
    {
      this.consumer := consumer;
      this.channel := channel;
      this.logRepo := logRepo;
      sentTotal, failedTotal, skippedTotal := 0, 0, 0;
    }

    /** One notification end to end. Seen from any protocol state in which this
        worker is about to check it, the call is a run of the protocol; at most
        one Send succeeds, and the row is marked sent exactly when one did and
        the update was applied. err is a non-nil error. */
    method Process(n: Notification, fate: Fate, ghost s: D.State, ghost w: D.Worker)
      returns (err: bool, ghost ending: Ending, ghost ss: seq<D.State>, ghost es: seq<D.Event>)
      requires w < |s.pcs| && s.pcs[w] == D.Checking(n.id) && s.logs == logRepo.logs
      requires fate.logId !in s.used && s.logs.Keys <= s.used
      modifies this`sentTotal, this`failedTotal, this`skippedTotal, logRepo`logs
      ensures Ends(s, n.id, n.id in logRepo.notifications, fate, ending)
      ensures D.Run(MAX, ss, es) && OwnEvents(es, w) && ss[0] == s
      ensures ss[|es|].logs == logRepo.logs && ss[|es|].pcs == s.pcs[w := D.Idle]
      ensures s.used <= ss[|es|].used <= s.used + {fate.logId} && logRepo.logs.Keys <= ss[|es|].used
      ensures Leaves(s, n.id, n.id in logRepo.notifications, channel, fate, ending, logRepo.logs, ss[|es|].sends)
      ensures err == !(ending.Duplicate? || ending == Retried(Retry.Success))
      ensures sentTotal == old(sentTotal) + if ending == Retried(Retry.Success) then 1 else 0
      ensures failedTotal == old(failedTotal) + if ending.Retried? && !ending.out.Success? then 1 else 0
      ensures skippedTotal == old(skippedTotal) + if ending.Duplicate? then 1 else 0
      // Without an answer to the check nothing is sent and an error returned;
      // a notification marked sent is skipped; a failed insert is an error.
      ensures ending.CheckFailed? <==> !fate.onCheck.Fine?
      ensures ending.Duplicate? <==>
                fate.onCheck.Fine? && exists id :: id in s.logs && s.logs[id].notificationId == n.id && s.logs[id].status == Status.Sent
      ensures ending.CheckFailed? || ending.Duplicate? ==> logRepo.logs == s.logs
      ensures ending.InsertFailed? ==>
                logRepo.logs == if n.id in logRepo.notifications && fate.onInsert.LostReply?
                                then s.logs[fate.logId := DeliveryLog(fate.logId, n.id, channel, 1, Pending, "", fate.at)] else s.logs
      // Past the check and the insert: three tries with two waits between them,
      // and a row that says how they ended.
      ensures ending.Retried? <==>
                fate.onCheck.Fine? && fate.onInsert.Fine? && n.id in logRepo.notifications
                && (forall id :: id in s.logs ==> s.logs[id].notificationId != n.id || s.logs[id].status != Status.Sent)
      ensures ending.Retried? ==>
                var try, wait := fate.retry.answer, fate.retry.wakeup;
                ending.out ==
                  if try(1).None? then Retry.Success
                  else if wait(1).DoneOnly? || wait(1) == Retry.Both(true) then Retry.Cancelled(1)
                  else if try(2).None? then Retry.Success
                  else if wait(2).DoneOnly? || wait(2) == Retry.Both(true) then Retry.Cancelled(2)
                  else if try(3).None? then Retry.Success
                  else Retry.Exhausted(3, try(3))
      ensures ending.Retried? ==>
                && fate.logId in logRepo.logs
                && logRepo.logs[fate.logId] == DeliveryLog(fate.logId, n.id, channel, 1,
                     if fate.onUpdate.Refused? then Pending else if ending.out.Success? then Sent else Failed,
                     if ending.out.Success? || fate.onUpdate.Refused? then ""
                     else if ending.out.Cancelled? then "retry cancelled"
                     else "max retries exceeded: " + fate.retry.answer(3).value,
                     fate.at)
    {
      err, ending, ss, es := ProcessSteps(n, fate, s, w);
      EndingFacts(s, n.id, n.id in logRepo.notifications, channel, fate, ending, logRepo.logs, ss[|es|].sends);
    }

    method ProcessSteps(n: Notification, fate: Fate, ghost s: D.State, ghost w: D.Worker)
      returns (err: bool, ghost ending: Ending, ghost ss: seq<D.State>, ghost es: seq<D.Event>)
      requires w < |s.pcs| && s.pcs[w] == D.Checking(n.id) && s.logs == logRepo.logs
      requires fate.logId !in s.used && s.logs.Keys <= s.used
      modifies this`sentTotal, this`failedTotal, this`skippedTotal, logRepo`logs
      ensures Ends(s, n.id, n.id in logRepo.notifications, fate, ending)
      ensures D.Run(MAX, ss, es) && OwnEvents(es, w) && ss[0] == s
      ensures ss[|es|].logs == logRepo.logs && ss[|es|].pcs == s.pcs[w := D.Idle]
      ensures s.used <= ss[|es|].used <= s.used + {fate.logId} && logRepo.logs.Keys <= ss[|es|].used
      ensures Leaves(s, n.id, n.id in logRepo.notifications, channel, fate, ending, logRepo.logs, ss[|es|].sends)
      ensures err == !(ending.Duplicate? || ending == Retried(Retry.Success))
      ensures sentTotal == old(sentTotal) + if ending == Retried(Retry.Success) then 1 else 0
      ensures failedTotal == old(failedTotal) + if ending.Retried? && !ending.out.Success? then 1 else 0
      ensures skippedTotal == old(skippedTotal) + if ending.Duplicate? then 1 else 0
    {
      ghost var known := n.id in logRepo.notifications;
      var alreadySent := logRepo.ExistsSent(n.id, fate.onCheck);
      if alreadySent.None? {
        ss, es := Prelude(s, w, n.id, known, channel, fate);
        return true, CheckFailed, ss, es;
      }
      if alreadySent.value {
        ss, es := Prelude(s, w, n.id, known, channel, fate);
        skippedTotal := skippedTotal + 1;
        return false, Duplicate, ss, es;
      }

      var row := DeliveryLog(fate.logId, n.id, channel, 1, Pending, "", fate.at);
      var ok := logRepo.Insert(row, fate.onInsert);
      if !ok {
        ss, es := Prelude(s, w, n.id, known, channel, fate);
        return true, InsertFailed, ss, es;
      }

      var out; ghost var trace;
      out, trace := Deliver(n, fate);
      ss, es := Whole(s, w, n.id, channel, fate, trace, out);
      return !out.Success?, Retried(out), ss, es;
    }

    /** Steps 3 and 4: the retried Send and the final status. */
    method Deliver(n: Notification, fate: Fate) returns (out: Retry.Outcome, ghost trace: seq<Retry.Event>)
      requires fate.logId in logRepo.logs
      requires logRepo.logs[fate.logId] == DeliveryLog(fate.logId, n.id, channel, 1, Pending, "", fate.at)
      modifies this`sentTotal, this`failedTotal, logRepo`logs
      ensures Retry.Admissible(Retry.DEFAULT_CONFIG, fate.retry.huge, trace, out)
      ensures Retry.Yields(Retry.DEFAULT_CONFIG, fate.retry, out)
      ensures logRepo.logs == old(logRepo.logs)[fate.logId := FinalRow(n.id, channel, fate, out)]
      ensures sentTotal == old(sentTotal) + if out.Success? then 1 else 0
      ensures failedTotal == old(failedTotal) + if out.Success? then 0 else 1
      ensures |trace| <= 5
      ensures |trace| >= 2 ==> trace[1].Waited? && trace[1].delay == 100_000_000
      ensures |trace| >= 4 ==> trace[3].Waited? && trace[3].delay == 200_000_000
    {
      out, trace := Retry.Do(retryCfg, fate.retry);
      Retry.ShippedDelays(fate.retry.huge, 1);
      Retry.ShippedDelays(fate.retry.huge, 2);
      var status := if out.Success? then Sent else Failed;
      var updated := logRepo.UpdateDeliveryStatus(fate.logId, status, ErrorText(out), fate.onUpdate);
      if out.Success? {
        sentTotal := sentTotal + 1;
      } else {
        failedTotal := failedTotal + 1;
      }
    }

    /** The table and the counters are where the calls lead: this worker is
        idle again, and each counter has risen by the calls that ended its way. */
    ghost predicate Stands(calls: seq<Call>, s: D.State, w: D.Worker, sent0: nat, failed0: nat, skipped0: nat)
      reads this, logRepo
    {
      && Logged(calls, s, w, channel, logRepo.notifications)
      && Last(s, calls).logs == logRepo.logs && Last(s, calls).pcs == s.pcs
      && logRepo.logs.Keys <= Last(s, calls).used
      && sentTotal == sent0 + Tally(calls, IsSent)
      && failedTotal == failed0 + Tally(calls, IsFailed)
      && skippedTotal == skipped0 + Tally(calls, IsSkipped)
    }

    /** What the loop does with a message. */
    method Handle(n: Notification, fate: Fate, ghost s: D.State, ghost w: D.Worker, ghost calls: seq<Call>,
                  ghost sent0: nat, ghost failed0: nat, ghost skipped0: nat)
      returns (ghost c: Call)
      requires Stands(calls, s, w, sent0, failed0, skipped0)
      requires w < |s.pcs| && s.pcs[w] == D.Idle && fate.logId !in Last(s, calls).used
      modifies this`sentTotal, this`failedTotal, this`skippedTotal, logRepo`logs
      ensures Stands(calls + [c], s, w, sent0, failed0, skipped0)
      ensures Last(s, calls + [c]).used <= Last(s, calls).used + {fate.logId}
      ensures c.n == n && c.fate == fate
    {
      ghost var before := Last(s, calls);
      var err; ghost var ending, ss, es;
      err, ending, ss, es := Process(n, fate, D.Goto(before, w, D.Checking(n.id)), w);
      c := Call(n, fate, ending, ss, es);
      BackToIdle(before.pcs, w, D.Checking(n.id));
      LogCall(calls, s, w, channel, logRepo.notifications, c);
      TallyGrows(calls, c);
    }

    /** The body of the loop: one read and, if it delivers a notification, one
        call. A context error ends the loop. */
    method Turn(fetch: Broker.Fetch, fate: Fate, ghost s: D.State, ghost w: D.Worker, ghost calls: seq<Call>,
                ghost sent0: nat, ghost failed0: nat, ghost skipped0: nat)
      returns (stop: bool, ghost more: seq<Call>)
      requires Stands(calls, s, w, sent0, failed0, skipped0)
      requires w < |s.pcs| && s.pcs[w] == D.Idle && fate.logId !in Last(s, calls).used
      modifies this`sentTotal, this`failedTotal, this`skippedTotal, logRepo`logs, consumer`next
      ensures Stands(calls + more, s, w, sent0, failed0, skipped0)
      ensures Last(s, calls + more).used <= Last(s, calls).used + {fate.logId}
      ensures match Decoded(consumer.log.messages, fetch)
              case Some(n) => |more| == 1 && more[0].n == n && more[0].fate == fate
              case None => more == []
      ensures stop == fetch.Interrupted?
      ensures var messages := consumer.log.messages;
              if fetch.Deliver? && fetch.offset < |messages| && messages[fetch.offset].value.Json?
              then |more| == 1 && Broker.Json(more[0].n) == messages[fetch.offset].value && more[0].fate == fate
              else more == []
    {
      more := [];
      assert calls + more == calls;
      var n := consumer.ReadOne(fetch);
      if n.Ok? {
        ghost var c := Handle(n.value, fate, s, w, calls, sent0, failed0, skipped0);
        more := [c];
      }
      stop := n.Err? && n.error.ContextDone?;
    }

    /** The read loop over any finite prefix of what the consumer delivers: one
        call for each message that decodes, in order, each made where the one
        before it ended; each ended in exactly one of four ways, three of which
        a counter records. By LoopIsRun the whole is a run of the protocol.
        `done` is how much of the script was consumed. */
    method Run(script: seq<(Broker.Fetch, Fate)>, ghost s: D.State, ghost w: D.Worker)
      returns (done: nat, ghost calls: seq<Call>)
      requires w < |s.pcs| && s.pcs[w] == D.Idle && s.logs == logRepo.logs && s.logs.Keys <= s.used
      requires FreshIds(script, s.used)
      modifies this`sentTotal, this`failedTotal, this`skippedTotal, logRepo`logs, consumer`next
      ensures done <= |script|
      ensures done < |script| ==> done > 0 && script[done - 1].0.Interrupted?
      ensures forall i :: 0 <= i < done - 1 ==> !script[i].0.Interrupted?
      ensures Stands(calls, s, w, old(sentTotal), old(failedTotal), old(skippedTotal))
      ensures Handles(calls, Fetched(consumer.log.messages, script[..done]))
      ensures |calls| == (sentTotal - old(sentTotal)) + (failedTotal - old(failedTotal))
                         + (skippedTotal - old(skippedTotal)) + Tally(calls, IsDatabaseError)
    {
      calls, done := [], 0;
      while done < |script|
        invariant done <= |script|
        invariant forall i :: 0 <= i < done ==> !script[i].0.Interrupted?
        invariant Stands(calls, s, w, old(sentTotal), old(failedTotal), old(skippedTotal))
        invariant Progress(consumer.log.messages, script, done, calls, Last(s, calls).used)
      {
        var fetch, fate := script[done].0, script[done].1;
        NextIsFresh(consumer.log.messages, script, done, calls, Last(s, calls).used);
        ghost var before, more := calls, [];
        var stop;
        stop, more := Turn(fetch, fate, s, w, calls, old(sentTotal), old(failedTotal), old(skippedTotal));
        calls := calls + more;
        ProgressGrows(consumer.log.messages, script, done, before, Last(s, before).used, more, Last(s, calls).used);
        done := done + 1;
        if stop {
          break;
        }
      }
      EveryCallEndsOnce(calls);
    }
  }
}
